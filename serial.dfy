/** A serial port whose receive side is a circular DMA buffer: bytes are read
    one at a time from the buffer's consumer, while writes go straight to the
    wrapped UART. */
module BufferSerial {
  import opened Common
  import opened CircularBuffer
  import Uart

  class Serial {
    /** The wrapped serial port, which handles every write. */
    const serial: Uart.Uart
    /** The consumer side of the receive buffer. */
    const consumer: Consumer

    /** `Serial::new`. */
    constructor (serial: Uart.Uart, consumer: Consumer)
      ensures this.serial == serial && this.consumer == consumer
    {
      this.serial := serial;
      this.consumer := consumer;
    }

    /** `Write::write`, forwarded to the wrapped port. */
    method Write(byte: u8) returns (r: NbResult<()>)
      modifies serial`sent
      ensures r == (if serial.dre then Ok(()) else WouldBlock)
      ensures serial.sent == (if serial.dre then old(serial.sent) + [byte] else old(serial.sent))
    {
      r := serial.Write(byte);
    }

    /** `Write::flush`, forwarded to the wrapped port. */
    method Flush() returns (r: NbResult<()>)
      ensures r == (if serial.dre then Ok(()) else WouldBlock)
    {
      r := serial.Flush();
    }

    /** `blocking::serial::Write::bwrite_all`, forwarded to the wrapped port. */
    method BWriteAll(buffer: seq<u8>) returns (r: Outcome<()>)
      modifies serial`dre, serial`sent
      ensures r == Returns(())
      ensures serial.sent == old(serial.sent) + buffer
    {
      r := serial.BWriteAll(buffer);
    }

    /** `blocking::serial::Write::bflush`, forwarded to the wrapped port. */
    method BFlush() returns (r: Outcome<()>)
      modifies serial`dre
      ensures r == Returns(()) && serial.dre
    {
      r := serial.BFlush();
    }

    /** `Read::read`: take a grant; when it is empty, release nothing and try
        again later; otherwise return its first byte and release exactly
        that byte. */
    method Read() returns (r: NbResult<u8>)
      requires consumer.buf.Valid()
      modifies consumer.buf`read
      ensures consumer.buf.Valid()
      ensures var b := consumer.buf;
              var len := Readable(b.write, old(b.read), b.size);
              && r == (if len == 0 then WouldBlock else Ok(b.data[old(b.read)]))
              && b.read == (if len == 0 then old(b.read) else AfterRelease(old(b.read), 1, len, b.size))
    {
      var grant := consumer.Read();
      var slice := grant.AsSlice();
      if |slice| < 1 {
        grant.Release(0);
        return WouldBlock;
      }
      var byte := slice[0];
      grant.Release(1);
      r := Ok(byte);
    }
  }

  /** A successful `read` moves the cursor one byte forward around the ring,
      for every `write` the producer can reach; while `write` is inside the
      array it also consumes exactly one unread byte. An unsuccessful read
      happens only when nothing is unread. */
  lemma ReadTakesOneByte(write: nat, read: nat, size: nat)
    requires read < size && write <= size
    ensures var len := Readable(write, read, size);
            len > 0 ==> AfterRelease(read, 1, len, size) == (read + 1) % size
    ensures var len := Readable(write, read, size);
            write < size && len > 0 ==>
              Unread(write, AfterRelease(read, 1, len, size), size) == Unread(write, read, size) - 1
    ensures Readable(write, read, size) == 0 ==> Unread(write, read, size) == 0
  {
    var len := Readable(write, read, size);
    ReleaseConsumes(write, read, 1, size);
    if len > 0 {
      if read + 1 < size {
        DivModUnique(read + 1, size, 0, read + 1);
      } else {
        DivModUnique(read + 1, size, 1, 0);
      }
    }
  }
}
