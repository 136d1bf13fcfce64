# atsamd SAMD21 HAL: DMA descriptor ring, circular buffer and small decoders

This project is a Dafny model of part of the SAMD21 hardware abstraction layer of
the `atsamd` Rust crates. It covers:

- **The DMAC circular streaming buffer** (`CircularBuffer`). A `Buffer` of N
  blocks of X bytes is backed by a closed ring of N transfer descriptors. The
  first descriptor lives in the global `BASE_DESCRIPTORS` slot of the channel and
  the other N-1 in the buffer's own descriptor array.
  - `Buffer::configure` fills the ring once.
  - The `Producer` moves the `write_block` and `write` cursors when the hardware
    reports a finished or partly finished block.
  - The `Consumer` grants the filled bytes as one slice that never wraps.
  - `GrantR::release` moves the `read` cursor.
- **The byte-at-a-time reader over that buffer** (`BufferSerial.Serial`). Its
  writes go straight to the wrapped UART.
- **Transfer descriptors** (`Descriptors`): the record, its all-zero default and
  the five builders.
- **The BTCTRL control word** (`Btctrl`): its field layout in a `u16`, the getters
  and in-place setters, and the partial `From<u8>` decoders of its enumerations.
- **The DMA controller** (`Dmac`): the two 12-slot global descriptor tables,
  `DMAC::channel`, `DMAC::trigger` and the `DMAC::interrupt` acknowledge loop.
  Registers are fields, and the per-channel registers reached through CHID are
  arrays indexed by channel.
- **The channel, trigger-source and event identity tables** (`Channels`).
- **Four small pure routines:**
  - the timer prescaler and cycle computation of `TimerParams::new` (`Timer`);
  - the reset-cause decoder (`Reset`);
  - the EIC configuration-register addressing and pin table (`Eic`);
  - the UART fractional baud split, the pad table, and the flag-gated data
    accesses (`Uart`).

A panic of the Rust code is modelled as a result:

- an `expect`, `assert!`, `panic!` or `unimplemented!()`;
- an arithmetic overflow, which panics in a debug build.

That result is `Outcome.Panics`, or `panicked == true` for `ConfigureChannel`.
`nb::Error::WouldBlock` is `NbResult.WouldBlock`.

A raw pointer is a `Ptr`: the memory object it points into and a byte offset. The
objects are null, external memory, the buffer's data, the buffer's
descriptors, and the two tables. Descriptors are 16 bytes apart.

**Where the code differs from the buffer's intended invariant.** The buffer is
meant to keep all three cursors in `[0, N·X)`. The code lets `write` reach N·X,
and a whole buffer of stale bytes is then granted again (see "## Findings").
The operations follow the code as written: `Buffer.Valid` allows
`write <= size`, and `NotifyDescriptor` gives `write < size` again. The
corrected grant, `CircularBuffer.ReadableCorrected`, is stated beside them with
the properties the design intends proved about it.

## Model

| member | source | states |
|---|---|---|
| CircularBuffer.Buffer.constructor | hal/src/samd21/dmac/buffer/mod.rs:52-63 | all three cursors start at 0 and the buffer is marked not yet configured |
| CircularBuffer.Buffer.Configure | hal/src/samd21/dmac/buffer/mod.rs:68-124 | panics, changing nothing, when already configured; otherwise calls `f` exactly N times, the call for ring slot k getting dst = data + X·k, count X and the next slot (the base slot after the last), and stores each result in its slot (base table slot for k = 0, private descriptor k-1 otherwise), so a closure that chains through its `next` argument closes the ring; other channels' base slots are unchanged |
| CircularBuffer.Buffer.LinkDescriptors | hal/src/samd21/dmac/buffer/mod.rs:98-111 | private descriptor i holds `f(data + X·(i+1), X, next)`, where next is descriptor i+1, or the channel's base slot for the last one |
| CircularBuffer.NextComputed | hal/src/samd21/dmac/buffer/mod.rs:88-108 | the next pointer computed in `configure` is the following private descriptor, or the base slot for the last one |
| CircularBuffer.NextOf | hal/src/samd21/dmac/buffer/mod.rs:91-108 | slot k's next pointer is the ring slot (k+1) mod N |
| CircularBuffer.SlotIndex | hal/src/samd21/dmac/buffer/mod.rs:88-111 | a pointer it recognises is the ring slot of that index |
| CircularBuffer.SlotOfRing | hal/src/samd21/dmac/buffer/mod.rs:88-111 | every ring slot is recognised as itself, so no two slots share an address |
| CircularBuffer.RingCloses | hal/src/samd21/dmac/buffer/mod.rs:88-111 | following next pointers from the base slot visits slot j mod N at step j, returns to the base slot after exactly N steps, and visits no slot twice before that |
| CircularBuffer.WalkSlot | hal/src/samd21/dmac/buffer/mod.rs:88-111 | j steps of the walk reach ring slot j mod N |
| CircularBuffer.WalkStep | hal/src/samd21/dmac/buffer/mod.rs:102-108 | one step from slot m reaches slot (m+1) mod N |
| CircularBuffer.Producer.NotifyDescriptorPartial | hal/src/samd21/dmac/buffer/mod.rs:151-166 | the result and the new `write` are those of `PartialWrite`; `write_block` and `read` are unchanged |
| CircularBuffer.PartialWrite | hal/src/samd21/dmac/buffer/mod.rs:155-164 | panics exactly when `remaining > X` or `X - remaining < write - write_block` (the u16 subtractions); otherwise `write` becomes `write_block + X - remaining` and never moves backwards |
| CircularBuffer.PartialIdempotent | hal/src/samd21/dmac/buffer/mod.rs:151-166 | repeating a partial report with the same `remaining` leaves `write` where the first one put it |
| CircularBuffer.Producer.NotifyDescriptor | hal/src/samd21/dmac/buffer/mod.rs:169-191 | `write_block` becomes the start of the next block (0 after the last) and `write` equals it |
| CircularBuffer.NextBlock | hal/src/samd21/dmac/buffer/mod.rs:174-186 | the next block start is `((write_block / X + 1) mod N) · X`, a multiple of X below N·X |
| CircularBuffer.BlocksAfterIndex | hal/src/samd21/dmac/buffer/mod.rs:169-191 | after k completions the block start is `((write_block / X + k) mod N) · X` |
| CircularBuffer.LapReturns | hal/src/samd21/dmac/buffer/mod.rs:169-191 | N completions bring `write_block` back to where it started, and no fewer do |
| CircularBuffer.Consumer.Read | hal/src/samd21/dmac/buffer/mod.rs:214-237 | the grant starts at `read` and has length `Readable(write, read, N·X)` |
| CircularBuffer.Readable | hal/src/samd21/dmac/buffer/mod.rs:224-230 | the grant is empty exactly when `write == read`; it is `[read, write)` when `write > read` and `[read, N·X)` when `write < read`; it never passes the end of the array and never exceeds the unread bytes |
| CircularBuffer.FullLapReadsEmpty | hal/src/samd21/dmac/buffer/mod.rs:169-237 | after a full lap of N completions from `write == read` the grant is empty |
| CircularBuffer.GrantR.AsSlice | hal/src/samd21/dmac/buffer/mod.rs:260-262 | the slice has the grant's length and holds the data bytes from the grant's start |
| CircularBuffer.GrantR.Release | hal/src/samd21/dmac/buffer/mod.rs:265-280 | `read` becomes `AfterRelease(read, used, len, N·X)` |
| CircularBuffer.AfterRelease | hal/src/samd21/dmac/buffer/mod.rs:269-276 | `read` advances by `min(used, len)`, becomes 0 when that reaches N·X, and stays below N·X |
| CircularBuffer.ReleaseConsumes | hal/src/samd21/dmac/buffer/mod.rs:265-280 | for every reachable `write` (up to N·X) and `write` unchanged, the next grant after releasing `used < len` bytes is the remaining `len - used`; while `write < N·X`, a release also lowers the unread count by exactly `min(used, len)` (at `write == N·X` it does not, see Findings) |
| CircularBuffer.TailThenHead | hal/src/samd21/dmac/buffer/mod.rs:224-276 | once `write < read`, the grant is the tail `[read, N·X)`; releasing it returns `read` to 0, and the next grant is `[0, write)` |
| CircularBuffer.StaleRedelivery | hal/src/samd21/dmac/buffer/mod.rs:159-164 | with `write == N·X`, releasing the grant resets `read` to 0, and the next grant is the whole array |
| CircularBuffer.RedeliveryExample | hal/src/samd21/dmac/buffer/mod.rs:155-164 | with N = 2, X = 2: a partial report of 0 on the last block puts `write` at 4; granting and releasing `[1, 4)` raises the unread count from 3 to 4, and the next grant is all 4 bytes; the corrected grant is empty there |
| CircularBuffer.WritePosition | hal/src/samd21/dmac/buffer/mod.rs:174-186 | the ring position of `write` is `write mod N·X`, below N·X; it is where `notify_descriptor` puts `write` |
| CircularBuffer.ReadableCorrected | hal/src/samd21/dmac/buffer/mod.rs:224-230 | the corrected grant: equal to `read()`'s grant while `write < N·X`; empty exactly when `write mod N·X == read`; never past the end of the array and never more than the unread bytes |
| CircularBuffer.CorrectedReleaseConsumes | hal/src/samd21/dmac/buffer/mod.rs:265-280 | with the corrected grant, for every reachable `write` including N·X, a release lowers the unread count by exactly `min(used, len)`, and a partial release leaves the rest as the next grant |
| CircularBuffer.CorrectedNoRedelivery | hal/src/samd21/dmac/buffer/mod.rs:159-164 | with the corrected grant and `write == N·X`, releasing the whole grant leaves nothing to grant |
| CircularBuffer.CursorsStayOnRing | hal/src/samd21/dmac/buffer/mod.rs:151-280 | from a valid state, a partial report keeps `write` inside the current block, a completion keeps `write_block` below N·X, and a release of a corrected grant keeps `read` below N·X; the ring position of `write` is below N·X |
| BufferSerial.Serial.constructor | hal/src/samd21/dmac/buffer/serial.rs:36-38 | the reader holds the given wrapped port and consumer |
| BufferSerial.Serial.Write | hal/src/samd21/dmac/buffer/serial.rs:52-54 | the wrapped port's `write`, with its result and effect unchanged |
| BufferSerial.Serial.Flush | hal/src/samd21/dmac/buffer/serial.rs:56-58 | the wrapped port's `flush`, with its result unchanged |
| BufferSerial.Serial.BWriteAll | hal/src/samd21/dmac/buffer/serial.rs:72-74 | the wrapped port's `bwrite_all`: returns Ok, and every byte of the buffer is written in order |
| BufferSerial.Serial.BFlush | hal/src/samd21/dmac/buffer/serial.rs:76-78 | the wrapped port's `bflush`: returns Ok with the data register empty |
| BufferSerial.Serial.Read | hal/src/samd21/dmac/buffer/serial.rs:92-105 | on an empty grant: WouldBlock, and `read` is unchanged; otherwise the data byte at the old `read`, with exactly one byte released |
| BufferSerial.ReadTakesOneByte | hal/src/samd21/dmac/buffer/serial.rs:92-105 | for every reachable `write` (up to N·X), a successful read moves `read` to `(read + 1) mod N·X`, and WouldBlock happens only when nothing is unread; while `write < N·X` a successful read also lowers the unread count by exactly one |
| Descriptors.Offset | hal/src/samd21/dmac/descriptor.rs:59-60 | `p.offset(n)` stays in p's object and never moves backwards, and `p.offset(0)` is `p` (so `src.offset(0)` is `src`) |
| Descriptors.OffsetCompose | hal/src/samd21/dmac/descriptor.rs:59-60 | `p.offset(i).offset(j) == p.offset(i + j)`, and an offset by n elements of b bytes is an offset by n·b bytes |
| Descriptors.Default | hal/src/samd21/dmac/descriptor.rs:26-34 | control word 0 (so not valid), beat count 0, and null source, destination and next addresses |
| Descriptors.MemsetU32Pattern1 | hal/src/samd21/dmac/descriptor.rs:44-63 | step size 1x on the destination, dst increments and src does not, word beats, no block action or event output, valid; `btcnt == len`; `srcaddr = src`, `dstaddr = dst + 4·len`; null next; reserved bits clear |
| Descriptors.MemsetU16Pattern1 | hal/src/samd21/dmac/descriptor.rs:66-85 | the same with half-word beats and `dstaddr = dst + 2·len` |
| Descriptors.MemsetU8Pattern1 | hal/src/samd21/dmac/descriptor.rs:88-107 | the same with byte beats and `dstaddr = dst + len` |
| Descriptors.MemcpyU8Peripheral | hal/src/samd21/dmac/descriptor.rs:110-129 | step on the source, src increments and dst does not, byte beats, valid; `btcnt == len`; `srcaddr = src + len`, `dstaddr = dst`; null next |
| Descriptors.MemcpyU8 | hal/src/samd21/dmac/descriptor.rs:132-151 | step on the source, both sides increment, byte beats, valid; `btcnt == len`; `srcaddr = src + len`, `dstaddr = dst + len`; null next |
| Btctrl.StepsizeInto | hal/src/samd21/dmac/descriptor/btctrl.rs:53-57 | the code of a step size is at most 7 |
| Btctrl.StepsizeFrom | hal/src/samd21/dmac/descriptor/btctrl.rs:59-73 | decodes exactly the codes 0..7 (others hit `unimplemented!()`) and inverts `Into` |
| Btctrl.StepsizeRoundTrip | hal/src/samd21/dmac/descriptor/btctrl.rs:53-73 | `from(into(s)) == s` |
| Btctrl.StepselCode | hal/src/samd21/dmac/descriptor/btctrl.rs:77-80 | the discriminant is 0 or 1 |
| Btctrl.StepselFrom | hal/src/samd21/dmac/descriptor/btctrl.rs:82-90 | total: StepDst exactly for 0, StepSrc for every other byte |
| Btctrl.StepselRoundTrip | hal/src/samd21/dmac/descriptor/btctrl.rs:77-90 | `from(s as u8) == s` |
| Btctrl.BeatsizeInto | hal/src/samd21/dmac/descriptor/btctrl.rs:100-104 | the code is at most 2 |
| Btctrl.BeatsizeFrom | hal/src/samd21/dmac/descriptor/btctrl.rs:106-115 | decodes exactly 0..2 and inverts `Into`; 3 and above panic |
| Btctrl.BeatsizeRoundTrip | hal/src/samd21/dmac/descriptor/btctrl.rs:100-115 | `from(into(b)) == b` |
| Btctrl.BeatBytes | hal/src/samd21/dmac/descriptor/btctrl.rs:94-98 | a beat is 1, 2 or 4 bytes |
| Btctrl.BlockActionInto | hal/src/samd21/dmac/descriptor/btctrl.rs:126-130 | the code is at most 3 |
| Btctrl.BlockActionFrom | hal/src/samd21/dmac/descriptor/btctrl.rs:132-142 | decodes exactly 0..3 and inverts `Into` |
| Btctrl.BlockActionRoundTrip | hal/src/samd21/dmac/descriptor/btctrl.rs:126-142 | `from(into(a)) == a` |
| Btctrl.EventOutputActionInto | hal/src/samd21/dmac/descriptor/btctrl.rs:152-156 | the codes are 0, 1 and 3 |
| Btctrl.EventOutputActionFrom | hal/src/samd21/dmac/descriptor/btctrl.rs:158-166 | decodes exactly 0, 1 and 3 (2 is rejected) and inverts `Into` |
| Btctrl.EventOutputActionRoundTrip | hal/src/samd21/dmac/descriptor/btctrl.rs:152-166 | `from(into(e)) == e` |
| Btctrl.StepsizeOf | hal/src/samd21/dmac/descriptor/btctrl.rs:18 | reading the 3-bit step size never panics |
| Btctrl.BeatsizeOf | hal/src/samd21/dmac/descriptor/btctrl.rs:22 | reading the beat size panics exactly when bits 9..8 are `0b11` |
| Btctrl.StepselOf | hal/src/samd21/dmac/descriptor/btctrl.rs:29-32 | the hand-written getter is StepSrc exactly when bit 12 is set |
| Btctrl.DstincOf | hal/src/samd21/dmac/descriptor/btctrl.rs:20 | true exactly when bit 11 is set |
| Btctrl.SrcincOf | hal/src/samd21/dmac/descriptor/btctrl.rs:21 | true exactly when bit 10 is set |
| Btctrl.ValidOf | hal/src/samd21/dmac/descriptor/btctrl.rs:25 | true exactly when bit 0 is set |
| Btctrl.BlockactOf | hal/src/samd21/dmac/descriptor/btctrl.rs:23 | reading the block action never panics |
| Btctrl.EvoselOf | hal/src/samd21/dmac/descriptor/btctrl.rs:24 | reading the event output selection panics exactly when bits 2..1 are `0b10` |
| Btctrl.WithStepsize | hal/src/samd21/dmac/descriptor/btctrl.rs:18 | `set_stepsize` writes bits 15..13: the getter reads back the value set, and every other bit is unchanged |
| Btctrl.WithStepsel | hal/src/samd21/dmac/descriptor/btctrl.rs:35-37 | `set_stepsel` writes bit 12: the getter reads back the value set, and every other bit is unchanged |
| Btctrl.WithDstinc | hal/src/samd21/dmac/descriptor/btctrl.rs:20 | `set_dstinc` writes bit 11: the getter reads back the value set, and every other bit is unchanged |
| Btctrl.WithSrcinc | hal/src/samd21/dmac/descriptor/btctrl.rs:21 | `set_srcinc` writes bit 10: the getter reads back the value set, and every other bit is unchanged |
| Btctrl.WithBeatsize | hal/src/samd21/dmac/descriptor/btctrl.rs:22 | `set_beatsize` writes bits 9..8: the getter reads back the value set, and every other bit is unchanged |
| Btctrl.WithBlockact | hal/src/samd21/dmac/descriptor/btctrl.rs:23 | `set_blockact` writes bits 4..3: the getter reads back the value set, and every other bit is unchanged |
| Btctrl.WithEvosel | hal/src/samd21/dmac/descriptor/btctrl.rs:24 | `set_evosel` writes bits 2..1: the getter reads back the value set, and every other bit is unchanged |
| Btctrl.WithValid | hal/src/samd21/dmac/descriptor/btctrl.rs:25 | `set_valid` writes bit 0: the getter reads back the value set, and every other bit is unchanged |
| Btctrl.FieldsPartitionWord | hal/src/samd21/dmac/descriptor/btctrl.rs:16-26 | the eight fields and the reserved bits 7..5 are disjoint and cover the word |
| Btctrl.Encode | hal/src/samd21/dmac/descriptor.rs:46-57 | the builders' setter sequence on `Btctrl(0)` equals the word with each field's code shifted to its bit position |
| Btctrl.Decode | hal/src/samd21/dmac/descriptor/btctrl.rs:16-37 | reading all fields panics exactly when bits 9..8 are `0b11` or bits 2..1 are `0b10` |
| Btctrl.DecodeEncode | hal/src/samd21/dmac/descriptor/btctrl.rs:16-37 | reading back a word built by the setters gives every field that was set, and the reserved bits are clear |
| Btctrl.EncodeDecode | hal/src/samd21/dmac/descriptor/btctrl.rs:16-37 | a readable word with clear reserved bits is rebuilt exactly by setting its own fields into a zero word |
| Btctrl.DecodedCodes | hal/src/samd21/dmac/descriptor/btctrl.rs:16-37 | each field read converts back to the bits it was read from |
| Btctrl.Reassemble | hal/src/samd21/dmac/descriptor/btctrl.rs:16-37 | writing each field's own bits into a zero word gives the word without its reserved bits |
| Btctrl.Word.constructor | hal/src/samd21/dmac/descriptor/btctrl.rs:9 | `Btctrl(bits)` holds `bits` |
| Btctrl.Word.SetStepsize | hal/src/samd21/dmac/descriptor/btctrl.rs:18 | the in-place setter leaves `WithStepsize` of the old word: it replaces bits 15..13 and no other bit |
| Btctrl.Word.SetStepsel | hal/src/samd21/dmac/descriptor/btctrl.rs:35-37 | the hand-written setter leaves `WithStepsel` of the old word: bit 12 holds the selector's discriminant and no other bit changes |
| Btctrl.Word.SetDstinc | hal/src/samd21/dmac/descriptor/btctrl.rs:20 | the in-place setter leaves `WithDstinc` of the old word: it replaces bit 11 and no other bit |
| Btctrl.Word.SetSrcinc | hal/src/samd21/dmac/descriptor/btctrl.rs:21 | the in-place setter leaves `WithSrcinc` of the old word: it replaces bit 10 and no other bit |
| Btctrl.Word.SetBeatsize | hal/src/samd21/dmac/descriptor/btctrl.rs:22 | the in-place setter leaves `WithBeatsize` of the old word: it replaces bits 9..8 and no other bit |
| Btctrl.Word.SetBlockact | hal/src/samd21/dmac/descriptor/btctrl.rs:23 | the in-place setter leaves `WithBlockact` of the old word: it replaces bits 4..3 and no other bit |
| Btctrl.Word.SetEvosel | hal/src/samd21/dmac/descriptor/btctrl.rs:24 | the in-place setter leaves `WithEvosel` of the old word: it replaces bits 2..1 and no other bit |
| Btctrl.Word.SetValid | hal/src/samd21/dmac/descriptor/btctrl.rs:25 | the in-place setter leaves `WithValid` of the old word: it replaces bit 0 and no other bit |
| Btctrl.BuildControl | hal/src/samd21/dmac/descriptor.rs:46-57 | the builders' `let mut btctrl` block yields a word that reads back as exactly the requested fields, with the reserved bits clear |
| Dmac.DescriptorTables.constructor | hal/src/samd21/dmac/mod.rs:16-17 | both tables have 12 slots, each `default()` |
| Dmac.BaseSlot | hal/src/samd21/dmac/mod.rs:16 | a channel's base slot lies on a 16-byte boundary of the base table, inside its 12 slots, and is the slot numbered by the channel |
| Dmac.BaseSlotsDistinct | hal/src/samd21/dmac/mod.rs:16 | two channels share a base slot exactly when they are the same channel |
| Dmac.Dmac.ConfigureChannel | hal/src/samd21/dmac/mod.rs:71-118 | always selects the channel; panics exactly when events are requested on a channel without them, writing no other register; otherwise programs CHCTRLB (level 0, the trigger source code, the action, and the event bits), enables the channel and enables exactly the requested interrupt sources, touching no other channel |
| Dmac.Dmac.EnableInterrupts | hal/src/samd21/dmac/mod.rs:104-118 | sets the requested sources on the channel and leaves the others enabled as they were (write-one-to-set) |
| Dmac.Dmac.Trigger | hal/src/samd21/dmac/mod.rs:121-137 | SWTRIGCTRL has exactly the channel's bit set |
| Dmac.Dmac.Interrupt | hal/src/samd21/dmac/mod.rs:141-171 | every channel 0..11 whose INTSTATUS bit is set has all its flags cleared, and every other channel's flags are unchanged; CHID ends at the highest pending channel; a mask with bits 0..11 clear changes nothing |
| Dmac.Dmac.AcknowledgeChannel | hal/src/samd21/dmac/mod.rs:151-169 | selects the channel and writes back exactly the flags read, clearing them (write-one-to-clear) and no other channel's |
| Dmac.Dmac.DispatchChannel | hal/src/samd21/dmac/mod.rs:146-170 | one loop iteration: a clear bit is skipped, and a set bit is selected and acknowledged |
| Dmac.HighestPending | hal/src/samd21/dmac/mod.rs:146-155 | the highest channel below k with its bit set, if any, and no set bit above it |
| Dmac.SelectsHighest | hal/src/samd21/dmac/mod.rs:146-155 | CHID after the loop is the highest pending channel, or unchanged when none is pending |
| Dmac.SelectsSkip | hal/src/samd21/dmac/mod.rs:148-150 | a channel whose bit is clear does not change the selection |
| Dmac.SelectsTake | hal/src/samd21/dmac/mod.rs:152-154 | a channel whose bit is set becomes the selection |
| Dmac.ShiftIsBit | hal/src/samd21/dmac/mod.rs:147 | `1 << i` is the single-bit mask of bit i |
| Dmac.HighBitsIgnored | hal/src/samd21/dmac/mod.rs:146-148 | bits 12..15 of the pending mask do not affect which channels are acknowledged or which one is selected |
| Dmac.LowBitIgnoresHigh | hal/src/samd21/dmac/mod.rs:147-148 | the test of bit i < 12 only examines bits 0..11 |
| Dmac.NoneBelowTwelve | hal/src/samd21/dmac/mod.rs:141-144 | a mask with bits 0..11 clear has no pending channel |
| Channels.Index | hal/src/samd21/dmac/channel.rs:8-21 | the discriminant is below 12 |
| Channels.ChannelAt | hal/src/samd21/dmac/channel.rs:8-21 | the channel with discriminant i |
| Channels.IndexBijective | hal/src/samd21/dmac/channel.rs:8-21 | the discriminants are exactly 0..11, one per channel |
| Channels.EventGenerator | hal/src/samd21/dmac/channel.rs:24-32 | returns exactly for channels 0..3, with the generator of the same index; the others panic |
| Channels.EventUser | hal/src/samd21/dmac/channel.rs:34-42 | returns exactly for channels 0..3, with the user of the same index; the others panic |
| Channels.EventIdentitiesAgree | hal/src/samd21/dmac/channel.rs:24-42 | generator and user have the same domain and the same index |
| Channels.TriggerCode | hal/src/samd21/dmac/channel.rs:47-76 | every trigger source code fits the 6-bit TRIGSRC field |
| Channels.SercomTriggerCodes | hal/src/samd21/dmac/channel.rs:51-67 | SERCOMn RX is `2n + 1` and TX is `2n + 2` for n in 0..5 |
| Channels.TriggerCodesDistinct | hal/src/samd21/dmac/channel.rs:47-76 | the codes are distinct and each decodes back to its source (Software 0, Tc3Ovf 0x18, Tc4Ovf 0x1B, AdcResultReady 0x27) |
| Timer.NextPowerOfTwo | hal/src/samd21/timer.rs:194 | the least power of two at least v |
| Timer.PowerOfTwoFrom | hal/src/samd21/timer.rs:194 | the least power of two at least v, searched upward from p |
| Timer.Divider | hal/src/samd21/timer.rs:195-205 | always a prescaler setting in {1, 2, 4, 8, 16, 64, 256, 1024}, and 1024 above 1024 |
| Timer.DividerRoundsUp | hal/src/samd21/timer.rs:195-205 | a power of two up to 1024 becomes the least setting at or above it, so 32, 128 and 512 become 64, 256 and 1024 |
| Timer.Ticks | hal/src/samd21/timer.rs:193 | `src_freq / max(timeout, 1)`: a timeout of 0 Hz counts as 1 Hz, and ticks never exceed `src_freq` |
| Timer.DividerFor | hal/src/samd21/timer.rs:194-205 | a prescaler setting that exceeds `ticks >> 16` whenever `(ticks >> 16) + 1 <= 1024` |
| Timer.New | hal/src/samd21/timer.rs:188-220 | panics exactly when `ticks / divider > 65535`; otherwise the divider is a prescaler setting and `cycles == ticks / divider` |
| Timer.NoPanicWithinRange | hal/src/samd21/timer.rs:194-214 | when `(ticks >> 16) + 1 <= 1024` the panic cannot happen |
| Timer.PowerOfTwoAtMost | hal/src/samd21/timer.rs:194 | the next power of two of a value at most 1024 is at most 1024 |
| Timer.QuotientBelow | hal/src/samd21/timer.rs:207-209 | a divider above `ticks >> 16` leaves at most 65535 cycles |
| Reset.FromRcause | hal/src/samd21/mod.rs:42-53 | total; a known cause exactly for 1, 2, 4, 16, 32 and 64 (POR, BOD12, BOD33, External, Watchdog, System), with the cause's bit equal to the code, and Unknown for every other byte |
| Reset.CausesDistinct | hal/src/samd21/mod.rs:44-50 | the six recognised codes decode to six distinct causes |
| Eic.ConfigBlock | hal/src/samd21/eic/pin.rs:82 | `(num >> 3) & 1` is 0 or 1, and 0 exactly for lines 0..7 |
| Eic.ConfigSlot | hal/src/samd21/eic/pin.rs:87 | `num & 0b111` is in 0..7 |
| Eic.BlockSlotSplit | hal/src/samd21/eic/pin.rs:82-87 | for num < 16, `block · 8 + slot == num` |
| Eic.Sense | hal/src/samd21/eic/pin.rs:80-99 | never reaches `unimplemented!()`, and changes only SENSE of entry (block, slot) |
| Eic.Filter | hal/src/samd21/eic/pin.rs:101-120 | never reaches `unimplemented!()`, and changes only FILTEN of entry (block, slot) |
| Eic.SenseFilterSameEntry | hal/src/samd21/eic/pin.rs:80-120 | `sense` and `filter` of one line use the same entry, and different lines 0..15 use different entries |
| Eic.PortAPins | hal/src/samd21/eic/pin.rs:138-257 | the port A pins of a line are below 32, never PA08, PA26 or PA29, and lines 16 and above have none |
| Eic.PortBPins | hal/src/samd21/eic/pin.rs:138-257 | the port B pins of a line are PB00-PB15, PB16, PB17, PB22, PB23, PB30 or PB31, and lines 16 and above have none |
| Eic.Accepts | hal/src/samd21/eic/pin.rs:138-257 | an accepting line is one of 0..15, the pin is below 32, and a port B pin is accepted only on packages with port B |
| Eic.AcceptsExactlyWired | hal/src/samd21/eic/pin.rs:138-257 | a line accepts a pin exactly when the pin is wired to that line (for example ExtInt[8] accepts Pa28 and, with port B, Pb8) |
| Eic.OneLinePerPin | hal/src/samd21/eic/pin.rs:138-257 | no pin is accepted by two lines |
| Eic.PortBOnlyAdds | hal/src/samd21/eic/pin.rs:138-257 | without port B only port A pins are accepted, and enabling port B removes none |
| Uart.BaudFracMode | hal/src/sercom/uart.rs:171-182 | panics exactly on a u32 overflow of `fref · 8` or `16 · freq`, or `freq == 0`; otherwise `fp = baud8x % 8 < 8`, `baud = (baud8x / 8) mod 2^16`, and `baud · 8 + fp == baud8x` when the truncation loses nothing |
| Uart.Split | hal/src/sercom/uart.rs:176-182 | splits `baud8x` into eighths and the 16-bit integer part |
| Uart.PadIndex | hal/src/sercom/uart.rs:95-104 | a pad's number is below 4 |
| Uart.RxpoTxpo2 | hal/src/sercom/uart.rs:95-104 | a two-pad mapping that exists has RXPO equal to its RX pad's number, TXPO 0 or 1, and different RX and TX pads |
| Uart.RxpoTxpo4 | hal/src/sercom/uart.rs:98 | the one four-pad mapping has RXPO equal to its RX pad's number and TXPO 2, with RTS on pad 2 and CTS on pad 3 |
| Uart.PadoutCodesAgree | hal/src/sercom/uart.rs:95-104 | every constructible mapping has RXPO equal to its RX pad's number, a TXPO naming its TX pad, and different RX and TX pads; the only four-pad mapping (Pad1, Pad0, Pad2, Pad3) has TXPO 2 |
| Uart.PadoutCodesDistinct | hal/src/sercom/uart.rs:95-104 | two two-pad mappings with the same codes are the same mapping |
| Uart.Uart.Write | hal/src/sercom/uart.rs:267-279 | WouldBlock, writing nothing, when DRE is clear; otherwise the byte is written to DATA |
| Uart.Uart.Flush | hal/src/sercom/uart.rs:281-288 | Ok exactly when DRE is set |
| Uart.Uart.Read | hal/src/sercom/uart.rs:294-303 | WouldBlock when RXC is clear; otherwise the low byte of DATA |
| Uart.Uart.BWriteAll | hal/src/sercom/uart.rs:306 | the default blocking `bwrite_all`: writes every byte in order, and returns Ok |
| Uart.Uart.BFlush | hal/src/sercom/uart.rs:306 | the default blocking `bflush`: returns Ok once DRE is set |
| Uart.Uart.AwaitDataRegisterEmpty | hal/src/sercom/uart.rs:259-261 | after the wait, DRE is set |

## Findings

| source | as written | input that shows it | evidently intended | confidence | as-written member | corrected member |
|---|---|---|---|---|---|---|
| hal/src/samd21/dmac/buffer/mod.rs:159-164 | a partial report sets `write` to `write_block + X - remaining`, which is N·X on the last block with 0 remaining; `read()` (224-230) compares this unwrapped `write` with `read` | N = 2, X = 2: `write_block = write = 2`, `read = 1`, `notify_descriptor_partial(0)` gives `write = 4`; the grant `[1, 4)` is released, `read` becomes 0, and the next grant is `[0, 4)`, 4 bytes none of which is new | the end of the array is the same ring position as its start, where `notify_descriptor` moves `write`: the grant after the release is empty, and every cursor compared lies in `[0, N·X)` | medium; not executed | CircularBuffer.StaleRedelivery, CircularBuffer.RedeliveryExample | CircularBuffer.ReadableCorrected, CircularBuffer.CorrectedReleaseConsumes, CircularBuffer.CorrectedNoRedelivery |

The methods `Consumer.Read` and `Serial.Read` model `read()` as written. The
corrected grant measures from `WritePosition(write)`, which equals `write` except
at N·X. With it, `CorrectedReleaseConsumes` holds for every reachable `write`,
where the as-written `ReleaseConsumes` loses its unread-count clause at N·X.

## Left out

- Volatile accesses and preemption by the interrupt handler. Producer and consumer operations are atomic steps on plain fields; lemmas relate their sequences freely.
- The DMA engine itself: walking the descriptors, moving bytes and writeback snapshots. Its completion reports are the inputs `NotifyDescriptor` and `NotifyDescriptorPartial`, and the data array is never written by the model.
- Real addresses, their 32-bit width, `MaybeUninit` and the 16-byte alignment. A pointer is an object and a byte offset, and every buffer's descriptors form one region.
- `CircularBuffer.Buffer.constructor`: the uninitialised backing store and descriptors start as zero bytes and `default()` descriptors.
- `CircularBuffer.Buffer.Configure`: the closure `f` is a pure function, and the arguments of its calls are a ghost trace. A closure with side effects is not modelled.
- `CircularBuffer.Buffer.Configure`: the unused `_dmac` argument is left out. X is assumed to fit u16 (`X::to_u16()`), with `1 <= X <= 65535`.
- Release-mode wrap-around of the cursor arithmetic and of the baud arithmetic (`fref * 8` and `16 * freq` in `Uart.BaudFracMode`). An overflow is modelled as the debug-build panic.
- `DMAC::init`, register bring-up sequences and busy-wait sync polls. This includes the body of the UART `new` apart from its baud arithmetic, and `TimerCounter::start_`.
- `Uart.Uart.AwaitDataRegisterEmpty`: the busy wait of the default blocking writes is abstracted as one step after which DRE is set.
- The generic `S` wrapped by `Serial` is the `Uart` class. Other implementers of the serial traits are not modelled.
- `adc.rs`, `rtc.rs`, `timeout.rs` and `event_counter.rs` are not part of this model: they only configure registers.
- The generated register accessors under `pac/` are not part of this model. Their mask-and-shift idea is the one modelled in `Btctrl`.
- `reset_cause` reading RCAUSE, the EIC register `modify` calls and the interrupt enable/flag helpers around them. Only the pure mappings are modelled.
- Dmac.Dmac.ConfigureChannel: TRIGACT and EVACT are register codes (`nat`), and the generated `TRIGACT_A`/`EVACT_A` enumerations are not modelled.
- Eic.Sense: the `Sense` enumeration is its `u8` register code.
- Dmac.Dmac.Interrupt: the sequence of CHID writes is not recorded. Only the final CHID and each channel's acknowledged flags are stated.
