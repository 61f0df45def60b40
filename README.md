# OpenTherm master driver — a verified model

This project models the master side of the OpenTherm boiler-control driver,
`OpenTherm.cpp`. It covers four parts.

- **Frame codec** (`frame.dfy`, module `Frame`).
  - `communicate` packs `type<<28 + id<<16 + data` into a 32-bit word.
  - It then sets bit 31 so that the frame has even parity.
  - `complete` unpacks data, id and type again.
  - `OT_to_float` and `float_to_OT` convert between Data-Values and numbers. Numbers are modelled as `real`.
  - The frame layout and message types are those of the OpenTherm Protocol Specification v2.2, data-link layer chapter.
- **Transceiver session** (`transceiver.dfy`, module `Transceiver`).
  - The session holds the shift register `buf`, the bit counter `length`, the running `parity`, and the flags `rx`, `first` and `data_ready`. It also holds the level driven on the transmit line.
  - `receive`, `send`, `abort` and the three interrupt handlers are written as step functions on a `Session` value.
  - The level sampled on the receive line is a parameter of the compare-A step.
  - Lemmas follow a whole frame through 33 transmit periods and through 33 receive periods.
- **Poll decision** (`conversation.dfy`, module `Conversation`).
  - `complete` decides between error-and-abort, pending and ready.
  - The decision depends on the session, the parity and the elapsed time `millis() - ts`, which is taken in 32-bit arithmetic.
- **Data-ID walk** (`walk.dfy`, module `Walk`).
  - `update(next)` stores the answer in the device fields, unless its type has the error bit.
  - It then moves the walk state to the next Data-ID and builds the next request.
  - A target Data-ID from the caller overrides the walk.
- **The driver object** (`driver.dfy`, module `Driver`).
  - `class OpenTherm` holds the session fields, `ts`, `state` and the device fields, and updates them in place.
  - Each handler and each of `receive`, `send`, `abort`, `communicate`, `complete` and `update` is a method.
  - Each method is proved against the step functions above. `Driver.Step` states, as a value, what one call of `update(next)` does.

The C integer types are bit-vectors: `uint32_t` is `bv32`, `uint16_t` is `bv16` and `uint8_t` is `bv8`. So the shifts, `length++` and `millis() - ts` wrap exactly as in C. The millisecond clock is the parameter `now`. The level read from the receive pin is the parameter `sample`.

After a time-out or a corrupt frame the code does not re-issue the same request. It forces the type to 2 and leaves the id at 0, so the id-0 branch of `switch(id)` runs. The next untargeted request is therefore for Data-ID 5 or 17, chosen by the status byte (`Driver.TimeOutUpdate`).

## Model

| member | source | states |
|---|---|---|
| Frame.ErrorTypes | OpenTherm.cpp:290 | A three-bit type has bit 1 set exactly for INVALID-DATA, reserved, DATA-INVALID and UNKNOWN-DATAID (2, 3, 6, 7); the field writes happen for 0, 1, 4, 5 |
| Frame.PopCountParity | OpenTherm.cpp:230-232 | The exclusive-or of the low n bits is true exactly when they hold an odd number of one-bits |
| Frame.ParityTop | OpenTherm.cpp:244 | A frame has even parity iff its bit 31 equals the exclusive-or of bits 0..30, which is the test `complete` applies |
| Frame.ComposeTopBitClear | OpenTherm.cpp:229 | For a type of at most 7 the packed word leaves bit 31 clear |
| Frame.WithParityBits | OpenTherm.cpp:230-233 | Setting the parity bit keeps bits 0..30, makes bit 31 the exclusive-or of bits 0..30, and yields an even-parity word |
| Frame.EncodeParity | OpenTherm.cpp:229-234 | The frame `communicate` builds keeps the packed bits 0..30, carries their exclusive-or in bit 31, and has an even number of one-bits |
| Frame.EncodeSpareZero | OpenTherm.cpp:229-234 | Bits 24..27 of every frame `communicate` builds are zero |
| Frame.DecodeEncode | OpenTherm.cpp:229-255 | Unpacking a frame packed from type (at most 7), id and data gives the same triple back |
| Frame.EvenParityRebuilt | OpenTherm.cpp:230-233 | Clearing bit 31 of an even-parity frame and recomputing the parity bit gives the frame back |
| Frame.EncodeDecode | OpenTherm.cpp:229-255 | Every even-parity frame with zero spare bits is the encoding of its own unpacked type, id and data |
| Frame.Compose | OpenTherm.cpp:229 | Definition: `type<<28 + id<<16 + data` in 32-bit arithmetic; its properties are in `ComposeTopBitClear` and `EncodeParity` |
| Frame.WithParity | OpenTherm.cpp:230-233 | Definition: bit 31 set when the exclusive-or of bits 0..30 is true; its properties are in `WithParityBits` |
| Frame.Encode | OpenTherm.cpp:229-234 | Definition: the frame `communicate` stores in `buf`; its properties are in `EncodeParity`, `EncodeSpareZero` and `DecodeEncode` |
| Frame.Decode | OpenTherm.cpp:251-255 | Definition: data from bits 0..15, id from bits 16..23, type from bits 28..30; its properties are in `DecodeEncode` and `EncodeDecode` |
| Frame.ToReal | OpenTherm.cpp:197-199 | Definition: `OT_to_float`, the unsigned word divided by 256; its property is in `FromRealToReal` |
| Frame.FromReal | OpenTherm.cpp:201-203 | Definition: `float_to_OT`, the truncated integer part shifted by 8 plus the truncated fraction times 256; its properties are in `FromRealToReal` and `FromRealTruncates` |
| Frame.FixedWord | OpenTherm.cpp:201-203 | Definition of the integer value of `float_to_OT`'s word. Its range contract only makes the `uint16_t` conversion well defined; the content is in `FromRealToReal` and `FromRealTruncates` |
| Frame.Join | OpenTherm.cpp:202 | Definition of `(uint16_t)whole << 8` plus `(uint8_t)frac` in 16-bit arithmetic. Its range contract only makes the conversion well defined; `JoinInRange` gives its value for in-range parts |
| Frame.FromRealToReal | OpenTherm.cpp:197-203 | Converting any Data-Value to a number and back gives the Data-Value again |
| Frame.FromRealTruncates | OpenTherm.cpp:201-203 | For numbers in [0, 256) the conversion truncates to the next lower multiple of 1/256 |
| Transceiver.Receive | OpenTherm.cpp:4-11 | Definition: `receive()` sets `first` and `rx` and clears `buf`, `data_ready`, `length` and `parity`; used by `ReceiveBits` and `ReceiveFrame` |
| Transceiver.Send | OpenTherm.cpp:206-222 | Definition: `send()` clears `rx`, `length` and `data_ready`, sets `first` and drives the line high; used by `TransmitBits` and `TransmitFrame` |
| Transceiver.Abort | OpenTherm.cpp:183-196 | Definition: `abort()` drives the line low and clears `data_ready`, `rx`, `length` and `buf`; its effect is stated in `Conversation.TimeOutAborts` |
| Transceiver.RxRun | OpenTherm.cpp:47-110 | Definition: j+1 receive bit periods, each an edge then a compare-A sample; its invariant is `ReceiveBits` |
| Transceiver.TxRun | OpenTherm.cpp:85-131 | Definition: k transmit bit periods, each a compare-B toggle then a compare-A shift; its invariant is `TransmitBits` |
| Transceiver.ExtInt | OpenTherm.cpp:47-65 | The edge handler clears `first`, and sets `data_ready` and returns true exactly when `length > MSG_LENGTH`; nothing else changes |
| Transceiver.CompA | OpenTherm.cpp:85-115 | Compare-A adds one to `length` and keeps `rx` and `data_ready`. Receiving, it keeps `first` and the line. Transmitting, it drives bit 31 of `buf`, keeps the parity and clears `first` |
| Transceiver.CompB | OpenTherm.cpp:122-131 | Compare-B inverts the transmit line and is receiving afterwards exactly when it was before or `length > MSG_LENGTH` |
| Transceiver.ParityFlagXor | OpenTherm.cpp:104 | Toggling the 0/1 parity byte by a bit is the exclusive-or of the flags |
| Transceiver.TopFrame | OpenTherm.cpp:95-103 | The register after the start bit and 32 samples holds exactly the 32 samples, the first at the top |
| Transceiver.ReceiveBits | OpenTherm.cpp:95-110 | After `receive()` and j+1 sample periods, `length` is j+1, the received bits sit at the top of `buf`, and `parity` is the exclusive-or of all but the first two samples |
| Transceiver.ReceiveFrame | OpenTherm.cpp:47-110 | A start bit and the 32 bits of a frame, then the stop-bit edge, leave `data_ready` set, `length` 33, the frame in `buf`, and the exclusive-or of bits 0..30 in `parity` |
| Transceiver.TransmitBits | OpenTherm.cpp:88-110 | After `send()` and k transmit periods, `buf` is the frame shifted by k with the stop bit behind it, `length` is k, and the line carries frame bit 32-k (the stop bit at k = 33) |
| Transceiver.TransmitFrame | OpenTherm.cpp:85-131 | The start bit is high then low. The 33 compare-A calls drive frame bits 31..0 and then the stop bit, and compare-B inverts each. After the stop bit the session is freshly receiving with the line low |
| Transceiver.Loopback | OpenTherm.cpp:88-110 | The levels a transmitter drives for an even-parity frame are the samples from which a receiver rebuilds it, with `parity` equal to bit 31 |
| Conversation.Elapsed | OpenTherm.cpp:240 | Definition: `millis() - ts` in 32-bit unsigned arithmetic |
| Conversation.BadFrame | OpenTherm.cpp:244 | Definition: a complete frame whose bit 31 differs from the accumulated parity |
| Conversation.TimedOut | OpenTherm.cpp:244 | Definition: no complete frame and more than 1200 ms elapsed |
| Conversation.Failed | OpenTherm.cpp:244 | Definition: the error test of `complete`, a bad frame or a time-out; `Complete` states the error result exactly when it holds |
| Conversation.Complete | OpenTherm.cpp:239-259 | Error exactly on a bad frame or a time-out, and then the session is aborted. Otherwise the session is unchanged. Ready exactly when receiving, ready, parity good and at least 1000 ms elapsed, and then the message is the unpacked `buf` |
| Conversation.WaitingIsPending | OpenTherm.cpp:244-249 | With no frame and at most 1200 ms elapsed the poll is pending and changes nothing |
| Conversation.EarlyAnswerHeld | OpenTherm.cpp:249 | A good frame polled before 1000 ms is held back as pending |
| Conversation.TimeOutAborts | OpenTherm.cpp:183-196 | With no frame after 1200 ms the poll fails. The abort clears `data_ready`, `rx`, `length` and `buf`, drives the line low, and leaves `parity` and `first` alone |
| Conversation.ReceiveEncoded | OpenTherm.cpp:244-257 | A frame `communicate` would build, received bit by bit and polled at 1000 ms or later, is reported ready with the original type, id and data |
| Conversation.ReceiveCorrupt | OpenTherm.cpp:244-246 | A received frame with odd parity always makes the poll fail and abort |
| Walk.Store | OpenTherm.cpp:288-431 | Definition: the field writes of `switch(id)` for each Data-ID; its properties are in `BytePairsReassemble`, `SetpointEcho` and `UnknownIdIgnored` |
| Walk.NextState | OpenTherm.cpp:288-431 | Definition: the `state` assignments of `switch(id)`; its properties are in `DefaultChain`, `ReturnToHead`, `BootstrapToConfig`, `SensorCycle`, `CounterCycle` and `UnknownKeepsState` |
| Walk.NextType | OpenTherm.cpp:288-431 | Definition: the `type` assignments of `switch(id)`; used by `KnownIdSettles` and `CarriedThrough` |
| Walk.NextData | OpenTherm.cpp:288-431 | Definition: the `data` assignments of `switch(id)`; used by `CarriedOver` and `CarriedThrough` |
| Walk.Respond | OpenTherm.cpp:288-431 | `switch(id)` as the driver has it, used by the driver object. An answer with the error bit in its type writes no device field |
| Walk.RespondCorrected | OpenTherm.cpp:324-328 | `switch(id)` with the type after Data-ID 17 reset to READ-DATA (see Findings). It writes the same fields and chooses the same state and value as `Respond`, and the same type for every other Data-ID |
| Walk.FlagsWord | OpenTherm.cpp:439 | Definition: the DHW enable in bit 9 and the CH enable in bit 8, as line 439 builds them; its bits are stated in `StatusRequest` |
| Walk.Target | OpenTherm.cpp:433 | Definition: an untargeted update at the head of the chain targets Data-ID 0 |
| Walk.Request | OpenTherm.cpp:433-467 | Definition: `switch(next)` and the `communicate` call; its properties are in `StatusRequest`, `RequestId`, `TargetRequests` and `RequestCarries` |
| Walk.DefaultChain | OpenTherm.cpp:289-346 | 0 goes to 5 when status bit 0 is set, else to 17. 17 goes to 25 when status bit 1 is set, else to 26. 5, 25 and 26 go back to 0 |
| Walk.ReturnToHead | OpenTherm.cpp:297-374 | Data-IDs 1, 2, 3, 5, 14, 25, 26, 56 and 57 send the walk back to 0, whatever the status |
| Walk.BootstrapToConfig | OpenTherm.cpp:423-428 | After the slave version (125) the walk asks for Data-ID 3 |
| Walk.SensorCycle | OpenTherm.cpp:317-365 | 15 → 48 → 49 → 18 → 19 → 28 → 15, whatever the status |
| Walk.CounterCycle | OpenTherm.cpp:375-419 | 116 → 117 → … → 123 → 116 |
| Walk.UnknownKeepsState | OpenTherm.cpp:288-431 | A Data-ID without a case leaves the state where it was |
| Walk.SuccessorOnlyByStatus | OpenTherm.cpp:288-431 | The next state depends on the answer only through its Data-ID and the stored status byte |
| Walk.UnknownIdIgnored | OpenTherm.cpp:288-431 | An answer for a Data-ID without a case writes no field, keeps the state, and carries its type and value |
| Walk.BytePairsReassemble | OpenTherm.cpp:301-365 | The two bytes stored for Data-IDs 3, 15, 48 and 49 are the low and high byte of the value and together give it back |
| Walk.FailureReply | OpenTherm.cpp:281-295 | After a transport error no field changes and the walk goes to 5 when status bit 0 is set, else to 17, with type and value 0 |
| Walk.StatusRequest | OpenTherm.cpp:433-467 | Untargeted at the head of the chain, the request is READ-DATA for Data-ID 0 with CH enable in bit 8 and DHW enable in bit 9 of the value, and the low byte zero |
| Walk.RequestId | OpenTherm.cpp:433-467 | The id sent is the walk state without a target and the target otherwise; the state is kept except that a target 0 resets it |
| Walk.TargetRequests | OpenTherm.cpp:441-464 | Target 14 writes the maximum modulation in the high byte. Targets 18 and 116 read with value 0. Targets 1, 56 and 57 write the converted setpoints |
| Walk.SetpointEcho | OpenTherm.cpp:367-460 | A setpoint read back (Data-ID 56 or 57) and then written with a target goes out with exactly the value read |
| Walk.CarriedOver | OpenTherm.cpp:324-334 | After Data-ID 17 a target that `switch(next)` leaves alone carries the answer's type with value 0. After 18 it is READ-DATA carrying the answer's value |
| Walk.CarriedThrough | OpenTherm.cpp:297-467 | After Data-IDs 1, 2, 5, 25, 26, 56 and 57, such a target carries the answer's type and value |
| Walk.ModulationTypeEcho | OpenTherm.cpp:324-328 | As written, after an answer to Data-ID 17 the next request, for 25 or 26, has the answer's own type |
| Walk.ModulationReadAck | OpenTherm.cpp:324-328 | As written, status 0x02 and the answer READ-ACK(17, 0x3200) make the master send READ-ACK for Data-ID 25 |
| Walk.WalkRequestsRead | OpenTherm.cpp:288-467 | With `RespondCorrected`, every untargeted request after an answer to a Data-ID with a case, or after a transport error, is READ-DATA |
| Walk.KnownIdSettles | OpenTherm.cpp:288-431 | Every Data-ID with a case except 17 either returns the walk to 0 or resets the type |
| Walk.RequestCarries | OpenTherm.cpp:435-467 | A target that `switch(next)` does not rebuild takes the carried type and value, and the state is kept |
| Walk.RequestTypeValid | OpenTherm.cpp:433-467 | If the answer's type fits in three bits, so does the type of every request built from it |
| Driver.Advance | OpenTherm.cpp:288-467 | Definition: store the answer, move the walk and send the next request, all with `switch(id)` as written |
| Driver.Step | OpenTherm.cpp:264-468 | Definition: one `update(next)` call, as a value; its properties are in `FirstUpdate`, `WaitingUpdate`, `UpdateSends`, `TimeOutUpdate`, `AnswerUpdate`, `CorruptUpdate` and `ModulationEchoUpdate` |
| Driver.Communicated | OpenTherm.cpp:226-237 | `communicate` leaves the encoded frame in `buf`, starts transmitting with the line high and `length` 0, records `now` in `ts`, and keeps the state and the device |
| Driver.FirstUpdate | OpenTherm.cpp:269-273 | In state 125, `update` sends an even-parity frame decoding to READ-DATA(125, 0) and moves to state 0, without polling |
| Driver.WaitingUpdate | OpenTherm.cpp:276-277 | While no frame is in and at most 1200 ms have passed, `update` changes nothing |
| Driver.UpdateSends | OpenTherm.cpp:276-467 | Whenever `update` does not wait, it sends one even-parity frame that decodes to the request built from the answer or the failure. It also sets the new state and records the time |
| Driver.ReadyUpdate | OpenTherm.cpp:276-280 | A poll that delivers a message hands it to the walk |
| Driver.ErrorUpdate | OpenTherm.cpp:281-283 | A failed poll hands the failure marker (type 2, id 0, data 0) to the walk, with the session aborted |
| Driver.FailureAdvance | OpenTherm.cpp:288-467 | After a failure, an untargeted update keeps the device and sends READ-DATA for 5 or 17, chosen by status bit 0 |
| Driver.TimeOutUpdate | OpenTherm.cpp:244-295 | No frame after 1200 ms: the session is aborted, no field changes, and an untargeted update sends READ-DATA for 5 or 17 |
| Driver.AnswerUpdate | OpenTherm.cpp:239-288 | A slave frame received bit by bit and polled at 1000 ms or later reaches the walk exactly as the slave encoded it |
| Driver.CorruptUpdate | OpenTherm.cpp:244-283 | An odd-parity frame is never interpreted: the session is aborted and the walk continues as after a time-out |
| Driver.ModulationEchoUpdate | OpenTherm.cpp:324-467 | As written, with status 0x02 and a received READ-ACK(17, 0x3200) answer, the next `update()` sends a frame decoding to READ-ACK(25, 0) |
| Driver.ShiftBuffer | OpenTherm.cpp:95-103 | The compare-A register is `buf` shifted left, with the stop bit on the first transmit period or the sample when receiving |
| Driver.ToggleParity | OpenTherm.cpp:104 | The parity toggles for a high sample exactly when `length > 1` |
| Driver.FrameParity | OpenTherm.cpp:227-232 | The `for` loop leaves in `par` the exclusive-or of bits 0..30 as 0 or 1 |
| Driver.AddParity | OpenTherm.cpp:230-233 | The word with the parity bit added is the even-parity frame `WithParity` defines |
| Driver.Unpack | OpenTherm.cpp:251-255 | The shifts and masks of `complete` give `Decode` of the frame |
| Driver.StoreAnswer | OpenTherm.cpp:288-431 | The field writes of `switch(id)` are those `Store` defines |
| Driver.WalkOn | OpenTherm.cpp:288-431 | The state, type and value after `switch(id)` are those `NextState`, `NextType` and `NextData` choose; after Data-ID 17 the type is left as it came |
| Driver.NextRequest | OpenTherm.cpp:433-467 | The request and state after `switch(next)` are those `Request` defines |
| Driver.OpenTherm.constructor | OpenTherm.cpp:146-158 | Line low, state 125, `ts` 100, both enables on, DHW limits 60/40, CH limits 65/30 |
| Driver.OpenTherm.Receive | OpenTherm.cpp:4-11 | The fields become the `Receive` step of the session; nothing else changes |
| Driver.OpenTherm.Send | OpenTherm.cpp:206-222 | The fields become the `Send` step of the session; nothing else changes |
| Driver.OpenTherm.Abort | OpenTherm.cpp:183-196 | The fields become the `Abort` step of the session; nothing else changes |
| Driver.OpenTherm.ExtIntHandler | OpenTherm.cpp:47-65 | Session and return value are the `ExtInt` step; nothing else changes |
| Driver.OpenTherm.TimerCompAHandler | OpenTherm.cpp:85-115 | The session becomes the `CompA` step for the sampled level; `ts`, state and device are unchanged |
| Driver.OpenTherm.TimerCompBHandler | OpenTherm.cpp:122-131 | The session becomes the `CompB` step; nothing else changes |
| Driver.OpenTherm.Communicate | OpenTherm.cpp:226-237 | The object becomes `Communicated` of the message at time `now` |
| Driver.OpenTherm.Complete | OpenTherm.cpp:239-259 | Poll result and session are `Conversation.Complete` at the elapsed time `now - ts`; `ts`, state and device are unchanged |
| Driver.OpenTherm.Update | OpenTherm.cpp:264-468 | The object after `update(next)` is `Step` of the object before |
| Driver.OpenTherm.UpdateDefault | OpenTherm.cpp:260-262 | `update()` is `update(255)` |

## Left out

- Timer, pin-change and port registers (`TCCR2A/B`, `OCR2A/B`, `TCNT2`, `TIMSK2`, `TIFR2`, `ASSR`, `PCICR`, the PCMSK mask) and `cli()`/`sei()` are hardware. Only their effect on the session fields is kept. The transmit pin is the session component `txLine`; the receive pin is the `sample` parameter.
- Interrupt preemption and the timer resynchronisation on each edge (`TCNT2=0`) concern timing and concurrency. The handlers are sequential calls, and the receive lemmas assume one edge per bit period.
- `millis()` is the parameter `now`.
- `begin()` and its `delay` calls are a start-up sequence of `update` calls. They are not modelled.
- The constructor's pin and port lookups are Arduino library calls and are not modelled. The fields it does not set start as arbitrary values.
- `OT_to_float` and `float_to_OT` work on `float`. Here they work on exact reals, so float rounding is not modelled.
- `Frame.FromReal`: the C casts of a negative or out-of-range number to `uint16_t`/`uint8_t` are undefined behaviour. The model wraps them.
- The flags `rx`, `first` and `data_ready` are `uint8_t` in the driver and booleans here. The driver only ever stores 0 or 1 in them.
- `Driver.OpenTherm.TimerCompAHandler` clears `first` on every transmit period, where the driver clears it only when it is set. The resulting value is the same.
- `switch(id)` of `update` is split into `StoreAnswer` (the field writes) and `WalkOn` (state, type and value), and `switch(next)` is in `NextRequest`. The order of the writes within one call does not matter for the result.

## Findings

| source | as written | input that shows it | evidently intended | confidence | as-written member | corrected member |
|---|---|---|---|---|---|---|
| OpenTherm.cpp:324-328 | The case for Data-ID 17 (relative modulation) does not reset `type`. The untargeted request that follows, for Data-ID 25 or 26, therefore goes out with the type of the slave's answer. | `status` = 0x02; the answer to Data-ID 17 is READ-ACK (4) with value 0x3200. The next request is type 4, id 25, value 0. | `type=0`, as in every other case that moves the walk on. A master sends READ-DATA, and READ-ACK is a slave-to-master type in the OpenTherm Protocol Specification v2.2. | not executed | Walk.Respond, Walk.ModulationReadAck, Driver.ModulationEchoUpdate | Walk.RespondCorrected, Walk.WalkRequestsRead |

The driver object (`Driver.Step`, `Driver.OpenTherm.Update`) follows the code as written at Data-ID 17. `Walk.RespondCorrected` states the intended behaviour beside it.
