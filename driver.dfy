/**
 * The `OpenTherm` master object: the transceiver session, the time stamp of
 * the last request, the walk state and the device fields, updated in place
 * by the interrupt handlers and by `update`.
 *
 * `Snapshot` and `Step` state, as values, what one call of `update` does;
 * the class methods are proved against them and against the session steps
 * of the transceiver. The millisecond clock is the parameter `now`.
 */
module Driver {
  import opened Frame
  import opened Transceiver
  import opened Conversation
  import opened Walk

  /** Everything `update` reads and writes. */
  datatype Snapshot = Snapshot(session: Session, ts: bv32, state: bv8, dev: Device)

  /** `communicate(type, id, data)` at time `now`: the encoded frame goes to
      `buf`, the session starts sending, and `ts` records the time. */
  function Communicated(c: Snapshot, m: Message, now: bv32): (r: Snapshot)
    ensures r.session.buf == Encode(m.msgType, m.id, m.data)
    ensures !r.session.rx && r.session.length == 0 && r.session.txLine
    ensures r.ts == now && r.state == c.state && r.dev == c.dev
  {
    c.(session := Send(c.session.(buf := Encode(m.msgType, m.id, m.data))), ts := now)
  }

  /** The part of `update` after the poll delivered the answer `m` (or the
      failure marker): store it, move the walk, send the next request. */
  function Advance(c: Snapshot, next: bv8, m: Message, now: bv32): Snapshot {
    var r := Respond(c.dev, c.state, m);
    var (req, st) := Request(next, r);
    Communicated(c.(state := st, dev := r.dev), req, now)
  }

  /** `update(next)` at time `now`. */
  function Step(c: Snapshot, next: bv8, now: bv32): Snapshot {
    if c.state == 125 then
      Communicated(c, Message(0, 125, 0), now).(state := 0)
    else
      var (p, s) := Complete(c.session, Elapsed(c.ts, now));
      match p
      case Pending => c
      case Ready(m) => Advance(c.(session := s), next, m, now)
      case Error => Advance(c.(session := s), next, Failure, now)
  }

  // ---------------------------------------------------------------------
  // Properties of one update

  /** The first update asks for the slave's OpenTherm version (READ-DATA,
      Data-ID 125) in an even-parity frame and moves the walk to the head of
      the chain, whatever the session was doing. */
  lemma FirstUpdate(c: Snapshot, next: bv8, now: bv32)
    requires c.state == 125
    ensures var r := Step(c, next, now);
      Decode(r.session.buf) == Message(0, 125, 0) && EvenParity(r.session.buf) &&
      r.state == 0 && r.ts == now && r.dev == c.dev && !r.session.rx
  {
    DecodeEncode(0, 125, 0);
    EncodeParity(0, 125, 0);
  }

  /** While the answer is not in and 1200 ms have not passed, `update`
      changes nothing at all. */
  lemma WaitingUpdate(c: Snapshot, next: bv8, now: bv32)
    requires c.state != 125 && !c.session.dataReady && Elapsed(c.ts, now) <= 1200
    ensures Step(c, next, now) == c
  {
    WaitingIsPending(c.session, Elapsed(c.ts, now));
  }

  /** Whenever `update` does not wait, it sends exactly one request, an
      even-parity frame that decodes to the message `Request` builds from the
      answer or the failure, and records the time. */
  lemma UpdateSends(c: Snapshot, next: bv8, now: bv32)
    requires c.state != 125 && Complete(c.session, Elapsed(c.ts, now)).0 != Pending
    ensures var r := Step(c, next, now);
      var p := Complete(c.session, Elapsed(c.ts, now)).0;
      var m := if p.Ready? then p.msg else Failure;
      var (req, st) := Request(next, Respond(c.dev, c.state, m));
      Decode(r.session.buf) == req && EvenParity(r.session.buf) &&
      r.state == st && r.ts == now && !r.session.rx
  {
    var p := Complete(c.session, Elapsed(c.ts, now)).0;
    var m := if p.Ready? then p.msg else Failure;
    if p.Ready? {
      DecodeTypeBound(c.session.buf);
    }
    var (req, st) := Request(next, Respond(c.dev, c.state, m));
    RequestTypeValid(next, c.dev, c.state, m);
    DecodeEncode(req.msgType, req.id, req.data);
    EncodeParity(req.msgType, req.id, req.data);
  }

  /** A decoded frame has a three-bit type. */
  lemma DecodeTypeBound(f: bv32)
    ensures Decode(f).msgType <= 7
  {
  }

  /** A poll that delivers `m` hands it to the walk with the session as it
      was. */
  lemma ReadyUpdate(c: Snapshot, next: bv8, now: bv32, m: Message)
    requires c.state != 125 && Complete(c.session, Elapsed(c.ts, now)) == (Ready(m), c.session)
    ensures Step(c, next, now) == Advance(c, next, m, now)
  {
  }

  /** A poll that fails hands the failure marker to the walk, with the
      session aborted. */
  lemma ErrorUpdate(c: Snapshot, next: bv8, now: bv32)
    requires c.state != 125 && Complete(c.session, Elapsed(c.ts, now)).0 == Error
    ensures Step(c, next, now) == Advance(c.(session := Abort(c.session)), next, Failure, now)
  {
  }

  /** After a failure an untargeted update keeps the device fields and
      asks, as READ-DATA, for the fault flags (5) when the status byte has
      the fault bit, else for the modulation (17). */
  lemma FailureAdvance(c: Snapshot, now: bv32)
    ensures var target: bv8 := if c.dev.status & 0x1 != 0 then 5 else 17;
      Advance(c, 255, Failure, now) == Communicated(c.(state := target), Message(0, target, 0), now)
  {
    FailureReply(c.dev, c.state);
  }

  /** No answer within 1200 ms: the session is aborted, no device field
      changes, and an untargeted update asks for the fault flags (5) when the
      last status had the fault bit, else for the modulation (17). */
  lemma TimeOutUpdate(c: Snapshot, now: bv32)
    requires c.state != 125 && !c.session.dataReady && Elapsed(c.ts, now) > 1200
    ensures var r := Step(c, 255, now);
      var target: bv8 := if c.dev.status & 0x1 != 0 then 5 else 17;
      r.dev == c.dev && r.state == target &&
      r.session == Send(Abort(c.session).(buf := Encode(0, target, 0)))
  {
    TimeOutAborts(c.session, Elapsed(c.ts, now));
    ErrorUpdate(c, 255, now);
    FailureAdvance(c.(session := Abort(c.session)), now);
  }

  /** End to end: the slave's frame, received bit by bit after a start bit
      and polled 1000 ms or more after the request, is handed to the walk
      exactly as the slave encoded it. */
  lemma AnswerUpdate(c: Snapshot, listener: Session, next: bv8, now: bv32,
                     msgType: bv8, id: bv8, data: bv16)
    requires c.state != 125 && msgType <= 7 && Elapsed(c.ts, now) >= 1000
    requires c.session == ExtInt(RxRun(Receive(listener), true, Encode(msgType, id, data), 32)).0
    ensures Step(c, next, now) == Advance(c, next, Message(msgType, id, data), now)
  {
    ReceiveEncoded(listener, msgType, id, data, Elapsed(c.ts, now));
    ReadyUpdate(c, next, now, Message(msgType, id, data));
  }

  /** A frame with odd parity is never interpreted: the session is aborted
      and the walk goes on as after a time-out. */
  lemma CorruptUpdate(c: Snapshot, listener: Session, next: bv8, now: bv32, f: bv32)
    requires c.state != 125 && !EvenParity(f)
    requires c.session == ExtInt(RxRun(Receive(listener), true, f, 32)).0
    ensures Step(c, next, now) == Advance(c.(session := Abort(c.session)), next, Failure, now)
  {
    ReceiveCorrupt(listener, f, Elapsed(c.ts, now));
    ErrorUpdate(c, next, now);
  }

  /** The driver as written: a boiler reporting CH active answers the
      modulation read with READ-ACK, and the next untargeted update sends
      the CH water temperature request as READ-ACK too. */
  lemma ModulationEchoUpdate(c: Snapshot, listener: Session, now: bv32)
    requires c.state == 17 && c.dev.status == 0x02 && Elapsed(c.ts, now) >= 1000
    requires c.session == ExtInt(RxRun(Receive(listener), true, Encode(4, 17, 0x3200), 32)).0
    ensures Decode(Step(c, 255, now).session.buf) == Message(4, 25, 0)
  {
    AnswerUpdate(c, listener, 255, now, 4, 17, 0x3200);
    ModulationReadAck(c.dev);
    DecodeEncode(4, 25, 0);
  }

  // ---------------------------------------------------------------------
  // Register arithmetic of the handlers, on values

  /** `timer2CompAHandler`'s buffer: shift left, then add the stop bit when
      the first period of a send ends, or the sampled level when receiving. */
  method ShiftBuffer(buf: bv32, rx: bool, first: bool, sample: bool) returns (tmp: bv32)
    ensures tmp == ShiftIn(buf, if rx then sample else first)
  {
    tmp := buf << 1;
    if !rx && first {
      tmp := tmp | 1;
    }
    if rx && sample {
      tmp := tmp | 1;
    }
  }

  /** `if (length > 1) parity ^= 1` for a sampled high level. */
  method ToggleParity(parity: bv8, length: bv8, high: bool) returns (p: bv8)
    ensures high && length > 1 ==> p == parity ^ 1
    ensures !(high && length > 1) ==> p == parity
  {
    p := parity;
    if high && length > 1 {
      p := p ^ 1;
    }
  }

  /** `communicate`'s parity loop: the exclusive-or of bits 0..30 of `tmp`,
      accumulated bit by bit as 0 or 1. */
  method FrameParity(tmp: bv32) returns (par: bv8)
    ensures par == ParityFlag(XorBits(tmp, 31))
  {
    par := 0;
    var i: bv8 := 0;
    while i < 31
      invariant i <= 31
      invariant par == ParityFlag(XorBits(tmp, i))
    {
      ParityFlagXor(XorBits(tmp, i), Bit(tmp, i));
      par := par ^ (if Bit(tmp, i) then 1 else 0);
      i := i + 1;
    }
  }

  /** `tmp |= par ? bit(31) : 0`: bit 31 set when the parity of bits 0..30
      is odd, so that the whole frame has even parity. */
  method AddParity(x: bv32) returns (tmp: bv32)
    ensures tmp == WithParity(x)
  {
    tmp := x;
    var par := FrameParity(tmp);
    if par != 0 {
      tmp := tmp | (1 << 31);
    }
  }

  /** `complete`'s unpacking of the received frame: data from bits 0..15,
      the id from bits 16..23, the type from bits 28..30. */
  method Unpack(f: bv32) returns (m: Message)
    ensures m == Decode(f)
  {
    var tmp := f;
    var data := (tmp & 0xFFFF) as bv16;
    tmp := tmp >> 16;
    var id := (tmp & 0xFF) as bv8;
    tmp := tmp >> 12;
    var msgType := (tmp & 0x7) as bv8;
    m := Message(msgType, id, data);
  }

  /** The field writes of `switch(id)`, for an answer whose type does not
      have the error bit. */
  method StoreAnswer(dev0: Device, id: bv8, data: bv16) returns (dev: Device)
    ensures dev == Store(dev0, id, data)
  {
    dev := dev0;
    match id {
    case 0 => dev := dev.(status := Lo(data));
    case 3 => dev := dev.(memberId := Lo(data), slaveConfig := Hi(data));
    case 5 => dev := dev.(fault := Hi(data));
    case 14 => dev := dev.(maxModulation := Hi(data));
    case 15 => dev := dev.(minModulation := Lo(data), maxCapacity := Hi(data));
    case 17 => dev := dev.(modulation := Hi(data));
    case 18 => dev := dev.(chWaterPressure := ToReal(data));
    case 19 => dev := dev.(dhwFlow := ToReal(data));
    case 25 => dev := dev.(ch := ToReal(data));
    case 26 => dev := dev.(dhw := ToReal(data));
    case 28 => dev := dev.(chReturnTemp := ToReal(data));
    case 48 => dev := dev.(dhwMinLimit := Lo(data), dhwMaxLimit := Hi(data));
    case 49 => dev := dev.(chMinLimit := Lo(data), chMaxLimit := Hi(data));
    case 56 => dev := dev.(targetDhw := ToReal(data));
    case 57 => dev := dev.(chMax := ToReal(data));
    case 116 => dev := dev.(burnerStarts := data);
    case 117 => dev := dev.(chPumpStarts := data);
    case 118 => dev := dev.(dhwPumpStarts := data);
    case 119 => dev := dev.(dhwBurnerStarts := data);
    case 120 => dev := dev.(burnerHours := data);
    case 121 => dev := dev.(chPumpHours := data);
    case 122 => dev := dev.(dhwPumpHours := data);
    case 123 => dev := dev.(dhwBurnerHours := data);
    case 125 => dev := dev.(slaveVersion := ToReal(data));
    case _ =>
    }
  }

  /** The `state`, `type` and `data` assignments of `switch(id)`, `status`
      being the status byte after the answer was stored. */
  method WalkOn(id: bv8, status: bv8, state0: bv8, msgType0: bv8, data0: bv16)
      returns (state: bv8, msgType: bv8, data: bv16)
    ensures state == NextState(id, status, state0)
    ensures msgType == NextType(id, msgType0)
    ensures data == NextData(id, data0)
  {
    state, msgType, data := state0, msgType0, data0;
    match id {
    case 0 =>
      data := 0;
      state := if status & 0x1 != 0 then 5 else 17;
      msgType := 0;
    case 1 =>
      state := 0;
    case 2 =>
      state := 0;
    case 3 =>
      msgType := 1;
      state := 0;
    case 5 =>
      state := 0;
    case 14 =>
      msgType := 0;
      state := 0;
    case 15 =>
      msgType := 0;
      state := 48;
    case 17 =>
      state := if status & 0x2 != 0 then 25 else 26;
      data := 0;
    case 18 =>
      state := 19;
      msgType := 0;
    case 19 =>
      state := 28;
      msgType := 0;
    case 25 =>
      state := 0;
    case 26 =>
      state := 0;
    case 28 =>
      state := 15;
      msgType := 0;
    case 48 =>
      msgType := 0;
      state := 49;
    case 49 =>
      msgType := 0;
      state := 18;
    case 56 =>
      state := 0;
    case 57 =>
      state := 0;
    case 116 =>
      state, data, msgType := 117, 0, 0;
    case 117 =>
      state, data, msgType := 118, 0, 0;
    case 118 =>
      state, data, msgType := 119, 0, 0;
    case 119 =>
      state, data, msgType := 120, 0, 0;
    case 120 =>
      state, data, msgType := 121, 0, 0;
    case 121 =>
      state, data, msgType := 122, 0, 0;
    case 122 =>
      state, data, msgType := 123, 0, 0;
    case 123 =>
      state, data, msgType := 116, 0, 0;
    case 125 =>
      state, data, msgType := 3, 0, 0;
    case _ =>
    }
  }

  /** `if (next==255 && state==0) next=0;`, `switch(next)` and the id of
      the `communicate` call. */
  method NextRequest(next: bv8, r: Reply) returns (m: Message, state: bv8)
    ensures (m, state) == Request(next, r)
  {
    var n := next;
    if n == 255 && r.state == 0 {
      n := 0;
    }
    var msgType, data := r.msgType, r.data;
    state := r.state;
    match n {
    case 0 =>
      msgType := 0;
      state := 0;
      data := FlagsWord(r.dev);
    case 1 =>
      data := FromReal(r.dev.targetCh);
      msgType := 1;
    case 14 =>
      data := (r.dev.maxModulation as bv16) << 8;
      msgType := 1;
    case 18 =>
      data := 0;
      msgType := 0;
    case 56 =>
      data := FromReal(r.dev.targetDhw);
      msgType := 1;
    case 57 =>
      data := FromReal(r.dev.chMax);
      msgType := 1;
    case 116 =>
      data := 0;
      msgType := 0;
    case _ =>
    }
    m := Message(msgType, if n == 255 then state else n, data);
  }

  // ---------------------------------------------------------------------
  // The driver object

  class OpenTherm {
    // transceiver session
    var buf: bv32
    var length: bv8
    var parity: bv8
    var rx: bool
    var first: bool
    var dataReady: bool
    var txLine: bool
    // conversation
    var ts: bv32
    var state: bv8
    // the public device fields, as one record
    var dev: Walk.Device

    function Session(): Transceiver.Session
      reads this
    {
      Transceiver.Session(buf, length, parity, rx, first, dataReady, txLine)
    }

    function Snap(): Snapshot
      reads this
    {
      Snapshot(Session(), ts, state, dev)
    }

    /** The constructor: transmit line low, walk at Data-ID 125 (slave
        version), both enables on, the default DHW and CH limits. The pins
        are not modelled; the fields the driver leaves alone start unknown. */
    constructor()
      ensures !txLine && state == 125 && ts == 100 && dev.chEnabled && dev.dhwEnabled
      ensures dev.dhwMaxLimit == 60 && dev.dhwMinLimit == 40
      ensures dev.chMaxLimit == 65 && dev.chMinLimit == 30
    {
      var unset: Walk.Device :| true;
      txLine := false;
      state := 125;
      ts := 100;
      dev := unset.(chEnabled := true, dhwEnabled := true,
        dhwMaxLimit := 60, dhwMinLimit := 40, chMaxLimit := 65, chMinLimit := 30);
    }

    method Receive()
      modifies this
      ensures Snap() == old(Snap()).(session := Transceiver.Receive(old(Session())))
    {
      first := true;
      buf := 0;
      rx := true;
      dataReady := false;
      length := 0;
      parity := 0;
    }

    method Send()
      modifies this
      ensures Snap() == old(Snap()).(session := Transceiver.Send(old(Session())))
    {
      rx := false;
      length := 0;
      dataReady := false;
      first := true;
      txLine := true;
    }

    method Abort()
      modifies this
      ensures Snap() == old(Snap()).(session := Transceiver.Abort(old(Session())))
    {
      txLine := false;
      dataReady := false;
      rx := false;
      length := 0;
      buf := 0;
    }

    method ExtIntHandler() returns (done: bool)
      modifies this
      ensures (Session(), done) == ExtInt(old(Session()))
      ensures Snap() == old(Snap()).(session := Session())
    {
      if first {
        first := false;
      }
      if length > MsgLength {
        dataReady := true;
        return true;
      }
      return false;
    }

    /** `sample` is the level read on the receive line. */
    method TimerCompAHandler(sample: bool)
      modifies this
      ensures Session() == CompA(old(Session()), sample)
      ensures ts == old(ts) && state == old(state) && dev == old(dev)
    {
      var tmp := ShiftBuffer(buf, rx, first, sample);
      if !rx {
        // the driver clears `first` only when it is set; clearing it on
        // every transmit period leaves the same value
        txLine := Bit(buf, 31);
        first := false;
      }
      parity := ToggleParity(parity, length, rx && sample);
      length := length + 1;
      buf := tmp;
    }

    method TimerCompBHandler()
      modifies this
      ensures Snap() == old(Snap()).(session := CompB(old(Session())))
    {
      txLine := !txLine;
      if length > MsgLength {
        Receive();
      }
    }

    /** `communicate(type, id, data)`: the frame goes to `buf`, the send
        starts, and `ts` records the time. */
    method Communicate(msgType: bv8, id: bv8, data: bv16, now: bv32)
      modifies this
      ensures Snap() == Communicated(old(Snap()), Message(msgType, id, data), now)
    {
      var tmp := Compose(msgType, id, data);
      tmp := AddParity(tmp);
      buf := tmp;
      Send();
      ts := now;
    }

    /** `now` is the value `millis()` would return. */
    method Complete(now: bv32) returns (p: Poll)
      modifies this
      ensures (p, Session()) == Conversation.Complete(old(Session()), Elapsed(old(ts), now))
      ensures ts == old(ts) && state == old(state) && dev == old(dev)
    {
      var delta := Elapsed(ts, now);
      if (dataReady && parity != ParityFlag(Bit(buf, 31))) ||
         (!dataReady && delta > 1200) {
        assert Failed(old(Session()), delta);
        Abort();
        return Error;
      }
      assert !Failed(Session(), delta);
      if !rx || delta < 1000 || !dataReady {
        return Pending;
      }
      var m := Unpack(buf);
      return Ready(m);
    }

    method Update(next: bv8, now: bv32)
      modifies this
      ensures Snap() == Step(old(Snap()), next, now)
    {
      if state == 125 {
        Communicate(0, state, 0, now);
        state := 0;
        return;
      }
      var p := Complete(now);
      var answer := Failure;
      match p {
        case Pending => return;
        case Ready(m) => answer := m;
        case Error =>
      }
      if !IsErrorType(answer.msgType) {
        dev := StoreAnswer(dev, answer.id, answer.data);
      }
      var msgType, data;
      state, msgType, data := WalkOn(answer.id, dev.status, state, answer.msgType, answer.data);
      var request;
      request, state := NextRequest(next, Reply(dev, state, msgType, data));
      Communicate(request.msgType, request.id, request.data, now);
    }

    method UpdateDefault(now: bv32)
      modifies this
      ensures Snap() == Step(old(Snap()), 255, now)
    {
      Update(255, now);
    }
  }
}
