/**
 * The Data-ID walk of `update(next)`: the answer to the last request is
 * stored in the device fields (unless its type has the error bit), the
 * walk state moves to the next Data-ID, and the next request is built,
 * possibly for a target Data-ID chosen by the caller.
 *
 * `state` is the Data-ID the walk asks for next; 0 is the head of the
 * default chain (the status exchange).
 */
module Walk {
  import opened Frame

  /** The public fields of the driver that the walk reads and writes. The
      temperatures and flow rates, `float` in the driver, are reals here. */
  datatype Device = Device(
    status: bv8,
    chEnabled: bool,
    dhwEnabled: bool,
    memberId: bv8,
    slaveConfig: bv8,
    dhw: real,
    ch: real,
    targetDhw: real,
    targetCh: real,
    modulation: bv8,
    fault: bv8,
    slaveVersion: real,
    chWaterPressure: real,
    dhwFlow: real,
    chReturnTemp: real,
    chMax: real,
    maxModulation: bv8,
    maxCapacity: bv8,
    minModulation: bv8,
    dhwMaxLimit: bv8,
    dhwMinLimit: bv8,
    chMaxLimit: bv8,
    chMinLimit: bv8,
    burnerStarts: bv16,
    chPumpStarts: bv16,
    dhwPumpStarts: bv16,
    dhwBurnerStarts: bv16,
    burnerHours: bv16,
    chPumpHours: bv16,
    dhwPumpHours: bv16,
    dhwBurnerHours: bv16)

  /** What `update` holds after `switch(id)`: the device, the walk state,
      and the `type` and `data` that the next request starts from. */
  datatype Reply = Reply(dev: Device, state: bv8, msgType: bv8, data: bv16)

  /** On a transport error `update` forces the type to 2 and leaves the id
      and the data at their initial 0. */
  const Failure := Message(2, 0, 0)

  /** Low byte of a Data-Value: `data & 0xFF`. */
  function Lo(data: bv16): bv8 {
    (data & 0xFF) as bv8
  }

  /** High byte of a Data-Value: `data >> 8`. */
  function Hi(data: bv16): bv8 {
    (data >> 8) as bv8
  }

  /** The field writes of `switch(id)` for an answer to `id` with value
      `d`; other Data-IDs write nothing. */
  function Store(dev: Device, id: bv8, d: bv16): Device {
    match id
    case 0 => dev.(status := Lo(d))
    case 3 => dev.(memberId := Lo(d), slaveConfig := Hi(d))
    case 5 => dev.(fault := Hi(d))
    case 14 => dev.(maxModulation := Hi(d))
    case 15 => dev.(minModulation := Lo(d), maxCapacity := Hi(d))
    case 17 => dev.(modulation := Hi(d))
    case 18 => dev.(chWaterPressure := ToReal(d))
    case 19 => dev.(dhwFlow := ToReal(d))
    case 25 => dev.(ch := ToReal(d))
    case 26 => dev.(dhw := ToReal(d))
    case 28 => dev.(chReturnTemp := ToReal(d))
    case 48 => dev.(dhwMinLimit := Lo(d), dhwMaxLimit := Hi(d))
    case 49 => dev.(chMinLimit := Lo(d), chMaxLimit := Hi(d))
    case 56 => dev.(targetDhw := ToReal(d))
    case 57 => dev.(chMax := ToReal(d))
    case 116 => dev.(burnerStarts := d)
    case 117 => dev.(chPumpStarts := d)
    case 118 => dev.(dhwPumpStarts := d)
    case 119 => dev.(dhwBurnerStarts := d)
    case 120 => dev.(burnerHours := d)
    case 121 => dev.(chPumpHours := d)
    case 122 => dev.(dhwPumpHours := d)
    case 123 => dev.(dhwBurnerHours := d)
    case 125 => dev.(slaveVersion := ToReal(d))
    case _ => dev
  }

  /** The Data-IDs `switch(id)` has a case for. */
  predicate KnownId(id: bv8) {
    id in {0, 1, 2, 3, 5, 14, 15, 17, 18, 19, 25, 26, 28, 48, 49, 56, 57, 125} || 116 <= id <= 123
  }

  /** The `state` assignments of `switch(id)`, given the status byte as it
      stands after the answer was stored; other Data-IDs keep the state. */
  function NextState(id: bv8, status: bv8, state: bv8): bv8 {
    match id
    case 0 => if status & 0x1 != 0 then 5 else 17
    case 17 => if status & 0x2 != 0 then 25 else 26
    case 15 => 48
    case 48 => 49
    case 49 => 18
    case 18 => 19
    case 19 => 28
    case 28 => 15
    case 116 => 117
    case 117 => 118
    case 118 => 119
    case 119 => 120
    case 120 => 121
    case 121 => 122
    case 122 => 123
    case 123 => 116
    case 125 => 3
    case 1 | 2 | 3 | 5 | 14 | 25 | 26 | 56 | 57 => 0
    case _ => state
  }

  /** The `type` assignments of `switch(id)`. */
  function NextType(id: bv8, t: bv8): bv8 {
    match id
    case 3 => 1
    case 0 | 14 | 15 | 18 | 19 | 28 | 48 | 49 | 125 => 0
    case 116 | 117 | 118 | 119 | 120 | 121 | 122 | 123 => 0
    case _ => t
  }

  /** The `data` assignments of `switch(id)`. */
  function NextData(id: bv8, d: bv16): bv16 {
    match id
    case 0 | 17 | 125 => 0
    case 116 | 117 | 118 | 119 | 120 | 121 | 122 | 123 => 0
    case _ => d
  }

  /** `switch(id)` as the driver has it: store the answer `m` unless its
      type has bit 1 set, then choose the next state, type and value. */
  function Respond(dev: Device, state: bv8, m: Message): (r: Reply)
    ensures IsErrorType(m.msgType) ==> r.dev == dev
  {
    var stored := if IsErrorType(m.msgType) then dev else Store(dev, m.id, m.data);
    Reply(stored, NextState(m.id, stored.status, state), NextType(m.id, m.msgType),
      NextData(m.id, m.data))
  }

  /** `switch(id)` with the type reset to READ-DATA after Data-ID 17, as
      after every other Data-ID that moves the walk along without a target.
      It differs from the driver only in that type. */
  function RespondCorrected(dev: Device, state: bv8, m: Message): (r: Reply)
    ensures r.dev == Respond(dev, state, m).dev
    ensures r.state == Respond(dev, state, m).state
    ensures r.data == Respond(dev, state, m).data
    ensures m.id != 17 ==> r.msgType == Respond(dev, state, m).msgType
    ensures m.id == 17 ==> r.msgType == 0
  {
    var r := Respond(dev, state, m);
    if m.id == 17 then r.(msgType := 0) else r
  }

  /** The Data-Value for a target: `(DHW_enabled<<1 | CH_enabled)<<8`. */
  function FlagsWord(dev: Device): bv16 {
    ((if dev.dhwEnabled then 2 else 0) | (if dev.chEnabled then 1 else 0)) << 8
  }

  /** `next` after `if (next==255 && state==0) next=0`. */
  function Target(next: bv8, state: bv8): bv8 {
    if next == 255 && state == 0 then 0 else next
  }

  /** `switch(next)` and the `communicate` call: the request that goes out
      and the walk state that remains. */
  function Request(next: bv8, r: Reply): (Message, bv8) {
    var n := Target(next, r.state);
    var id := if n == 255 then r.state else n;
    match n
    case 0 => (Message(0, id, FlagsWord(r.dev)), 0)
    case 1 => (Message(1, id, FromReal(r.dev.targetCh)), r.state)
    case 14 => (Message(1, id, (r.dev.maxModulation as bv16) << 8), r.state)
    case 18 => (Message(0, id, 0), r.state)
    case 56 => (Message(1, id, FromReal(r.dev.targetDhw)), r.state)
    case 57 => (Message(1, id, FromReal(r.dev.chMax)), r.state)
    case 116 => (Message(0, id, 0), r.state)
    case _ => (Message(r.msgType, id, r.data), r.state)
  }

  // ---------------------------------------------------------------------
  // The walk

  /** The default chain after the status exchange: with the fault bit set
      the walk asks for the fault flags (5), otherwise for the modulation
      (17), then for the CH (25) or the DHW (26) temperature according to
      status bit 1, and from those back to 0. */
  lemma DefaultChain(status: bv8, state: bv8)
    ensures NextState(0, status, state) == (if status & 0x1 != 0 then 5 else 17)
    ensures NextState(17, status, state) == (if status & 0x2 != 0 then 25 else 26)
    ensures NextState(5, status, state) == 0
    ensures NextState(25, status, state) == 0 && NextState(26, status, state) == 0
  {
  }

  /** 15 -> 48 -> 49 -> 18 -> 19 -> 28 -> 15 is a closed cycle, whatever the
      status. */
  lemma SensorCycle(status: bv8, state: bv8)
    ensures NextState(15, status, state) == 48
    ensures NextState(48, status, state) == 49
    ensures NextState(49, status, state) == 18
    ensures NextState(18, status, state) == 19
    ensures NextState(19, status, state) == 28
    ensures NextState(28, status, state) == 15
  {
  }

  /** Data-IDs 1, 2, 3, 5, 14, 25, 26, 56 and 57 send the walk back to the
      head of the chain, whatever the status. */
  lemma ReturnToHead(id: bv8, status: bv8, state: bv8)
    requires id in {1, 2, 3, 5, 14, 25, 26, 56, 57}
    ensures NextState(id, status, state) == 0
  {
  }

  /** After the slave version (125) the walk asks for the slave
      configuration and member id (3). */
  lemma BootstrapToConfig(status: bv8, state: bv8)
    ensures NextState(125, status, state) == 3
  {
  }

  /** 116 -> 117 -> ... -> 123 -> 116 is a closed cycle. */
  lemma CounterCycle(id: bv8, status: bv8, state: bv8)
    requires 116 <= id <= 123
    ensures NextState(id, status, state) == if id == 123 then 116 else id + 1
  {
  }

  /** Data-IDs outside the walk leave the state where it was. */
  lemma UnknownKeepsState(id: bv8, status: bv8, state: bv8)
    requires !KnownId(id)
    ensures NextState(id, status, state) == state
  {
  }

  /** The state `Respond` chooses depends on the answer only through its
      Data-ID and the stored status byte. */
  lemma SuccessorOnlyByStatus(dev1: Device, dev2: Device, state: bv8, m1: Message, m2: Message)
    requires m1.id == m2.id
    requires Respond(dev1, state, m1).dev.status == Respond(dev2, state, m2).dev.status
    ensures Respond(dev1, state, m1).state == Respond(dev2, state, m2).state
  {
  }

  // ---------------------------------------------------------------------
  // Storing the answer

  /** Store writes nothing for a Data-ID outside the table, so such an
      answer changes nothing but the carried type and value. */
  lemma UnknownIdIgnored(dev: Device, state: bv8, m: Message)
    requires !KnownId(m.id)
    ensures Respond(dev, state, m) == Reply(dev, state, m.msgType, m.data)
  {
  }

  /** The two bytes stored for Data-IDs 3, 15, 48 and 49 are the low and
      the high byte of the value, and together they give the value back. */
  lemma BytePairsReassemble(dev: Device, state: bv8, m: Message)
    requires !IsErrorType(m.msgType)
    ensures var r := Respond(dev, state, m).dev;
      (m.id == 3 ==> Pair(r.slaveConfig, r.memberId) == m.data) &&
      (m.id == 15 ==> Pair(r.maxCapacity, r.minModulation) == m.data) &&
      (m.id == 48 ==> Pair(r.dhwMaxLimit, r.dhwMinLimit) == m.data) &&
      (m.id == 49 ==> Pair(r.chMaxLimit, r.chMinLimit) == m.data)
  {
    BytesOf(m.data);
  }

  /** The 16-bit value with high byte `hi` and low byte `lo`. */
  function Pair(hi: bv8, lo: bv8): bv16 {
    ((hi as bv16) << 8) | lo as bv16
  }

  /** High and low byte reassemble the value they were taken from. */
  lemma BytesOf(data: bv16)
    ensures Pair(Hi(data), Lo(data)) == data
  {
  }

  /** A transport error: no field changes and the walk goes to 5 when
      status bit 0 is set and to 17 otherwise. */
  lemma FailureReply(dev: Device, state: bv8)
    ensures Respond(dev, state, Failure) ==
      Reply(dev, if dev.status & 0x1 != 0 then 5 else 17, 0, 0)
  {
  }

  // ---------------------------------------------------------------------
  // Building the request

  /** The default chain: with no target and the walk back at its head, the
      status request is sent as READ-DATA with the enable flags in the high
      byte. */
  lemma StatusRequest(next: bv8, r: Reply)
    requires next == 255 && r.state == 0
    ensures Request(next, r) == (Message(0, 0, FlagsWord(r.dev)), 0)
    ensures Hi(FlagsWord(r.dev)) & 0x1 != 0 <==> r.dev.chEnabled
    ensures Hi(FlagsWord(r.dev)) & 0x2 != 0 <==> r.dev.dhwEnabled
    ensures Lo(FlagsWord(r.dev)) == 0
  {
  }

  /** Without a target the request asks for the walk state; a target is
      always the Data-ID asked for, and the walk state is kept except that
      a target 0 resets it. */
  lemma RequestId(next: bv8, r: Reply)
    ensures var (m, st) := Request(next, r);
      m.id == (if next == 255 then r.state else next) &&
      st == (if Target(next, r.state) == 0 then 0 else r.state)
  {
  }

  /** Target 14 writes the maximum modulation in the high byte; targets 18
      and 116 read with a zero value; targets 1, 56 and 57 write the
      setpoints. */
  lemma TargetRequests(r: Reply)
    ensures Request(14, r).0 == Message(1, 14, (r.dev.maxModulation as bv16) << 8)
    ensures Hi(Request(14, r).0.data) == r.dev.maxModulation
    ensures Request(18, r).0 == Message(0, 18, 0)
    ensures Request(116, r).0 == Message(0, 116, 0)
    ensures Request(1, r).0 == Message(1, 1, FromReal(r.dev.targetCh))
    ensures Request(56, r).0 == Message(1, 56, FromReal(r.dev.targetDhw))
    ensures Request(57, r).0 == Message(1, 57, FromReal(r.dev.chMax))
  {
  }

  /** A setpoint read back from the boiler (Data-ID 56 or 57) and then
      written with a target request goes out with the very value read. */
  lemma SetpointEcho(dev: Device, state: bv8, m: Message)
    requires !IsErrorType(m.msgType) && (m.id == 56 || m.id == 57)
    ensures Request(m.id, Respond(dev, state, m)).0 == Message(1, m.id, m.data)
  {
    FromRealToReal(m.data);
  }

  /** Quirks kept from the driver: after Data-ID 17 a target request that
      `switch(next)` does not rebuild carries the answer's type with a zero
      value, after 18 it is READ-DATA with the answer's value. */
  lemma CarriedOver(dev: Device, state: bv8, m: Message, next: bv8)
    requires next != 255 && next !in {0, 1, 14, 18, 56, 57, 116}
    ensures m.id == 17 ==> Request(next, Respond(dev, state, m)).0 == Message(m.msgType, next, 0)
    ensures m.id == 18 ==> Request(next, Respond(dev, state, m)).0 == Message(0, next, m.data)
  {
  }

  /** After Data-IDs 1, 2, 5, 25, 26, 56 and 57 a target request that
      `switch(next)` does not rebuild keeps the answer's type and value. */
  lemma CarriedThrough(dev: Device, state: bv8, m: Message, next: bv8)
    requires next != 255 && next !in {0, 1, 14, 18, 56, 57, 116}
    requires m.id in {1, 2, 5, 25, 26, 56, 57}
    ensures Request(next, Respond(dev, state, m)).0 == Message(m.msgType, next, m.data)
  {
    var r := Respond(dev, state, m);
    assert r.msgType == NextType(m.id, m.msgType) && r.data == NextData(m.id, m.data);
    KeepsCarried(m.id, m.msgType, m.data);
    RequestCarries(next, r);
  }

  /** Data-IDs 1, 2, 5, 25, 26, 56 and 57 leave the type and the value alone. */
  lemma KeepsCarried(id: bv8, t: bv8, d: bv16)
    requires id in {1, 2, 5, 25, 26, 56, 57}
    ensures NextType(id, t) == t && NextData(id, d) == d
  {
  }

  /** A target that `switch(next)` does not rebuild takes the carried type
      and value. */
  lemma RequestCarries(next: bv8, r: Reply)
    requires next != 255 && next !in {0, 1, 14, 18, 56, 57, 116}
    ensures Request(next, r) == (Message(r.msgType, next, r.data), r.state)
  {
  }

  // ---------------------------------------------------------------------
  // The request type after Data-ID 17

  /** As written, the walk after an answer to Data-ID 17 sends its next
      request, for Data-ID 25 or 26, with the answer's own type. */
  lemma ModulationTypeEcho(dev: Device, state: bv8, m: Message)
    requires m.id == 17
    ensures var r := Respond(dev, state, m);
      r.state in {25, 26} && Request(255, r).0 == Message(m.msgType, r.state, 0)
  {
  }

  /** A concrete instance: a boiler reporting CH active (status bit 1)
      answers the modulation read with READ-ACK (4); the next request, for
      the CH water temperature, goes out as READ-ACK, a slave-to-master type,
      instead of READ-DATA. */
  lemma ModulationReadAck(dev: Device)
    requires dev.status == 0x02
    ensures Request(255, Respond(dev, 17, Message(4, 17, 0x3200))).0 == Message(4, 25, 0)
  {
    ModulationTypeEcho(dev, 17, Message(4, 17, 0x3200));
  }

  /** With the type reset after Data-ID 17, every request the walk sends on
      its own, after an answer to any Data-ID it asks for or after a
      transport error, is READ-DATA. */
  lemma WalkRequestsRead(dev: Device, state: bv8, m: Message)
    requires KnownId(m.id)
    ensures Request(255, RespondCorrected(dev, state, m)).0.msgType == 0
  {
    var r := RespondCorrected(dev, state, m);
    assert r.state == NextState(m.id, r.dev.status, state);
    assert r.msgType == if m.id == 17 then 0 else NextType(m.id, m.msgType);
    if m.id != 17 {
      KnownIdSettles(m.id, r.dev.status, state, m.msgType);
    }
  }

  /** Every Data-ID of the table but 17 either sends the walk back to the
      head of the chain or resets the type. */
  lemma KnownIdSettles(id: bv8, status: bv8, state: bv8, t: bv8)
    requires KnownId(id) && id != 17
    ensures NextState(id, status, state) == 0 || NextType(id, t) == 0
  {
  }

  /** Every request type is a valid three-bit message type when the answer's
      is. */
  lemma RequestTypeValid(next: bv8, dev: Device, state: bv8, m: Message)
    requires m.msgType <= 7
    ensures Request(next, Respond(dev, state, m)).0.msgType <= 7
  {
  }
}
