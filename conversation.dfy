/**
 * `complete()`: the poll that decides, from the session flags, the received
 * parity and the time elapsed since the request went out, whether the
 * exchange failed, is still under way, or has produced an answer.
 */
module Conversation {
  import opened Frame
  import opened Transceiver

  /** The three return values of `complete`: 0, 1 and 2. */
  datatype Poll = Pending | Ready(msg: Message) | Error

  /** `millis() - ts`: milliseconds since the request went out, in 32-bit
      arithmetic, so that a wrapped clock still gives the true distance. */
  function Elapsed(ts: bv32, now: bv32): bv32 {
    now - ts
  }

  /** A frame is complete and its bit 31 disagrees with the parity
      accumulated over bits 30..0. */
  predicate BadFrame(s: Session) {
    s.dataReady && s.parity != ParityFlag(Bit(s.buf, 31))
  }

  /** No frame after 1200 ms. */
  predicate TimedOut(s: Session, elapsed: bv32) {
    !s.dataReady && elapsed > 1200
  }

  /** The error test of `complete`: a bad frame or a time-out aborts the
      session. */
  predicate Failed(s: Session, elapsed: bv32) {
    BadFrame(s) || TimedOut(s, elapsed)
  }

  /** `complete`: on error, abort and report 2; a session that is not
      receiving, has no frame yet, or is younger than 1000 ms reports 0 and
      changes nothing; otherwise the frame in `buf` is decoded and reported
      with 1. */
  function Complete(s: Session, elapsed: bv32): (r: (Poll, Session))
    ensures r.0 == Error <==> Failed(s, elapsed)
    ensures r.0 == Error ==> r.1 == Abort(s)
    ensures r.0 != Error ==> r.1 == s
    ensures r.0.Ready? <==> s.rx && s.dataReady && !BadFrame(s) && elapsed >= 1000
    ensures r.0.Ready? ==> r.0.msg == Decode(s.buf)
  {
    if Failed(s, elapsed) then (Error, Abort(s))
    else if !s.rx || elapsed < 1000 || !s.dataReady then (Pending, s)
    else (Ready(Decode(s.buf)), s)
  }

  /** Nothing ready, not timed out: the poll keeps waiting and the session
      is left alone. */
  lemma WaitingIsPending(s: Session, elapsed: bv32)
    requires !s.dataReady && elapsed <= 1200
    ensures Complete(s, elapsed) == (Pending, s)
  {
  }

  /** An answer that arrived early is held back until 1000 ms have passed. */
  lemma EarlyAnswerHeld(s: Session, elapsed: bv32)
    requires s.dataReady && !BadFrame(s) && elapsed < 1000
    ensures Complete(s, elapsed) == (Pending, s)
  {
  }

  /** Time-out: no frame after 1200 ms aborts the session, which leaves the
      transmit line low and clears the register, the counter and the flags. */
  lemma TimeOutAborts(s: Session, elapsed: bv32)
    requires !s.dataReady && elapsed > 1200
    ensures var r := Complete(s, elapsed);
      r.0 == Error && !r.1.rx && !r.1.dataReady && r.1.length == 0 && r.1.buf == 0 &&
      !r.1.txLine && r.1.parity == s.parity && r.1.first == s.first
  {
  }

  /** End to end: a start bit and an encoded frame received into a fresh
      session, polled at 1000 ms or later, yield the message that was encoded;
      a late poll still delivers a frame that is ready. */
  lemma ReceiveEncoded(listener: Session, msgType: bv8, id: bv8, data: bv16, elapsed: bv32)
    requires msgType <= 7 && elapsed >= 1000
    ensures var f := Encode(msgType, id, data);
      var s := ExtInt(RxRun(Receive(listener), true, f, 32)).0;
      Complete(s, elapsed) == (Ready(Message(msgType, id, data)), s)
  {
    var f := Encode(msgType, id, data);
    EncodeParity(msgType, id, data);
    ReceiveFrame(listener, true, f);
    ParityTop(f);
    DecodeEncode(msgType, id, data);
  }

  /** A frame received with an odd number of one-bits is rejected and the
      session aborted, whenever it is polled. */
  lemma ReceiveCorrupt(listener: Session, f: bv32, elapsed: bv32)
    requires !EvenParity(f)
    ensures var s := ExtInt(RxRun(Receive(listener), true, f, 32)).0;
      Complete(s, elapsed) == (Error, Abort(s))
  {
    ReceiveFrame(listener, true, f);
    ParityTop(f);
  }
}
