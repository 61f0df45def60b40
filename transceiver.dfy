/**
 * The transceiver session of the OpenTherm master: the 32-bit shift
 * register `buf`, the bit counter `length`, the running `parity`, the
 * direction flag `rx`, the `first` flag, the `data_ready` flag, and the
 * level of the transmit line.
 *
 * The interrupt handlers are modelled as sequential step functions. The
 * level sampled on the receive line is a parameter of the compare-A step;
 * the level driven on the transmit line is the `txLine` component. Timer,
 * pin-change and port registers are left out; only their effect on the
 * session is kept.
 */
module Transceiver {
  import opened Frame

  /** `MSG_LENGTH`: data bits in a frame. */
  const MsgLength: bv8 := 32

  datatype Session = Session(
    buf: bv32,        // frame being shifted out or in
    length: bv8,      // bit periods handled since the session started
    parity: bv8,      // exclusive-or of the received bits 30..0
    rx: bool,         // receiving (true) or transmitting (false)
    first: bool,      // no bit handled yet
    dataReady: bool,  // a whole frame has been received
    txLine: bool)     // level of the transmit line

  /** `receive()`: clear the session and listen. */
  function Receive(s: Session): Session {
    s.(first := true, buf := 0, rx := true, dataReady := false, length := 0, parity := 0)
  }

  /** `send()`: start shifting out `buf`; the line goes high for the start bit. */
  function Send(s: Session): Session {
    s.(rx := false, length := 0, dataReady := false, first := true, txLine := true)
  }

  /** `abort()`: drop the session; the line goes low. `parity` and `first`
      are not touched. */
  function Abort(s: Session): Session {
    s.(dataReady := false, rx := false, length := 0, buf := 0, txLine := false)
  }

  /** `extIntHandler()`: an edge on the receive line. Once more than
      `MSG_LENGTH` bits are in, the frame is complete. */
  function ExtInt(s: Session): (r: (Session, bool))
    ensures r.1 <==> s.length > MsgLength
    ensures r.0.dataReady <==> s.dataReady || s.length > MsgLength
    ensures r.0 == s.(first := false, dataReady := r.0.dataReady)
  {
    if s.length > MsgLength then (s.(first := false, dataReady := true), true)
    else (s.(first := false), false)
  }

  function B(b: bool): bv32 {
    if b then 1 else 0
  }

  /** `buf <<= 1`, then the low bit set to `x`. */
  function ShiftIn(buf: bv32, x: bool): bv32 {
    if x then (buf << 1) | 1 else buf << 1
  }

  /** `timer2CompAHandler()`, `sample` being the level read on the receive
      line. Receiving, it shifts the sample in and folds it into the parity
      from the third bit on. Transmitting, it drives the top bit of `buf` and
      shifts, adding the stop bit on the first call. Both add one to
      `length`. */
  function CompA(s: Session, sample: bool): (r: Session)
    ensures r.length == s.length + 1
    ensures r.rx == s.rx && r.dataReady == s.dataReady
    ensures s.rx ==> r.first == s.first && r.txLine == s.txLine
    ensures !s.rx ==> r.txLine == Bit(s.buf, 31) && r.parity == s.parity && !r.first
  {
    if s.rx then
      var parity := if sample && s.length > 1 then s.parity ^ 1 else s.parity;
      s.(buf := ShiftIn(s.buf, sample), length := s.length + 1, parity := parity)
    else
      s.(buf := ShiftIn(s.buf, s.first), length := s.length + 1, first := false,
         txLine := Bit(s.buf, 31))
  }

  /** `timer2CompBHandler()`: toggle the transmit line at mid-bit; after the
      stop bit, switch to receiving. */
  function CompB(s: Session): (r: Session)
    ensures r.txLine == !s.txLine
    ensures r.rx <==> s.rx || s.length > MsgLength
  {
    var t := s.(txLine := !s.txLine);
    if t.length > MsgLength then Receive(t) else t
  }

  // ---------------------------------------------------------------------
  // Receiving

  /** One received bit period: the edge at mid-bit, then the compare-A sample. */
  function RxPeriod(s: Session, sample: bool): Session {
    CompA(ExtInt(s).0, sample)
  }

  /** The session after `j + 1` received bit periods whose samples are `b`
      (the start bit) and then bits 31, 30, ..., 32 - j of `f`. Every 32-bit
      sequence of samples after the start bit is the top of some `f`. */
  function RxRun(s: Session, b: bool, f: bv32, j: bv8): Session
    requires j <= 32
    decreases j
  {
    if j == 0 then RxPeriod(s, b) else RxPeriod(RxRun(s, b, f, j - 1), Bit(f, 32 - j))
  }

  function ParityFlag(p: bool): bv8 {
    if p then 1 else 0
  }

  /** Folding one more bit into a parity flag with `^=`. */
  lemma ParityFlagXor(p: bool, b: bool)
    ensures ParityFlag(p != b) == ParityFlag(p) ^ (if b then 1 else 0)
  {
  }

  /** The register after the start bit `b` and bits 31 down to `32 - j`
      of `f` have been shifted in. */
  function Top(b: bool, f: bv32, j: bv8): bv32
    requires j <= 32
    decreases j
  {
    if j == 0 then B(b) else ShiftIn(Top(b, f, j - 1), Bit(f, 32 - j))
  }

  lemma LowBitApart(x: bv32, i: bv8)
    requires 0 < i < 32
    ensures ((x << 1) | 1) & (1 << i) == (x << 1) & (1 << i)
  {
  }

  lemma ShiftedMask(x: bv32, i: bv8)
    requires 0 < i < 32
    ensures (x << 1) & (1 << i) == (x & (1 << (i - 1))) << 1
  {
  }

  lemma ShiftedNonZero(x: bv32, i: bv8)
    requires 0 < i < 32
    ensures (x & (1 << (i - 1))) << 1 == 0 <==> x & (1 << (i - 1)) == 0
  {
  }

  /** Bit `i` above bit 0 of a shifted register is the old bit `i - 1`. */
  lemma BitShifted(x: bv32, i: bv8)
    requires 0 < i < 32
    ensures Bit(x << 1, i) == Bit(x, i - 1)
  {
    ShiftedMask(x, i);
    ShiftedNonZero(x, i);
  }

  /** Setting bit 0 leaves the bits above it alone. */
  lemma BitLowSet(x: bv32, i: bv8)
    requires 0 < i < 32
    ensures Bit((x << 1) | 1, i) == Bit(x << 1, i)
  {
    LowBitApart(x, i);
  }

  /** Bit `i` of the register after a shift is the sample for bit 0 and the
      old bit `i - 1` above it. */
  lemma BitShiftIn(x: bv32, y: bool, i: bv8)
    requires i < 32
    ensures Bit(ShiftIn(x, y), i) == if i == 0 then y else Bit(x, i - 1)
  {
    if i > 0 {
      BitShifted(x, i);
      if y {
        BitLowSet(x, i);
      }
    }
  }

  /** Bit `i` of `Top(b, f, j)`: the `j` bits of `f` received so far sit
      at the bottom, the start bit just above them, zeros beyond. */
  function TopBit(b: bool, f: bv32, j: bv8, i: bv8): bool
    requires j <= 32 && i < 32
  {
    if i < j then Bit(f, 32 - j + i) else i == j && b
  }

  lemma TopBitStep(b: bool, f: bv32, j: bv8, i: bv8)
    requires 0 < j <= 32 && 0 < i < 32
    ensures TopBit(b, f, j, i) == TopBit(b, f, j - 1, i - 1)
  {
    assert 32 - (j - 1) + (i - 1) == 32 - j + i;
  }

  lemma {:induction false} TopBits(b: bool, f: bv32, j: bv8)
    requires j <= 32
    ensures forall i: bv8 :: i < 32 ==> Bit(Top(b, f, j), i) == TopBit(b, f, j, i)
    decreases j
  {
    if j > 0 {
      TopBits(b, f, j - 1);
      forall i: bv8 | i < 32 ensures Bit(Top(b, f, j), i) == TopBit(b, f, j, i) {
        BitShiftIn(Top(b, f, j - 1), Bit(f, 32 - j), i);
        if i > 0 {
          TopBitStep(b, f, j, i);
        }
      }
    } else {
      forall i: bv8 | i < 32 ensures Bit(Top(b, f, j), i) == TopBit(b, f, j, i) {
      }
    }
  }

  /** After 32 bits the start bit has left the register and the frame fills it. */
  lemma TopFrame(b: bool, f: bv32)
    ensures Top(b, f, 32) == f
  {
    TopBits(b, f, 32);
    forall i: bv8 | i < 32 ensures Bit(Top(b, f, 32), i) == Bit(f, i) {
      assert 32 - 32 + i == i;
    }
    WordExt(Top(b, f, 32), f);
  }

  lemma ParityStep(f: bv32, j: bv8, oldParity: bv8)
    requires 1 < j <= 32
    requires oldParity == ParityFlag(XorBits(f, 31) != XorBits(f, 33 - j))
    ensures (if Bit(f, 32 - j) then oldParity ^ 1 else oldParity) ==
      ParityFlag(XorBits(f, 31) != XorBits(f, 32 - j))
  {
    assert 33 - j == (32 - j) + 1;
    assert XorBits(f, 33 - j) == (XorBits(f, 32 - j) != Bit(f, 32 - j));
  }

  /** A receive period before the frame is complete: the sample is shifted
      in, one more bit is counted, and the parity takes the sample from the
      third bit on. */
  lemma RxPeriodStep(p: Session, x: bool)
    requires p.rx && !p.dataReady && p.length <= MsgLength
    ensures RxPeriod(p, x) == p.(buf := ShiftIn(p.buf, x), length := p.length + 1, first := false,
      parity := if x && p.length > 1 then p.parity ^ 1 else p.parity)
  {
  }

  /** The parity flag after `j` data bits: the exclusive-or of bits 31 down
      to `32 - j` of `f`, leaving out bit 31 (the first data bit), as the
      handler only counts samples after the second period. */
  function RxParity(f: bv32, j: bv8): bv8
    requires j <= 32
  {
    ParityFlag(j > 0 && XorBits(f, 31) != XorBits(f, 32 - j))
  }

  lemma RxParityStep(f: bv32, j: bv8)
    requires 0 < j <= 32
    ensures RxParity(f, j) ==
      if Bit(f, 32 - j) && j > 1 then RxParity(f, j - 1) ^ 1 else RxParity(f, j - 1)
  {
    if j > 1 {
      assert 32 - (j - 1) == 33 - j;
      ParityStep(f, j, RxParity(f, j - 1));
    }
  }

  /** The receive session after the start bit `b` and the top `j` bits of
      `f`: `j + 1` bits counted, the register holding those bits, and the
      parity of all of them but the first data bit. */
  predicate Received(r: Session, s: Session, b: bool, f: bv32, j: bv8)
    requires j <= 32
  {
    r.buf == Top(b, f, j) && r.length == j + 1 && r.parity == RxParity(f, j) &&
    r.rx && !r.first && !r.dataReady && r.txLine == s.txLine
  }

  /** One more bit period keeps the description of the receive session. */
  lemma ReceivedStep(s: Session, b: bool, f: bv32, j: bv8, p: Session)
    requires 0 < j <= 32 && Received(p, s, b, f, j - 1)
    ensures Received(RxPeriod(p, Bit(f, 32 - j)), s, b, f, j)
  {
    RxPeriodStep(p, Bit(f, 32 - j));
    RxParityStep(f, j);
  }

  lemma {:induction false} ReceiveBits(s: Session, b: bool, f: bv32, j: bv8)
    requires j <= 32
    ensures Received(RxRun(Receive(s), b, f, j), s, b, f, j)
    decreases j
  {
    if j == 0 {
      RxPeriodStep(Receive(s), b);
    } else {
      ReceiveBits(s, b, f, j - 1);
      ReceivedStep(s, b, f, j, RxRun(Receive(s), b, f, j - 1));
    }
  }

  /** A start bit and the 32 bits of a frame, then the closing edge: the edge
      handler reports completion, `buf` holds the frame and `parity` the
      exclusive-or of its bits 0..30. */
  lemma ReceiveFrame(s: Session, b: bool, f: bv32)
    ensures var r := ExtInt(RxRun(Receive(s), b, f, 32));
      r.1 && r.0.dataReady && r.0.rx && r.0.buf == f && r.0.length == 33 &&
      r.0.parity == ParityFlag(XorBits(f, 31))
  {
    ReceiveBits(s, b, f, 32);
    TopFrame(b, f);
  }

  // ---------------------------------------------------------------------
  // Transmitting

  /** `k` transmit bit periods: compare-B toggles the line at mid-bit, then
      compare-A drives the next bit. The receive line is not read while
      transmitting, so the sample passed is immaterial. */
  function TxRun(s: Session, k: bv8): Session
    decreases k
  {
    if k == 0 then s else CompA(CompB(TxRun(s, k - 1)), false)
  }

  /** The level compare-A number `k` (from 1) drives for frame `f`: the
      frame bits from 31 down, then the stop bit. */
  function Level(f: bv32, k: bv8): bool
    requires 1 <= k <= 33
  {
    if k <= 32 then Bit(f, 32 - k) else true
  }

  /** The shift register after `k` compare-A calls: the frame moved up by `k`
      with the stop bit following it. */
  function TxBuf(f: bv32, k: bv8): bv32
    requires 1 <= k <= 33
  {
    if k <= 32 then (f << k) | (1 << (k - 1)) else 0
  }

  lemma TxBufStep(f: bv32, k: bv8)
    requires 1 <= k <= 32
    ensures TxBuf(f, k) << 1 == TxBuf(f, k + 1)
    ensures Bit(TxBuf(f, k), 31) == Level(f, k + 1)
  {
  }

  lemma TxFirstStep(f: bv32)
    ensures (f << 1) | 1 == TxBuf(f, 1)
    ensures Bit(f, 31) == Level(f, 1)
  {
  }

  /** The transmit session after `k` periods of sending `f`: the register
      shifted `k` times, `k` counted, and the line at the level of bit `k`. */
  predicate Transmitted(r: Session, s: Session, f: bv32, k: bv8)
    requires 1 <= k <= 33
  {
    r.buf == TxBuf(f, k) && r.length == k && r.txLine == Level(f, k) &&
    !r.rx && !r.first && !r.dataReady && r.parity == s.parity
  }

  /** A transmit period before the stop bit is out: compare-B leaves the
      session transmitting, compare-A drives bit 31 and shifts. */
  lemma TxPeriodStep(p: Session)
    requires !p.rx && !p.first && p.length <= MsgLength
    ensures CompA(CompB(p), false) ==
      p.(buf := p.buf << 1, length := p.length + 1, txLine := Bit(p.buf, 31))
  {
  }

  lemma TransmittedStep(s: Session, f: bv32, k: bv8, p: Session)
    requires 1 < k <= 33 && Transmitted(p, s, f, k - 1)
    ensures Transmitted(CompA(CompB(p), false), s, f, k)
  {
    TxPeriodStep(p);
    TxBufStep(f, k - 1);
  }

  lemma {:induction false} TransmitBits(s: Session, f: bv32, k: bv8)
    requires 1 <= k <= 33
    ensures Transmitted(TxRun(Send(s.(buf := f)), k), s, f, k)
    decreases k
  {
    if k == 1 {
      TxFirstStep(f);
    } else {
      TransmitBits(s, f, k - 1);
      TransmittedStep(s, f, k, TxRun(Send(s.(buf := f)), k - 1));
    }
  }

  /** Sending a frame from `send()`: the start bit is high then low; each of
      the 33 compare-A calls drives, for the first half period, bit 31, 30,
      ..., 0 of the frame and then the stop bit, and compare-B inverts it for
      the second half; the compare-B call after the stop bit leaves the line
      low and the session freshly receiving. */
  lemma TransmitFrame(s: Session, f: bv32)
    ensures Send(s.(buf := f)).txLine && !CompB(Send(s.(buf := f))).txLine
    ensures forall k: bv8 :: 1 <= k <= 33 ==>
      TxRun(Send(s.(buf := f)), k).txLine == Level(f, k) &&
      CompB(TxRun(Send(s.(buf := f)), k)).txLine == !Level(f, k) &&
      (k <= 32 ==> !CompB(TxRun(Send(s.(buf := f)), k)).rx)
    ensures var t := TxRun(Send(s.(buf := f)), 33);
      t.length == 33 && CompB(t) == Receive(t.(txLine := false))
  {
    forall k: bv8 | 1 <= k <= 33
      ensures TxRun(Send(s.(buf := f)), k).txLine == Level(f, k)
      ensures k <= 32 ==> !CompB(TxRun(Send(s.(buf := f)), k)).rx
    {
      TransmitBits(s, f, k);
    }
    TransmitBits(s, f, 33);
  }

  /** What the transmitter drives, a receiver reassembles: the level in
      the first half of bit period `k` is exactly the sample `RxRun` takes in
      its period `k`, the start bit is high, and the receiver ends with the
      frame in `buf` and, for an even-parity frame, `parity` equal to bit 31. */
  lemma Loopback(s: Session, f: bv32, listener: Session)
    requires EvenParity(f)
    ensures Send(s.(buf := f)).txLine
    ensures forall k: bv8 :: 1 <= k <= 32 ==> TxRun(Send(s.(buf := f)), k).txLine == Bit(f, 32 - k)
    ensures var r := ExtInt(RxRun(Receive(listener), true, f, 32));
      r.1 && r.0.buf == f && r.0.parity == ParityFlag(Bit(f, 31))
  {
    forall k: bv8 | 1 <= k <= 32 ensures TxRun(Send(s.(buf := f)), k).txLine == Bit(f, 32 - k) {
      TransmitBits(s, f, k);
    }
    ReceiveFrame(listener, true, f);
    ParityTop(f);
  }
}
