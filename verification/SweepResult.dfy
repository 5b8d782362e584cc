/**
 A sweep's tally and its wire form: fifteen bytes of counts, signal-to-noise figures in tenths of a
 decibel, and a bitmap of the first thirty-two sequence numbers.
 */
module SweepResult {
  import opened Arithmetic
  import opened Common

  const SNR_NONE := -32768
  const SNR_LIMIT := 3000
  const SEQ_BITMAP_BITS := 32

  /** Lowest, mean and highest estimate, in tenths of a decibel. */
  datatype Span = Span(low: int, mean: int, high: int)

  datatype Tally = Tally(modeId: nat, expected: nat, decoded: set<nat>, nearMissed: nat, snr: seq<real>) {
    function Missed(): nat {
      Max(0, expected - |decoded| - nearMissed)
    }

    function Range(): Option<Span> {
      if snr == [] then None
      else Some(Span(Tenths(Least(snr)), Tenths(Sum(snr) / |snr| as real), Tenths(Greatest(snr))))
    }
  }

  function Least(v: seq<real>): real
    requires v != []
  {
    if |v| == 1 then v[0] else if Least(v[1..]) < v[0] then Least(v[1..]) else v[0]
  }

  function Greatest(v: seq<real>): real
    requires v != []
  {
    if |v| == 1 then v[0] else if Greatest(v[1..]) > v[0] then Greatest(v[1..]) else v[0]
  }

  function Sum(v: seq<real>): real {
    if v == [] then 0.0 else v[0] + Sum(v[1..])
  }

  /** Ten times a value, rounded to the nearest integer, halves to even. */
  function Tenths(v: real): int {
    var f := (v * 10.0).Floor;
    var rest := v * 10.0 - f as real;
    if rest < 0.5 || (rest == 0.5 && f % 2 == 0) then f else f + 1
  }

  /** What a RESULT frame says. */
  datatype Report =
    Report(modeId: nat, sent: nat, decoded: nat, near: nat, missed: nat, figures: Figures, seqs: set<nat>)

  /** The three figures as they are read back, each with its own absence. */
  datatype Figures = Figures(low: Option<int>, mean: Option<int>, high: Option<int>)

  function FiguresOf(span: Option<Span>): Figures {
    match span
    case None => Figures(None, None, None)
    case Some(s) => Figures(Some(s.low), Some(s.mean), Some(s.high))
  }

  function ClampedSpan(span: Option<Span>): Option<Span> {
    match span
    case None => None
    case Some(s) => Some(Span(Clamped(s.low), Clamped(s.mean), Clamped(s.high)))
  }

  // -- what the figures mean -------------------------------------------------------------

  lemma {:induction false} LeastIs(v: seq<real>)
    requires v != []
    ensures Least(v) in v && forall x :: x in v ==> Least(v) <= x
  {
    if |v| > 1 {
      LeastIs(v[1..]);
      assert v == [v[0]] + v[1..];
    }
  }

  lemma {:induction false} GreatestIs(v: seq<real>)
    requires v != []
    ensures Greatest(v) in v && forall x :: x in v ==> x <= Greatest(v)
  {
    if |v| > 1 {
      GreatestIs(v[1..]);
      assert v == [v[0]] + v[1..];
    }
  }

  /** The sum is that of the pieces, however the list is cut. */
  lemma {:induction false} SumJoins(a: seq<real>, b: seq<real>)
    ensures Sum(a + b) == Sum(a) + Sum(b)
    ensures forall x :: Sum([x]) == x
  {
    if a == [] {
      assert a + b == b;
    } else {
      SumJoins(a[1..], b);
      assert (a + b)[1..] == a[1..] + b;
    }
  }

  lemma {:induction false} SumBetween(v: seq<real>, low: real, high: real)
    requires forall x :: x in v ==> low <= x <= high
    ensures |v| as real * low <= Sum(v) <= |v| as real * high
  {
    if v != [] {
      assert v[0] in v && forall x :: x in v[1..] ==> x in v;
      SumBetween(v[1..], low, high);
      assert |v[1..]| == |v| - 1;
      OneMore(|v| - 1, low);
      OneMore(|v| - 1, high);
    }
  }

  lemma OneMore(n: nat, x: real)
    ensures (n + 1) as real * x == n as real * x + x
  {
  }

  lemma QuotientBetween(sum: real, n: real, low: real, high: real)
    requires n > 0.0 && n * low <= sum <= n * high
    ensures low <= sum / n <= high
  {
    var q := sum / n;
    assert n * q == sum;
    AtMost(n, low, q);
    AtMost(n, q, high);
  }

  lemma AtMost(n: real, a: real, b: real)
    requires n > 0.0 && n * a <= n * b
    ensures a <= b
  {
    if a > b { AboveZero(n, a - b); }
  }

  lemma AboveZero(a: real, b: real)
    requires a > 0.0 && b > 0.0
    ensures a * b > 0.0
  {
  }

  /** The nearest integer; of two, the even one. */
  lemma TenthsNearest(v: real)
    ensures var t := Tenths(v);
      && -0.5 <= v * 10.0 - t as real <= 0.5
      && (v * 10.0 - t as real == 0.5 || v * 10.0 - t as real == -0.5 ==> t % 2 == 0)
  {
  }

  lemma TenthsMonotone(v: real, w: real)
    requires v <= w
    ensures Tenths(v) <= Tenths(w)
  {
  }

  /** The figures of a tally: the least, the mean and the greatest of its estimates, to the nearest tenth. */
  lemma RangeMeans(t: Tally)
    ensures t.Range().None? <==> t.snr == []
    ensures t.Range().Some? ==>
      var s := t.Range().value;
      && (exists x :: x in t.snr && s.low == Tenths(x)) && (exists x :: x in t.snr && s.high == Tenths(x))
      && (forall x :: x in t.snr ==> s.low <= Tenths(x) <= s.high)
      && s.mean == Tenths(Sum(t.snr) / |t.snr| as real) && s.low <= s.mean <= s.high
  {
    if t.snr != [] {
      LeastIs(t.snr);
      GreatestIs(t.snr);
      SumBetween(t.snr, Least(t.snr), Greatest(t.snr));
      QuotientBetween(Sum(t.snr), |t.snr| as real, Least(t.snr), Greatest(t.snr));
      forall x | x in t.snr ensures Tenths(Least(t.snr)) <= Tenths(x) <= Tenths(Greatest(t.snr)) {
        TenthsMonotone(Least(t.snr), x);
        TenthsMonotone(x, Greatest(t.snr));
      }
      TenthsMonotone(Least(t.snr), Sum(t.snr) / |t.snr| as real);
      TenthsMonotone(Sum(t.snr) / |t.snr| as real, Greatest(t.snr));
      hide Tenths, Least, Greatest, Sum;
    }
  }

  /** Every frame expected is decoded, nearly decoded or missed, unless more came in than were expected. */
  lemma MissedMakesUp(t: Tally)
    ensures |t.decoded| + t.nearMissed + t.Missed() == Max(t.expected, |t.decoded| + t.nearMissed)
  {
  }

  // -- fields -----------------------------------------------------------------------

  function Capped(n: nat): Byte {
    Min(255, n)
  }

  function Clamped(v: int): int {
    Max(-SNR_LIMIT, Min(SNR_LIMIT, v))
  }

  /** A signed sixteen-bit field, high byte first. */
  function Int16(v: int): (b: Bytes)
    requires -32768 <= v < 32768
    ensures |b| == 2
  {
    var u := if v < 0 then v + 65536 else v;
    [u / 256, u % 256]
  }

  function FromInt16(hi: Byte, lo: Byte): int {
    var u := 256 * hi + lo;
    if u >= 32768 then u - 65536 else u
  }

  lemma Int16RoundTrip(v: int)
    requires -32768 <= v < 32768
    ensures FromInt16(Int16(v)[0], Int16(v)[1]) == v
  {
  }

  /** Eight sequence numbers from `base` up as a byte, the lowest in the lowest bit. */
  function Packed(s: set<nat>, base: nat, n: nat): (b: nat)
    requires n <= 8
    ensures b < Power(n)
  {
    if n == 0 then 0
    else Packed(s, base, n - 1) + (if base + n - 1 in s then Power(n - 1) else 0)
  }

  function Power(n: nat): (p: nat)
    ensures p > 0
  {
    if n == 0 then 1 else 2 * Power(n - 1)
  }

  predicate BitOf(b: nat, i: nat) {
    b / Power(i) % 2 == 1
  }

  /** The bitmap, high byte first. */
  function Bitmap(s: set<nat>): (b: Bytes)
    ensures |b| == 4
  {
    assert Power(8) == 256;
    [Packed(s, 24, 8), Packed(s, 16, 8), Packed(s, 8, 8), Packed(s, 0, 8)]
  }

  /** The sequence numbers set in a bitmap. */
  function Seqs(b: Bytes): (s: set<nat>)
    requires |b| == 4
  {
    set i: nat | i < SEQ_BITMAP_BITS && BitOf(b[3 - i / 8], i % 8)
  }

  lemma {:induction false} PackedBit(s: set<nat>, base: nat, n: nat, i: nat)
    requires i < n <= 8
    ensures BitOf(Packed(s, base, n), i) <==> base + i in s
  {
    hide BitOf, Power;
    var low := Packed(s, base, n - 1);
    TopBit(low, n - 1);
    if i < n - 1 {
      PackedBit(s, base, n - 1, i);
      HigherBit(low, i, n - 1);
    }
  }

  /** Setting a higher bit leaves the lower ones. */
  lemma HigherBit(low: nat, i: nat, n: nat)
    requires i < n
    ensures BitOf(low + Power(n), i) <==> BitOf(low, i)
  {
    PowerSplit(i, n);
    AddEven(low, Power(i), Power(n - i - 1));
  }

  lemma TopBit(low: nat, n: nat)
    requires low < Power(n)
    ensures !BitOf(low, n) && BitOf(low + Power(n), n)
  {
    Quotient(low, Power(n), 0, low);
    Quotient(low + Power(n), Power(n), 1, low);
  }

  lemma {:induction false} PowerSplit(i: nat, n: nat)
    requires i < n
    ensures Power(n) == Power(i) * (2 * Power(n - i - 1))
  {
    if i < n - 1 { PowerSplit(i, n - 1); }
  }

  /** Adding an even multiple of `p` leaves the bit `p` stands for. */
  lemma AddEven(x: nat, p: nat, q: nat)
    requires p > 0
    ensures (x + p * (2 * q)) / p % 2 == x / p % 2
  {
    var d, r := x / p, x % p;
    assert x + p * (2 * q) == p * (d + 2 * q) + r;
    Quotient(x + p * (2 * q), p, d + 2 * q, r);
  }

  lemma BitmapRoundTrip(s: set<nat>)
    ensures Seqs(Bitmap(s)) == set i | i in s && i < SEQ_BITMAP_BITS
  {
    forall i: nat | i < SEQ_BITMAP_BITS ensures i in Seqs(Bitmap(s)) <==> i in s {
      PackedBit(s, 8 * (i / 8), 8, i % 8);
    }
  }

  // -- frames -----------------------------------------------------------------------

  function SpanBytes(span: Option<Span>): (b: Bytes)
    ensures |b| == 6
  {
    match ClampedSpan(span)
    case None => Int16(SNR_NONE) + Int16(SNR_NONE) + Int16(SNR_NONE)
    case Some(s) => Int16(s.low) + Int16(s.mean) + Int16(s.high)
  }

  /** Fails, as packing would, on a mode id that is no byte. */
  function EncodeResult(modeId: nat, t: Tally): (b: Option<Bytes>)
    ensures b.Some? <==> modeId < 256
    ensures b.Some? ==> |b.value| == 15
  {
    if modeId >= 256 then None
    else
      Some([modeId as Byte, Capped(t.expected), Capped(|t.decoded|), Capped(t.nearMissed), Capped(t.Missed())]
           + SpanBytes(t.Range()) + Bitmap(t.decoded))
  }

  function DecodeFigure(hi: Byte, lo: Byte): Option<int> {
    if FromInt16(hi, lo) == SNR_NONE then None else Some(FromInt16(hi, lo))
  }

  function DecodeFigures(b: Bytes): Figures
    requires |b| == 6
  {
    Figures(DecodeFigure(b[0], b[1]), DecodeFigure(b[2], b[3]), DecodeFigure(b[4], b[5]))
  }

  /** Too short is no result; without the bitmap, the counts alone. */
  function DecodeResult(b: Bytes): Option<Report> {
    if |b| < 11 then None
    else
      Some(Report(b[0], b[1], b[2], b[3], b[4], DecodeFigures(b[5..11]), if |b| < 15 then {} else Seqs(b[11..15])))
  }

  /** What the tally says, nothing lost. */
  function Exact(modeId: nat, t: Tally): Report {
    Report(modeId, t.expected, |t.decoded|, t.nearMissed, t.Missed(), FiguresOf(t.Range()), t.decoded)
  }

  /** What the frame says of a tally: counts capped, figures clamped, later sequence numbers left out. */
  function Reported(modeId: nat, t: Tally): Report {
    Report(modeId, Capped(t.expected), Capped(|t.decoded|), Capped(t.nearMissed), Capped(t.Missed()),
           FiguresOf(ClampedSpan(t.Range())),
           set i | i in t.decoded && i < SEQ_BITMAP_BITS)
  }

  lemma SpanRoundTrip(span: Option<Span>)
    ensures DecodeFigures(SpanBytes(span)) == FiguresOf(ClampedSpan(span))
  {
    match ClampedSpan(span)
    case None => Int16RoundTrip(SNR_NONE);
    case Some(s) =>
      Int16RoundTrip(s.low);
      Int16RoundTrip(s.mean);
      Int16RoundTrip(s.high);
  }

  lemma Reports(modeId: nat, t: Tally)
    requires modeId < 256
    ensures DecodeResult(EncodeResult(modeId, t).value) == Some(Reported(modeId, t))
  {
    var b := EncodeResult(modeId, t).value;
    assert b[5..11] == SpanBytes(t.Range()) && b[11..15] == Bitmap(t.decoded);
    SpanRoundTrip(t.Range());
    BitmapRoundTrip(t.decoded);
  }

  /** One frame, byte by byte: of ten frames three decoded and two nearly, at -3 dB and 1.25 dB. */
  lemma Image()
    ensures EncodeResult(7, Tally(7, 10, {0, 1, 9}, 2, [1.25, -3.0]))
         == Some([7, 10, 3, 2, 5, 255, 226, 255, 247, 0, 12, 0, 0, 2, 3])
  {
    var t := Tally(7, 10, {0, 1, 9}, 2, [1.25, -3.0]);
    var snr: seq<real> := [1.25, -3.0];
    assert snr[1..] == [-3.0] && [-3.0][1..] == [];
    assert Least(snr) == -3.0 && Greatest(snr) == 1.25 && Sum(snr) == -1.75;
    assert t.Range() == Some(Span(-30, -9, 12));
    assert |t.decoded| == 3 && t.Missed() == 5;
    Bits(t.decoded);
    ImageOf(t);
    hide *;
    var counts: Bytes := [7, 10, 3, 2, 5];
    assert counts + ([255, 226] + [255, 247] + [0, 12]) + [0, 0, 2, 3]
        == [7, 10, 3, 2, 5, 255, 226, 255, 247, 0, 12, 0, 0, 2, 3];
  }

  lemma ImageOf(t: Tally)
    requires t.expected == 10 && |t.decoded| == 3 && t.nearMissed == 2 && t.Missed() == 5
    requires t.Range() == Some(Span(-30, -9, 12))
    ensures EncodeResult(7, t)
         == Some([7, 10, 3, 2, 5] + ([255, 226] + [255, 247] + [0, 12]) + Bitmap(t.decoded))
  {
    assert Int16(-30) == [255, 226] && Int16(-9) == [255, 247] && Int16(12) == [0, 12];
    hide Bitmap, Tally.Range, Tally.Missed;
  }

  lemma Bits(s: set<nat>)
    requires s == {0, 1, 9}
    ensures Bitmap(s) == [0, 0, 2, 3]
  {
    assert Power(0) == 1 && Power(1) == 2;
    NoBits(s, 16, 8);
    NoBits(s, 24, 8);
    assert Packed(s, 0, 2) == 3;
    NoMore(s, 0, 2, 8);
    assert Packed(s, 8, 2) == 2;
    NoMore(s, 8, 2, 8);
  }

  lemma {:induction false} NoBits(s: set<nat>, base: nat, n: nat)
    requires n <= 8 && forall i: nat :: base <= i < base + n ==> i !in s
    ensures Packed(s, base, n) == 0
  {
    if n > 0 { NoBits(s, base, n - 1); }
  }

  lemma {:induction false} NoMore(s: set<nat>, base: nat, m: nat, n: nat)
    requires m <= n <= 8 && forall i: nat :: base + m <= i < base + n ==> i !in s
    ensures Packed(s, base, n) == Packed(s, base, m)
  {
    if n > m { NoMore(s, base, m, n - 1); }
  }

  /** What fits: every count a byte, every figure within the limit, every sequence number in the bitmap. */
  predicate Fits(t: Tally) {
    && t.expected <= 255 && |t.decoded| <= 255 && t.nearMissed <= 255 && t.Missed() <= 255
    && (forall i :: i in t.decoded ==> i < SEQ_BITMAP_BITS)
    && (t.Range().Some? ==>
          var s := t.Range().value;
          -SNR_LIMIT <= s.low <= SNR_LIMIT && -SNR_LIMIT <= s.mean <= SNR_LIMIT && -SNR_LIMIT <= s.high <= SNR_LIMIT)
  }

  /** A result comes back exactly as it was when, and only when, it fits. */
  lemma RoundTrip(modeId: nat, t: Tally)
    requires modeId < 256
    ensures DecodeResult(EncodeResult(modeId, t).value) == Some(Exact(modeId, t)) <==> Fits(t)
  {
    Reports(modeId, t);
    var low := set i | i in t.decoded && i < SEQ_BITMAP_BITS;
    if low == t.decoded { assert forall i :: i in t.decoded ==> i in low; }
  }
}
