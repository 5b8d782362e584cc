/**
 The terminated K=7, rate-1/3 convolutional code with generators 171, 133 and 165 (octal), and
 its free distance: two different inputs that both end in six zeros differ in at least fifteen
 coded bits.
 */
module Convolution {
  import opened Common

  const GENERATORS: seq<nat> := [121, 91, 117]
  const STATES := 64

  function Both(x: Bit, y: Bit): Bit {
    if x == 1 && y == 1 then 1 else 0
  }

  /** Whether an odd number of bits are set in both. */
  function Parity(register: nat, mask: nat): Bit {
    if register == 0 || mask == 0 then 0
    else Xor(Both(register % 2, mask % 2), Parity(register / 2, mask / 2))
  }

  function Coded(register: nat, k: nat): Bit
    requires k < 3
  {
    Parity(register, GENERATORS[k])
  }

  /** The shift register after a list of inputs, without the bit about to fall out. */
  function StateAfter(bits: seq<Bit>): (s: nat)
    ensures s < STATES
    decreases |bits|, 1
  {
    if bits == [] then 0 else Register(bits) % STATES
  }

  function Register(bits: seq<Bit>): (r: nat)
    requires bits != []
    ensures r < 2 * STATES
    decreases |bits|, 0
  {
    2 * StateAfter(bits[..|bits| - 1]) + bits[|bits| - 1]
  }

  function Encoded(bits: seq<Bit>): (out: seq<Bit>)
    ensures |out| == 3 * |bits|
  {
    if bits == [] then []
    else
      var r := Register(bits);
      Encoded(bits[..|bits| - 1]) + [Coded(r, 0), Coded(r, 1), Coded(r, 2)]
  }

  method Encode(bits: seq<Bit>) returns (out: seq<Bit>)
    ensures out == Encoded(bits)
  {
    var state := 0;
    out := [];
    for i := 0 to |bits|
      invariant state == StateAfter(bits[..i])
      invariant out == Encoded(bits[..i])
    {
      var register := (2 * state + bits[i]) % 128;
      assert bits[..i + 1][..i] == bits[..i];
      assert register == Register(bits[..i + 1]);
      out := out + [Coded(register, 0), Coded(register, 1), Coded(register, 2)];
      state := register % STATES;
    }
    assert bits[..|bits|] == bits;
  }

  // -- the window -------------------------------------------------------------------

  /** The input `j` steps back, or zero before the first. */
  function Back(bits: seq<Bit>, j: nat): Bit {
    if j < |bits| then bits[|bits| - 1 - j] else 0
  }

  /** The register holds the last seven inputs. */
  lemma {:induction false} Window(bits: seq<Bit>)
    ensures StateAfter(bits) == Back(bits, 0) + 2 * Back(bits, 1) + 4 * Back(bits, 2) + 8 * Back(bits, 3)
                                + 16 * Back(bits, 4) + 32 * Back(bits, 5)
    ensures bits != [] ==> Register(bits) == StateAfter(bits) + 64 * Back(bits, 6)
    decreases |bits|
  {
    if bits != [] {
      var init := bits[..|bits| - 1];
      Window(init);
      assert forall j: nat :: Back(bits, j + 1) == Back(init, j);
      assert Back(init, 0) == Back(bits, 1) && Back(init, 1) == Back(bits, 2) && Back(init, 2) == Back(bits, 3);
      assert Back(init, 3) == Back(bits, 4) && Back(init, 4) == Back(bits, 5) && Back(init, 5) == Back(bits, 6);
    }
  }

  predicate ZeroTail(bits: seq<Bit>) {
    forall i :: 0 <= i < |bits| && |bits| - 6 <= i ==> bits[i] == 0
  }

  /** The encoder ends in state zero exactly when the last six inputs were zero. */
  lemma Terminated(bits: seq<Bit>)
    ensures StateAfter(bits) == 0 <==> ZeroTail(bits)
    ensures StateAfter(bits) == 0 <==> forall j :: 0 <= j < 6 ==> Back(bits, j) == 0
  {
    Window(bits);
    hide StateAfter;
    if ZeroTail(bits) {
      assert forall j :: 0 <= j < 6 ==> Back(bits, j) == 0;
    }
    if StateAfter(bits) == 0 {
      assert forall j :: 0 <= j < 6 ==> Back(bits, j) == 0;
      forall i | 0 <= i < |bits| && |bits| - 6 <= i ensures bits[i] == 0 {
        assert Back(bits, |bits| - 1 - i) == bits[i];
      }
    }
  }

  lemma ParityStep(r: nat, b: Bit, mask: nat, c: Bit)
    ensures Parity(2 * r + b, 2 * mask + c) == Xor(Both(b, c), Parity(r, mask))
  {
    assert (2 * r + b) / 2 == r && (2 * r + b) % 2 == b && (2 * mask + c) / 2 == mask && (2 * mask + c) % 2 == c;
    if 2 * r + b == 0 { assert Parity(0, mask) == 0; }
    if 2 * mask + c == 0 { assert Parity(r, 0) == 0; }
  }

  // Parities of a register, bit by bit: which of the last seven inputs each generator taps.

  lemma Taps(bits: seq<Bit>)
    requires bits != []
    ensures var r := Register(bits);
      && Coded(r, 0) == Odd(bits, 0, 3, 4, 5)
      && Coded(r, 1) == Odd(bits, 0, 1, 3, 4)
      && Coded(r, 2) == Odd(bits, 0, 2, 4, 5)
  {
    Window(bits);
    hide Register, StateAfter, Parity, Back;
    TapsAt(Register(bits), Back(bits, 0), Back(bits, 1), Back(bits, 2), Back(bits, 3), Back(bits, 4), Back(bits, 5),
           Back(bits, 6));
  }

  lemma TapsAt(r: nat, b0: Bit, b1: Bit, b2: Bit, b3: Bit, b4: Bit, b5: Bit, b6: Bit)
    requires r == b0 + 2 * b1 + 4 * b2 + 8 * b3 + 16 * b4 + 32 * b5 + 64 * b6
    ensures Coded(r, 0) == Xor(b0, Xor(b3, Xor(b4, Xor(b5, b6))))
    ensures Coded(r, 1) == Xor(b0, Xor(b1, Xor(b3, Xor(b4, b6))))
    ensures Coded(r, 2) == Xor(b0, Xor(b2, Xor(b4, Xor(b5, b6))))
  {
    hide Parity;
    var r5: nat := 2 * (b6 as int) + b5;
    var r4 := 2 * r5 + b4;
    var r3 := 2 * r4 + b3;
    var r2 := 2 * r3 + b2;
    var r1 := 2 * r2 + b1;
    TopTwo(b5, b6);
    ParityStep(r5, b4, 3, 1);
    ParityStep(r4, b3, 7, 1);
    ParityStep(r3, b2, 15, 0);
    ParityStep(r2, b1, 30, 0);
    ParityStep(r1, b0, 60, 1);
    ParityStep(r5, b4, 2, 1);
    ParityStep(r4, b3, 5, 1);
    ParityStep(r3, b2, 11, 0);
    ParityStep(r2, b1, 22, 1);
    ParityStep(r1, b0, 45, 1);
    ParityStep(r4, b3, 7, 0);
    ParityStep(r3, b2, 14, 1);
    ParityStep(r2, b1, 29, 0);
    ParityStep(r1, b0, 58, 1);
  }

  /** The oldest input, tapped by all three generators, and four others. */
  function Odd(bits: seq<Bit>, i: nat, j: nat, k: nat, l: nat): Bit {
    Xor(Back(bits, i), Xor(Back(bits, j), Xor(Back(bits, k), Xor(Back(bits, l), Back(bits, 6)))))
  }

  lemma TopTwo(b5: Bit, b6: Bit)
    ensures Parity(2 * b6 + b5, 3) == Xor(b5, b6) && Parity(2 * b6 + b5, 2) == b6
  {
    ParityStep(b6, b5, 1, 1);
    ParityStep(b6, b5, 1, 0);
    ParityStep(0, b6, 0, 1);
  }

  // -- distance ---------------------------------------------------------------------

  function Differ(a: seq<Bit>, b: seq<Bit>): nat
    requires |a| == |b|
  {
    if a == [] then 0
    else Differ(a[..|a| - 1], b[..|b| - 1]) + Xor(a[|a| - 1], b[|b| - 1])
  }

  lemma {:induction false} Triangle(a: seq<Bit>, b: seq<Bit>, c: seq<Bit>)
    requires |a| == |b| == |c|
    ensures Differ(a, c) <= Differ(a, b) + Differ(b, c)
    ensures Differ(a, b) == Differ(b, a)
  {
    if a != [] { Triangle(a[..|a| - 1], b[..|b| - 1], c[..|c| - 1]); }
  }

  lemma DifferMore(a: seq<Bit>, b: seq<Bit>, x: Bit, y: Bit)
    requires |a| == |b|
    ensures Differ(a + [x], b + [y]) == Differ(a, b) + Xor(x, y)
  {
    assert (a + [x])[..|a|] == a && (b + [y])[..|b|] == b;
  }

  lemma BitByBit(a: seq<Bit>, x: seq<Bit>)
    requires |x| == 3
    ensures a + x == a + [x[0]] + [x[1]] + [x[2]]
  {
  }

  lemma DifferBlock(a: seq<Bit>, b: seq<Bit>, x: seq<Bit>, y: seq<Bit>)
    requires |a| == |b| && |x| == |y| == 3
    ensures Differ(a + x, b + y) == Differ(a, b) + Xor(x[0], y[0]) + Xor(x[1], y[1]) + Xor(x[2], y[2])
  {
    hide Differ, Xor;
    BitByBit(a, x);
    BitByBit(b, y);
    var a1, b1 := a + [x[0]], b + [y[0]];
    var a2, b2 := a1 + [x[1]], b1 + [y[1]];
    DifferMore(a, b, x[0], y[0]);
    DifferMore(a1, b1, x[1], y[1]);
    DifferMore(a2, b2, x[2], y[2]);
  }

  /** In which of the last six inputs two sequences differ, newest first. */
  datatype Gap = Gap(d0: bool, d1: bool, d2: bool, d3: bool, d4: bool, d5: bool)

  const NONE := Gap(false, false, false, false, false, false)

  predicate Apart(a: seq<Bit>, b: seq<Bit>, j: nat) {
    Back(a, j) != Back(b, j)
  }

  function GapOf(a: seq<Bit>, b: seq<Bit>): Gap {
    Gap(Apart(a, b, 0), Apart(a, b, 1), Apart(a, b, 2), Apart(a, b, 3), Apart(a, b, 4), Apart(a, b, 5))
  }

  function One(b: bool): nat {
    if b then 1 else 0
  }

  /** How many coded bits differ as a gap takes in one more input, by linearity. */
  function Flips(g: Gap, e: bool): nat {
    var odd := e != g.d5;
    One(odd != (g.d2 != (g.d3 != g.d4))) + One(odd != (g.d0 != (g.d2 != g.d3))) + One(odd != (g.d1 != (g.d3 != g.d4)))
  }

  function Shifted(g: Gap, e: bool): Gap {
    Gap(e, g.d0, g.d1, g.d2, g.d3, g.d4)
  }

  lemma Linear(a: seq<Bit>, b: seq<Bit>)
    requires |a| == |b| > 0
    ensures var a', b', e := a[..|a| - 1], b[..|b| - 1], a[|a| - 1] != b[|b| - 1];
      && GapOf(a, b) == Shifted(GapOf(a', b'), e)
      && Differ(Encoded(a), Encoded(b)) == Differ(Encoded(a'), Encoded(b')) + Flips(GapOf(a', b'), e)
  {
    var a', b' := a[..|a| - 1], b[..|b| - 1];
    var r, s := Register(a), Register(b);
    BlockFlips(a, b);
    OlderBack(a);
    OlderBack(b);
    hide Differ, Register, Coded, Xor, Flips, Back;
    DifferBlock(Encoded(a'), Encoded(b'), [Coded(r, 0), Coded(r, 1), Coded(r, 2)],
        [Coded(s, 0), Coded(s, 1), Coded(s, 2)]);
  }

  lemma BlockFlips(a: seq<Bit>, b: seq<Bit>)
    requires |a| == |b| > 0
    ensures var r, s := Register(a), Register(b);
      Xor(Coded(r, 0), Coded(s, 0)) + Xor(Coded(r, 1), Coded(s, 1)) + Xor(Coded(r, 2), Coded(s, 2))
      == Flips(GapOf(a[..|a| - 1], b[..|b| - 1]), a[|a| - 1] != b[|b| - 1])
  {
    Taps(a);
    Taps(b);
    OlderBack(a);
    OlderBack(b);
    hide Register, Coded, Back, Xor;
    OddFlips(Back(a, 0), Back(b, 0), Back(a, 3), Back(b, 3), Back(a, 4), Back(b, 4), Back(a, 5), Back(b, 5),
        Back(a, 6), Back(b, 6));
    OddFlips(Back(a, 0), Back(b, 0), Back(a, 1), Back(b, 1), Back(a, 3), Back(b, 3), Back(a, 4), Back(b, 4),
        Back(a, 6), Back(b, 6));
    OddFlips(Back(a, 0), Back(b, 0), Back(a, 2), Back(b, 2), Back(a, 4), Back(b, 4), Back(a, 5), Back(b, 5),
        Back(a, 6), Back(b, 6));
  }

  lemma OddFlips(a0: Bit, b0: Bit, a1: Bit, b1: Bit, a2: Bit, b2: Bit, a3: Bit, b3: Bit, a4: Bit, b4: Bit)
    ensures Xor(Xor(a0, Xor(a1, Xor(a2, Xor(a3, a4)))), Xor(b0, Xor(b1, Xor(b2, Xor(b3, b4)))))
         == One((a0 != b0) != ((a4 != b4) != ((a1 != b1) != ((a2 != b2) != (a3 != b3)))))
  {
  }

  lemma OlderBack(a: seq<Bit>)
    requires a != []
    ensures var a' := a[..|a| - 1];
      && Back(a, 0) == a[|a| - 1] && Back(a, 1) == Back(a', 0) && Back(a, 2) == Back(a', 1) && Back(a, 3) == Back(a', 2)
      && Back(a, 4) == Back(a', 3) && Back(a, 5) == Back(a', 4) && Back(a, 6) == Back(a', 5)
  {
  }

  /** The fewest coded differences with which two sequences that have parted can show each gap. */
  function Fewest(g: Gap): (n: nat)
  {
    if g.d5 then
      if g.d4 then if g.d3 then Row(g, 9, 10, 10, 11, 10, 9, 9, 9)
                   else Row(g, 11, 10, 11, 10, 11, 10, 9, 10)
      else if g.d3 then Row(g, 11, 10, 9, 10, 10, 10, 10, 10)
           else Row(g, 12, 11, 10, 7, 9, 10, 9, 8)
    else
      if g.d4 then if g.d3 then Row(g, 10, 11, 9, 8, 8, 10, 8, 9)
                   else Row(g, 10, 7, 8, 7, 9, 8, 9, 10)
      else if g.d3 then Row(g, 7, 6, 7, 8, 9, 7, 8, 7)
           else Row(g, 15, 3, 4, 5, 5, 6, 7, 6)
  }

  function Row(g: Gap, n0: nat, n1: nat, n2: nat, n3: nat, n4: nat, n5: nat, n6: nat, n7: nat): nat {
    if g.d2 then if g.d1 then (if g.d0 then n7 else n6) else (if g.d0 then n5 else n4)
    else if g.d1 then (if g.d0 then n3 else n2) else (if g.d0 then n1 else n0)
  }

  /** No step out of a gap but the empty one costs less than the table says. */
  lemma Edge(g: Gap, e: bool)
    ensures Fewest(g) <= 15
    ensures g != NONE ==> Fewest(Shifted(g, e)) <= Fewest(g) + Flips(g, e)
  {
  }

  lemma {:induction false} Spread(a: seq<Bit>, b: seq<Bit>)
    requires |a| == |b| && a != b
    ensures Differ(Encoded(a), Encoded(b)) >= Fewest(GapOf(a, b))
    decreases |a|
  {
    var a', b', e := a[..|a| - 1], b[..|b| - 1], a[|a| - 1] != b[|b| - 1];
    Linear(a, b);
    var g := GapOf(a', b');
    if a' == b' {
      assert a == a' + [a[|a| - 1]] && b == b' + [b[|b| - 1]];
      assert g == NONE && e;
      Parting();
    } else {
      Spread(a', b');
      hide GapOf, Encoded, Differ, Fewest, Flips;
      Edge(g, e);
      Edge(Shifted(g, e), e);
      Parting();
    }
  }

  lemma Parting()
    ensures Fewest(NONE) == 15 && Fewest(Shifted(NONE, true)) == 3 && Flips(NONE, true) == 3
  {
  }

  /** The free distance: terminated inputs that differ at all differ in fifteen coded bits. */
  lemma Distance(a: seq<Bit>, b: seq<Bit>)
    requires |a| == |b| && a != b && StateAfter(a) == 0 && StateAfter(b) == 0
    ensures Differ(Encoded(a), Encoded(b)) >= 15
  {
    Terminated(a);
    Terminated(b);
    Spread(a, b);
    Parting();
    assert GapOf(a, b) == NONE;
  }
}
