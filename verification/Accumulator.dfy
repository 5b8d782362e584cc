/**
 The max-log forward-backward decoder of the accumulator p[i] = p[i-1] xor x[i]. Values are exact
 reals; alpha starts at minus infinity in the state that cannot be the first.
 */
module Accumulator {
  import opened Common

  /** The last accumulator output after a list of inputs. */
  function Parity(x: seq<Bit>): Bit {
    if x == [] then 0 else Xor(Parity(x[..|x| - 1]), x[|x| - 1])
  }

  /** Half a log-likelihood ratio, for or against the bit zero. */
  function Half(llr: real, b: Bit): real {
    if b == 0 then llr / 2.0 else -(llr / 2.0)
  }

  datatype Ratios = Ratios(channel: seq<real>, prior: seq<real>) {
    ghost predicate Valid() { |channel| >= |prior| }
    function Length(): nat { |prior| }
  }

  /** What a beginning of the input scores: priors on inputs, channel values on outputs. */
  function Score(r: Ratios, x: seq<Bit>): real
    requires r.Valid() && |x| <= r.Length()
  {
    if x == [] then 0.0
    else
      var i := |x| - 1;
      Score(r, x[..i]) + Half(r.prior[i], x[i]) + Half(r.channel[i], Parity(x))
  }

  /** What the rest of the input scores from position `i` on, the accumulator standing at `s`. */
  function Rest(r: Ratios, y: seq<Bit>, i: nat, s: Bit): real
    requires r.Valid() && i + |y| <= r.Length()
    decreases |y|
  {
    if y == [] then 0.0
    else Half(r.prior[i], y[0]) + Half(r.channel[i], Xor(s, y[0])) + Rest(r, y[1..], i + 1, Xor(s, y[0]))
  }

  /** A whole input's score without the prior of position `i`. */
  function Extrinsic(r: Ratios, x: seq<Bit>, i: nat): real
    requires r.Valid() && |x| == r.Length() && i < |x|
  {
    Score(r, x) - Half(r.prior[i], x[i])
  }

  /** The best extrinsic score of an input with bit `b` at position `i`. */
  ghost predicate Best(r: Ratios, i: nat, b: Bit, v: real)
    requires r.Valid() && i < r.Length()
  {
    && (exists x: seq<Bit> :: |x| == r.Length() && x[i] == b && Extrinsic(r, x, i) == v)
    && (forall x: seq<Bit> :: |x| == r.Length() && x[i] == b ==> Extrinsic(r, x, i) <= v)
  }

  // -- forward -----------------------------------------------------------------------

  datatype Level = Finite(value: real) | Minus {
    function Plus(d: real): Level {
      if Finite? then Finite(value + d) else Minus
    }
  }

  function Larger(a: Level, b: Level): Level {
    if a.Minus? then b else if b.Minus? then a else Finite(Greater(a.value, b.value))
  }

  function Greater(a: real, b: real): real {
    if a < b then b else a
  }

  /** The best score of `i` inputs that leave the accumulator at `s`. */
  function Forward(r: Ratios, i: nat, s: Bit): (v: Level)
    requires r.Valid() && i <= r.Length()
    ensures i > 0 || s == 0 ==> v.Finite?
  {
    if i == 0 then (if s == 0 then Finite(0.0) else Minus)
    else
      var lp, lc := r.prior[i - 1], Half(r.channel[i - 1], s);
      Larger(Forward(r, i - 1, s).Plus(Half(lp, 0) + lc), Forward(r, i - 1, 1 - s).Plus(Half(lp, 1) + lc))
  }

  lemma {:induction false} ForwardBounds(r: Ratios, x: seq<Bit>)
    requires r.Valid() && |x| <= r.Length()
    ensures var v := Forward(r, |x|, Parity(x)); v.Finite? && Score(r, x) <= v.value
    decreases |x|
  {
    if x != [] {
      var init := x[..|x| - 1];
      ForwardBounds(r, init);
      assert Parity(init) == if x[|x| - 1] == 0 then Parity(x) else 1 - Parity(x);
    }
  }

  lemma {:induction false} ForwardAttained(r: Ratios, i: nat, s: Bit) returns (x: seq<Bit>)
    requires r.Valid() && i <= r.Length() && Forward(r, i, s).Finite?
    ensures |x| == i && Parity(x) == s && Score(r, x) == Forward(r, i, s).value
  {
    if i == 0 {
      x := [];
    } else {
      var lp, lc := r.prior[i - 1], Half(r.channel[i - 1], s);
      var stay := Forward(r, i - 1, s).Plus(Half(lp, 0) + lc);
      var b: Bit := if Forward(r, i, s) == stay then 0 else 1;
      var init := ForwardAttained(r, i - 1, Xor(s, b));
      x := init + [b];
      assert x[..i - 1] == init;
    }
  }

  // -- backward ----------------------------------------------------------------------

  /** The best score of the inputs from `i` on, the accumulator standing at `s`. */
  function Backward(r: Ratios, i: nat, s: Bit): real
    requires r.Valid() && i <= r.Length()
    decreases r.Length() - i
  {
    if i == r.Length() then 0.0
    else
      Greater(Backward(r, i + 1, s) + Half(r.prior[i], 0) + Half(r.channel[i], s),
              Backward(r, i + 1, 1 - s) + Half(r.prior[i], 1) + Half(r.channel[i], 1 - s))
  }

  lemma {:induction false} BackwardBounds(r: Ratios, y: seq<Bit>, i: nat, s: Bit)
    requires r.Valid() && i + |y| == r.Length()
    ensures Rest(r, y, i, s) <= Backward(r, i, s)
    decreases |y|
  {
    if y != [] { BackwardBounds(r, y[1..], i + 1, Xor(s, y[0])); }
  }

  lemma {:induction false} BackwardAttained(r: Ratios, i: nat, s: Bit) returns (y: seq<Bit>)
    requires r.Valid() && i <= r.Length()
    ensures i + |y| == r.Length() && Rest(r, y, i, s) == Backward(r, i, s)
    decreases r.Length() - i
  {
    if i == r.Length() {
      y := [];
    } else {
      var stay := Backward(r, i + 1, s) + Half(r.prior[i], 0) + Half(r.channel[i], s);
      var b: Bit := if Backward(r, i, s) == stay then 0 else 1;
      var rest := BackwardAttained(r, i + 1, Xor(s, b));
      y := [b] + rest;
      assert y[1..] == rest;
    }
  }

  // -- the two together --------------------------------------------------------------

  lemma {:induction false} ScoreSplits(r: Ratios, x: seq<Bit>, y: seq<Bit>)
    requires r.Valid() && |x| + |y| <= r.Length()
    ensures Score(r, x + y) == Score(r, x) + Rest(r, y, |x|, Parity(x))
    decreases |y|
  {
    if y == [] {
      assert x + y == x;
    } else {
      var x' := x + [y[0]];
      assert x'[..|x|] == x;
      assert x + y == x' + y[1..];
      ScoreSplits(r, x', y[1..]);
    }
  }

  /** The best score with bit `b` at `i` and the accumulator at `s` before it. */
  function Via(r: Ratios, i: nat, s: Bit, b: Bit): Level
    requires r.Valid() && i < r.Length()
  {
    Forward(r, i, s).Plus(Backward(r, i + 1, Xor(s, b)) + Half(r.channel[i], Xor(s, b)))
  }

  function Top(r: Ratios, i: nat, b: Bit): (v: Level)
    requires r.Valid() && i < r.Length()
    ensures v.Finite?
  {
    Larger(Via(r, i, 0, b), Via(r, i, 1, b))
  }

  lemma ExtrinsicSplits(r: Ratios, u: seq<Bit>, b: Bit, v: seq<Bit>)
    requires r.Valid() && |u| + 1 + |v| == r.Length()
    ensures var s := Parity(u);
      Extrinsic(r, u + [b] + v, |u|) == Score(r, u) + Half(r.channel[|u|], Xor(s, b)) + Rest(r, v, |u| + 1, Xor(s, b))
  {
    assert u + [b] + v == u + ([b] + v);
    ScoreSplits(r, u, [b] + v);
    assert ([b] + v)[1..] == v;
  }

  lemma TopBounds(r: Ratios, i: nat, x: seq<Bit>)
    requires r.Valid() && i < r.Length() == |x|
    ensures Extrinsic(r, x, i) <= Top(r, i, x[i]).value
  {
    assert x == x[..i] + [x[i]] + x[i + 1..];
    ExtrinsicSplits(r, x[..i], x[i], x[i + 1..]);
    ForwardBounds(r, x[..i]);
    BackwardBounds(r, x[i + 1..], i + 1, Xor(Parity(x[..i]), x[i]));
  }

  lemma TopAttained(r: Ratios, i: nat, b: Bit) returns (x: seq<Bit>)
    requires r.Valid() && i < r.Length()
    ensures |x| == r.Length() && x[i] == b && Extrinsic(r, x, i) == Top(r, i, b).value
  {
    var s: Bit := if Top(r, i, b) == Via(r, i, 0, b) then 0 else 1;
    var u := ForwardAttained(r, i, s);
    var v := BackwardAttained(r, i + 1, Xor(s, b));
    ExtrinsicSplits(r, u, b, v);
    x := u + [b] + v;
  }

  lemma TopIsBest(r: Ratios, i: nat, b: Bit)
    requires r.Valid() && i < r.Length()
    ensures Best(r, i, b, Top(r, i, b).value)
  {
    var w := TopAttained(r, i, b);
    forall x: seq<Bit> | |x| == r.Length() && x[i] == b
      ensures Extrinsic(r, x, i) <= Top(r, i, b).value
    {
      TopBounds(r, i, x);
    }
  }

  // -- the in-place passes -------------------------------------------------------------

  function Clip(v: real): real {
    if v < -40.0 then -40.0 else if v > 40.0 then 40.0 else v
  }

  /** The unclipped output: the best score with a zero at `i` less the best with a one. */
  function Llr(r: Ratios, i: nat): real
    requires r.Valid() && i < r.Length()
  {
    Top(r, i, 0).value - Top(r, i, 1).value
  }

  /** Row `i` holds the forward recursion, up to the shift the normalisations have added up to. */
  ghost predicate ForwardRow(r: Ratios, i: nat, alpha: array2<Level>, shift: real)
    requires r.Valid() && i <= r.Length() && i < alpha.Length0 && alpha.Length1 == 2
    reads alpha
  {
    alpha[i, 0] == Forward(r, i, 0).Plus(shift) && alpha[i, 1] == Forward(r, i, 1).Plus(shift)
  }

  ghost predicate BackwardRow(r: Ratios, i: nat, beta: array2<real>, shift: real)
    requires r.Valid() && i <= r.Length() && i < beta.Length0 && beta.Length1 == 2
    reads beta
  {
    beta[i, 0] == Backward(r, i, 0) + shift && beta[i, 1] == Backward(r, i, 1) + shift
  }

  method ForwardPass(r: Ratios) returns (alpha: array2<Level>, ghost shift: seq<real>)
    requires r.Valid()
    ensures fresh(alpha) && alpha.Length0 == r.Length() + 1 && alpha.Length1 == 2 && |shift| == r.Length() + 1
    ensures forall i :: 0 <= i <= r.Length() ==> ForwardRow(r, i, alpha, shift[i])
  {
    var m := r.Length();
    alpha := new Level[m + 1, 2]((i, s) => Minus);
    alpha[0, 0] := Finite(0.0);
    shift := [0.0];
    for i := 0 to m
      invariant |shift| == i + 1
      invariant forall k :: 0 <= k <= i ==> ForwardRow(r, k, alpha, shift[k])
    {
      var a0, a1 := alpha[i, 0], alpha[i, 1];
      var lp, lc := r.prior[i] / 2.0, r.channel[i] / 2.0;
      var n0 := Larger(a0.Plus(lp + lc), a1.Plus(-lp + lc));
      var n1 := Larger(a0.Plus(-lp - lc), a1.Plus(lp - lc));
      var top := Larger(n0, n1);
      ForwardShifts(r, i, a0, a1, shift[i]);
      alpha[i + 1, 0], alpha[i + 1, 1] := n0.Plus(-top.value), n1.Plus(-top.value);
      shift := shift + [shift[i] - top.value];
    }
  }

  /** One step of the recursion commutes with a shift of both levels. */
  lemma ForwardShifts(r: Ratios, i: nat, a0: Level, a1: Level, shift: real)
    requires r.Valid() && i < r.Length()
    requires a0 == Forward(r, i, 0).Plus(shift) && a1 == Forward(r, i, 1).Plus(shift)
    ensures var lp, lc := r.prior[i] / 2.0, r.channel[i] / 2.0;
      && Larger(a0.Plus(lp + lc), a1.Plus(-lp + lc)) == Forward(r, i + 1, 0).Plus(shift)
      && Larger(a0.Plus(-lp - lc), a1.Plus(lp - lc)) == Forward(r, i + 1, 1).Plus(shift)
  {
  }

  method BackwardPass(r: Ratios) returns (beta: array2<real>, ghost shift: seq<real>)
    requires r.Valid()
    ensures fresh(beta) && beta.Length0 == r.Length() + 1 && beta.Length1 == 2 && |shift| == r.Length() + 1
    ensures forall i :: 0 <= i <= r.Length() ==> BackwardRow(r, i, beta, shift[i])
  {
    var m := r.Length();
    beta := new real[m + 1, 2]((i, s) => 0.0);
    shift := seq(m + 1, i => 0.0);
    for i := m downto 0
      invariant |shift| == m + 1
      invariant forall k :: i <= k <= m ==> BackwardRow(r, k, beta, shift[k])
    {
      var b0, b1 := beta[i + 1, 0], beta[i + 1, 1];
      var lp, lc := r.prior[i] / 2.0, r.channel[i] / 2.0;
      var n0 := Greater(b0 + lp + lc, b1 - lp - lc);
      var n1 := Greater(b0 - lp + lc, b1 + lp - lc);
      var top := Greater(n0, n1);
      BackwardShifts(r, i, b0, b1, shift[i + 1]);
      beta[i, 0], beta[i, 1] := n0 - top, n1 - top;
      shift := shift[i := shift[i + 1] - top];
    }
  }

  lemma BackwardShifts(r: Ratios, i: nat, b0: real, b1: real, shift: real)
    requires r.Valid() && i < r.Length()
    requires b0 == Backward(r, i + 1, 0) + shift && b1 == Backward(r, i + 1, 1) + shift
    ensures var lp, lc := r.prior[i] / 2.0, r.channel[i] / 2.0;
      && Greater(b0 + lp + lc, b1 - lp - lc) == Backward(r, i, 0) + shift
      && Greater(b0 - lp + lc, b1 + lp - lc) == Backward(r, i, 1) + shift
  {
  }

  /** The extrinsic ratios of every input, clipped; the two normalisations cancel. */
  method Siso(r: Ratios) returns (out: seq<real>)
    requires r.Valid()
    ensures |out| == r.Length() && forall i :: 0 <= i < |out| ==> out[i] == Clip(Llr(r, i))
  {
    var alpha, shiftA := ForwardPass(r);
    var beta, shiftB := BackwardPass(r);
    var res := new real[r.Length()];
    for i := 0 to r.Length()
      modifies res
      invariant forall k :: 0 <= k < i ==> res[k] == Clip(Llr(r, k))
    {
      var a0, a1 := alpha[i, 0], alpha[i, 1];
      var b0, b1, lc := beta[i + 1, 0], beta[i + 1, 1], r.channel[i] / 2.0;
      var zero := Larger(a0.Plus(b0 + lc), a1.Plus(b1 - lc));
      var one := Larger(a0.Plus(b1 - lc), a1.Plus(b0 + lc));
      ShiftsCancel(r, i, a0, a1, b0, b1, shiftA[i], shiftB[i + 1]);
      res[i] := Clip(zero.value - one.value);
    }
    return res[..];
  }

  lemma ShiftsCancel(r: Ratios, i: nat, a0: Level, a1: Level, b0: real, b1: real, sa: real, sb: real)
    requires r.Valid() && i < r.Length()
    requires a0 == Forward(r, i, 0).Plus(sa) && a1 == Forward(r, i, 1).Plus(sa)
    requires b0 == Backward(r, i + 1, 0) + sb && b1 == Backward(r, i + 1, 1) + sb
    ensures var lc := r.channel[i] / 2.0;
      && Larger(a0.Plus(b0 + lc), a1.Plus(b1 - lc)) == Top(r, i, 0).Plus(sa + sb)
      && Larger(a0.Plus(b1 - lc), a1.Plus(b0 + lc)) == Top(r, i, 1).Plus(sa + sb)
  {
    hide Forward, Backward;
  }

  /** What the pass returns: a difference of two maxima over whole inputs. */
  lemma SisoMeans(r: Ratios, i: nat)
    requires r.Valid() && i < r.Length()
    ensures exists zero, one :: Best(r, i, 0, zero) && Best(r, i, 1, one) && Llr(r, i) == zero - one
  {
    TopIsBest(r, i, 0);
    TopIsBest(r, i, 1);
  }

  // -- sign preservation ---------------------------------------------------------------

  /** A ratio that speaks for bit `b`, or at least not against it. */
  predicate Favours(llr: real, b: Bit) {
    if b == 0 then llr > 0.0 else llr < 0.0
  }

  predicate Leans(llr: real, b: Bit) {
    if b == 0 then llr >= 0.0 else llr <= 0.0
  }

  /** No prior is against the input, and every channel value favours the accumulated output. */
  ghost predicate Favoured(r: Ratios, x: seq<Bit>) {
    && r.Valid() && |x| == r.Length()
    && (forall i :: 0 <= i < |x| ==> Leans(r.prior[i], x[i]))
    && (forall i :: 0 <= i < |x| ==> Favours(r.channel[i], Parity(x[..i + 1])))
  }

  predicate OutputsDiffer(x: seq<Bit>, y: seq<Bit>, j: nat)
    requires j < |x| == |y|
  {
    Parity(y[..j + 1]) != Parity(x[..j + 1])
  }

  /** Against a favoured input no other scores more, and one with another output scores less. */
  lemma {:induction false} FavouredWins(r: Ratios, x: seq<Bit>, y: seq<Bit>, n: nat)
    requires Favoured(r, x) && |y| == |x| && n <= |x|
    ensures Score(r, y[..n]) <= Score(r, x[..n])
    ensures (exists j :: 0 <= j < n && OutputsDiffer(x, y, j)) ==> Score(r, y[..n]) < Score(r, x[..n])
  {
    if n > 0 {
      FavouredWins(r, x, y, n - 1);
      assert y[..n][..n - 1] == y[..n - 1] && x[..n][..n - 1] == x[..n - 1];
      assert Leans(r.prior[n - 1], x[n - 1]) && Favours(r.channel[n - 1], Parity(x[..n - 1 + 1]));
    }
  }

  function Unprimed(r: Ratios, i: nat): Ratios
    requires i < r.Length()
  {
    Ratios(r.channel, r.prior[i := 0.0])
  }

  lemma {:induction false} ScoreUnprimed(r: Ratios, x: seq<Bit>, i: nat)
    requires r.Valid() && |x| <= r.Length() && i < r.Length()
    ensures Score(Unprimed(r, i), x) == Score(r, x) - (if i < |x| then Half(r.prior[i], x[i]) else 0.0)
    decreases |x|
  {
    if x != [] { ScoreUnprimed(r, x[..|x| - 1], i); }
  }

  /** Changing an input changes its own output or the one before. */
  lemma InputShows(x: seq<Bit>, y: seq<Bit>, i: nat)
    requires i < |x| == |y| && x[i] != y[i]
    ensures OutputsDiffer(x, y, i) || (i > 0 && OutputsDiffer(x, y, i - 1))
  {
    assert x[..i + 1][..i] == x[..i] && y[..i + 1][..i] == y[..i];
  }

  lemma SignKept(r: Ratios, x: seq<Bit>, i: nat)
    requires Favoured(r, x) && i < |x|
    ensures Favours(Clip(Llr(r, i)), x[i])
  {
    var b: Bit := 1 - x[i];
    var y := TopAttained(r, i, b);
    TopBounds(r, i, x);
    ScoreUnprimed(r, x, i);
    ScoreUnprimed(r, y, i);
    InputShows(x, y, i);
    var u := Unprimed(r, i);
    assert Favoured(u, x);
    FavouredWins(u, x, y, |x|);
    assert x[..|x|] == x && y[..|x|] == y;
  }

  // -- how much each ratio counts ------------------------------------------------------

  /** How far a ratio speaks for bit `b`. */
  function Slant(llr: real, b: Bit): real {
    if b == 0 then llr else -llr
  }

  function Abs(v: real): real {
    if v < 0.0 then -v else v
  }

  /** Clipping takes the nearest value of magnitude at most forty. */
  lemma ClipNearest(v: real, w: real)
    requires Abs(w) <= 40.0
    ensures Abs(Clip(v)) <= 40.0 && Abs(v - Clip(v)) <= Abs(v - w)
  {
  }

  /** A prior counts half, for or against its input. */
  lemma {:induction false} PriorWeighs(r: Ratios, x: seq<Bit>, j: nat, more: real)
    requires r.Valid() && |x| <= r.Length() && j < r.Length()
    ensures Score(r.(prior := r.prior[j := r.prior[j] + more]), x)
         == Score(r, x) + if j < |x| then Half(more, x[j]) else 0.0
    decreases |x|
  {
    if x != [] { PriorWeighs(r, x[..|x| - 1], j, more); }
  }

  /** A channel value counts half, for or against the output at its position. */
  lemma {:induction false} ChannelWeighs(r: Ratios, x: seq<Bit>, j: nat, more: real)
    requires r.Valid() && |x| <= r.Length() && j < r.Length()
    ensures Score(r.(channel := r.channel[j := r.channel[j] + more]), x)
         == Score(r, x) + if j < |x| then Half(more, Parity(x[..j + 1])) else 0.0
    decreases |x|
  {
    if x != [] {
      var n := |x| - 1;
      ChannelWeighs(r, x[..n], j, more);
      if j < n { assert x[..n][..j + 1] == x[..j + 1]; } else { assert x[..n + 1] == x; }
    }
  }

  // -- priors outvoted -----------------------------------------------------------------

  /** No prior speaks against the input by more than `s`, and every channel value for its output by `p`. */
  ghost predicate Outvoted(r: Ratios, x: seq<Bit>, s: real, p: real) {
    && r.Valid() && |x| == r.Length()
    && (forall i :: 0 <= i < |x| ==> Slant(r.prior[i], x[i]) >= -s)
    && (forall i :: 0 <= i < |x| ==> Slant(r.channel[i], Parity(x[..i + 1])) >= p)
  }

  /**
   What the right input is ahead by: every run of wrong outputs begins and ends with a wrong input, and
   one of these may be the input whose own prior is left out.
   */
  function Lead(seen: bool, apart: bool, s: real, p: real): real {
    if seen then (if apart then p else p - s) else if apart then p - s else 0.0
  }

  lemma {:induction false} Leads(r: Ratios, x: seq<Bit>, y: seq<Bit>, i: nat, s: real, p: real, n: nat)
    requires Outvoted(r, x, s, p) && 0.0 <= 2.0 * s <= p && i < |x| == |y| && x[i] != y[i] && n <= |x|
    ensures Score(Unprimed(r, i), x[..n]) - Score(Unprimed(r, i), y[..n])
         >= Lead(i < n, Parity(x[..n]) != Parity(y[..n]), s, p)
    decreases n
  {
    if n > 0 {
      Leads(r, x, y, i, s, p, n - 1);
      assert y[..n][..n - 1] == y[..n - 1] && x[..n][..n - 1] == x[..n - 1];
      assert Slant(r.prior[n - 1], x[n - 1]) >= -s && Slant(r.channel[n - 1], Parity(x[..n - 1 + 1])) >= p;
      hide Outvoted;
      LeadGrows(r, x[..n], y[..n], i, s, p);
    }
  }

  lemma LeadGrows(r: Ratios, x: seq<Bit>, y: seq<Bit>, i: nat, s: real, p: real)
    requires r.Valid() && 0 < |x| == |y| <= r.Length() && i < r.Length() && 0.0 <= 2.0 * s <= p
    requires |x| - 1 == i ==> x[i] != y[i]
    requires var n := |x| - 1;
      && Slant(r.prior[n], x[n]) >= -s && Slant(r.channel[n], Parity(x)) >= p
      && Score(Unprimed(r, i), x[..n]) - Score(Unprimed(r, i), y[..n])
         >= Lead(i < n, Parity(x[..n]) != Parity(y[..n]), s, p)
    ensures Score(Unprimed(r, i), x) - Score(Unprimed(r, i), y) >= Lead(i < |x|, Parity(x) != Parity(y), s, p)
  {
    var n, u := |x| - 1, Unprimed(r, i);
    ScoreLast(u, x);
    ScoreLast(u, y);
    ParityLast(x);
    ParityLast(y);
    hide Score, Parity;
  }

  lemma ScoreLast(r: Ratios, x: seq<Bit>)
    requires r.Valid() && 0 < |x| <= r.Length()
    ensures var n := |x| - 1; Score(r, x) == Score(r, x[..n]) + Half(r.prior[n], x[n]) + Half(r.channel[n], Parity(x))
  {
  }

  lemma ParityLast(x: seq<Bit>)
    requires x != []
    ensures Parity(x) == Xor(Parity(x[..|x| - 1]), x[|x| - 1])
  {
  }

  /** The ratio put out speaks for its input by what the channel values do less what a prior may cost. */
  lemma Overrules(r: Ratios, x: seq<Bit>, i: nat, s: real, p: real)
    requires Outvoted(r, x, s, p) && 0.0 <= 2.0 * s <= p && i < |x|
    ensures Slant(Clip(Llr(r, i)), x[i]) >= if p - s < 40.0 then p - s else 40.0
  {
    var b: Bit := 1 - x[i];
    var y := TopAttained(r, i, b);
    TopBounds(r, i, x);
    ScoreUnprimed(r, x, i);
    ScoreUnprimed(r, y, i);
    Leads(r, x, y, i, s, p, |x|);
    assert x[..|x|] == x && y[..|x|] == y;
    hide Top, Score, Parity, Outvoted;
  }
}
