/**
 The soft-decision Viterbi decoder for the code of module Convolution. Soft values are exact reals,
 positive for a coded zero. The decoder returns a cheapest path of the trellis from state zero to
 state zero, and so undoes any seven flipped signs in a terminated codeword.
 */
module Viterbi {
  import opened Common
  import opened Convolution

  /** A path metric: infinite while no path reaches the state. */
  datatype Metric = Finite(value: real) | Infinite {
    function Plus(cost: real): Metric {
      if Finite? then Finite(value + cost) else Infinite
    }

    predicate Below(other: Metric) {
      Finite? && (other.Finite? ==> value < other.value)
    }
  }

  function Signed(coded: Bit, soft: real): real {
    (if coded == 1 then 1.0 else -1.0) * soft
  }

  /** What the step through `register` costs against the `at`-th received triple. */
  function Branch(register: nat, soft: seq<real>, at: nat): real
    requires 3 * at + 3 <= |soft|
  {
    Signed(Coded(register, 0), soft[3 * at]) + Signed(Coded(register, 1), soft[3 * at + 1])
    + Signed(Coded(register, 2), soft[3 * at + 2])
  }

  function Cost(bits: seq<Bit>, soft: seq<real>): real
    requires 3 * |bits| <= |soft|
  {
    if bits == [] then 0.0
    else Cost(bits[..|bits| - 1], soft) + Branch(Register(bits), soft, |bits| - 1)
  }

  /** A cheapest input among those that take the encoder from state zero back to state zero. */
  ghost predicate Cheapest(bits: seq<Bit>, soft: seq<real>)
    requires 3 * |bits| <= |soft|
  {
    && StateAfter(bits) == 0
    && forall other: seq<Bit> :: |other| == |bits| && StateAfter(other) == 0 ==> Cost(bits, soft) <= Cost(other, soft)
  }

  // -- what a path costs ----------------------------------------------------------------

  /** How well a codeword agrees with what was received: its correlation with the soft values, zero counting as one. */
  function Agreement(code: seq<Bit>, soft: seq<real>): real
    requires |code| <= |soft|
  {
    if code == [] then 0.0
    else
      var last := |code| - 1;
      Agreement(code[..last], soft) + if code[last] == 0 then soft[last] else -soft[last]
  }

  /** A soft value weighs just what it is: for a coded zero, and against a coded one. */
  lemma {:induction false} Weighs(code: seq<Bit>, soft: seq<real>, j: nat, more: real)
    requires j < |code| <= |soft|
    ensures Agreement(code, soft[j := soft[j] + more])
         == Agreement(code, soft) + if code[j] == 0 then more else -more
    decreases |code|
  {
    if j < |code| - 1 {
      Weighs(code[..|code| - 1], soft, j, more);
    } else {
      Beyond(code[..j], soft, j, soft[j] + more);
    }
  }

  /** A codeword has nothing to do with what is received after it. */
  lemma {:induction false} Beyond(code: seq<Bit>, soft: seq<real>, j: nat, other: real)
    requires |code| <= j < |soft|
    ensures Agreement(code, soft[j := other]) == Agreement(code, soft)
    decreases |code|
  {
    if code != [] { Beyond(code[..|code| - 1], soft, j, other); }
  }

  /** What agrees with nothing received weighs nothing. */
  lemma {:induction false} Unreceived(code: seq<Bit>, soft: seq<real>)
    requires |code| <= |soft| && forall j :: 0 <= j < |code| ==> soft[j] == 0.0
    ensures Agreement(code, soft) == 0.0
    decreases |code|
  {
    if code != [] { Unreceived(code[..|code| - 1], soft); }
  }

  /** A path costs as much as its codeword disagrees with what was received. */
  lemma {:induction false} CostDisagrees(bits: seq<Bit>, soft: seq<real>)
    requires 3 * |bits| <= |soft|
    ensures Cost(bits, soft) == -Agreement(Encoded(bits), soft)
    decreases |bits|
  {
    if bits != [] {
      var init, r := bits[..|bits| - 1], Register(bits);
      CostDisagrees(init, soft);
      hide Register, Coded;
      Triples(Encoded(init), Coded(r, 0), Coded(r, 1), Coded(r, 2), soft);
    }
  }

  lemma Triples(code: seq<Bit>, a: Bit, b: Bit, c: Bit, soft: seq<real>)
    requires |code| + 3 <= |soft|
    ensures var n := |code|;
      Agreement(code + [a, b, c], soft)
        == Agreement(code, soft) - (Signed(a, soft[n]) + Signed(b, soft[n + 1]) + Signed(c, soft[n + 2]))
  {
    AgreesMore(code, a, soft);
    AgreesMore(code + [a], b, soft);
    AgreesMore(code + [a] + [b], c, soft);
    assert code + [a, b, c] == code + [a] + [b] + [c];
  }

  lemma AgreesMore(code: seq<Bit>, a: Bit, soft: seq<real>)
    requires |code| < |soft|
    ensures Agreement(code + [a], soft) == Agreement(code, soft) - Signed(a, soft[|code|])
  {
    assert (code + [a])[..|code|] == code;
  }

  /** A terminated input whose codeword agrees best of all with what was received. */
  ghost predicate AgreesBest(bits: seq<Bit>, soft: seq<real>)
    requires 3 * |bits| <= |soft|
  {
    && ZeroTail(bits)
    && forall other: seq<Bit> :: |other| == |bits| && ZeroTail(other) ==>
         Agreement(Encoded(other), soft) <= Agreement(Encoded(bits), soft)
  }

  lemma CheapestAgrees(bits: seq<Bit>, soft: seq<real>)
    requires 3 * |bits| <= |soft|
    ensures Cheapest(bits, soft) <==> AgreesBest(bits, soft)
  {
    hide Cost, Agreement, Encoded, StateAfter, ZeroTail;
    Terminated(bits);
    CostDisagrees(bits, soft);
    forall other: seq<Bit> | |other| == |bits|
      ensures StateAfter(other) == 0 <==> ZeroTail(other)
      ensures Cost(other, soft) == -Agreement(Encoded(other), soft)
    {
      Terminated(other);
      CostDisagrees(other, soft);
    }
  }

  // -- one step of the recursion -----------------------------------------------------

  type Metrics = seq<Metric>
  type Links = seq<nat>

  function Start(): (m: Metrics)
    ensures |m| == STATES
  {
    seq(STATES, i => if i == 0 then Finite(0.0) else Infinite)
  }

  /** The metric with which a predecessor would reach state `nxt`. */
  function Through(prior: Metrics, nxt: nat, branch: Bit, soft: seq<real>, at: nat): Metric
    requires nxt < STATES == |prior| && 3 * at + 3 <= |soft|
  {
    var p := nxt / 2 + 32 * branch;
    prior[p].Plus(Branch(2 * p + nxt % 2, soft, at))
  }

  /** State `nxt` takes the cheaper of its two predecessors, the lower one on a tie. */
  predicate Settles(prior: Metrics, nxt: nat, metric: Metric, link: nat, soft: seq<real>, at: nat)
    requires nxt < STATES == |prior| && 3 * at + 3 <= |soft|
  {
    var m0, m1 := Through(prior, nxt, 0, soft, at), Through(prior, nxt, 1, soft, at);
    if m1.Below(m0) then metric == m1 && link == nxt / 2 + 32
    else metric == m0 && (m0.Finite? ==> link == nxt / 2)
  }

  /** Metrics after every step, and the predecessor each state chose at every step. */
  ghost predicate Survivors(hist: seq<Metrics>, links: seq<Links>, soft: seq<real>)
  {
    && (forall t :: 0 <= t < |hist| ==> |hist[t]| == STATES) && (forall t :: 0 <= t < |links| ==> |links[t]| == STATES)
    && |hist| == |links| + 1 && 3 * |links| <= |soft| && hist[0] == Start()
    && forall t, s :: 0 <= t < |links| && 0 <= s < STATES ==> Settles(hist[t], s, hist[t + 1][s], links[t][s], soft, t)
  }

  // -- what the recursion means -------------------------------------------------------

  lemma Predecessor(bits: seq<Bit>)
    requires bits != []
    ensures var p, s, b := StateAfter(bits[..|bits| - 1]), StateAfter(bits), bits[|bits| - 1];
      && s % 2 == b && (p == s / 2 || p == s / 2 + 32) && Register(bits) == 2 * p + b
  {
    var p := StateAfter(bits[..|bits| - 1]);
    Halving(p, bits[|bits| - 1]);
    hide Register;
  }

  lemma Halving(p: nat, b: Bit)
    requires p < STATES
    ensures var s := (2 * p + b) % STATES; s % 2 == b && (p == s / 2 || p == s / 2 + 32)
  {
    if p < 32 {
      assert (2 * p + b) % STATES == 2 * p + b;
    } else {
      assert (2 * p + b) % STATES == 2 * (p - 32) + b;
    }
  }

  lemma Successor(bits: seq<Bit>, s: nat)
    requires bits != [] && s < STATES && bits[|bits| - 1] == s % 2
    requires StateAfter(bits[..|bits| - 1]) == s / 2 || StateAfter(bits[..|bits| - 1]) == s / 2 + 32
    ensures StateAfter(bits) == s && Register(bits) == 2 * StateAfter(bits[..|bits| - 1]) + s % 2
  {
    assert 2 * (s / 2) + s % 2 == s;
  }

  /** No path to a state is cheaper than its metric. */
  lemma {:induction false} NoneCheaper(hist: seq<Metrics>, links: seq<Links>, soft: seq<real>, bits: seq<Bit>)
    requires Survivors(hist, links, soft) && |bits| <= |links|
    ensures var m := hist[|bits|][StateAfter(bits)];
      m.Finite? && m.value <= Cost(bits, soft)
    decreases |bits|
  {
    if bits != [] {
      var t := |bits| - 1;
      var init := bits[..t];
      NoneCheaper(hist, links, soft, init);
      Predecessor(bits);
      var s := StateAfter(bits);
      hide StateAfter, Register, Branch;
      assert Settles(hist[t], s, hist[t + 1][s], links[t][s], soft, t);
    }
  }

  /** The path the links spell out, read backwards from a state. */
  function Traced(links: seq<Links>, t: nat, s: nat): (bits: seq<Bit>)
    requires t <= |links| && s < STATES && forall k :: 0 <= k < |links| ==> |links[k]| == STATES
    ensures |bits| == t
  {
    if t == 0 then []
    else Traced(links, t - 1, links[t - 1][s] % STATES) + [s % 2]
  }

  /** A state with a finite metric was reached, by the path its links spell out, at that metric. */
  lemma {:induction false} TraceAttains(hist: seq<Metrics>, links: seq<Links>, soft: seq<real>, t: nat, s: nat)
    requires Survivors(hist, links, soft) && t <= |links| && s < STATES && hist[t][s].Finite?
    ensures StateAfter(Traced(links, t, s)) == s && Cost(Traced(links, t, s), soft) == hist[t][s].value
  {
    Rows(hist, links, soft);
    if t == 0 {
      TraceStarts(hist, links, soft, s);
      hide *;
    } else {
      var p := links[t - 1][s];
      hide *;
      LinkBack(hist, links, soft, t, s);
      TraceAttains(hist, links, soft, t - 1, p);
      TraceStep(links, soft, t, s);
    }
  }

  lemma Rows(hist: seq<Metrics>, links: seq<Links>, soft: seq<real>)
    requires Survivors(hist, links, soft)
    ensures forall k :: 0 <= k < |links| ==> |links[k]| == STATES
  {
  }

  lemma TraceStarts(hist: seq<Metrics>, links: seq<Links>, soft: seq<real>, s: nat)
    requires Survivors(hist, links, soft) && s < STATES && hist[0][s].Finite?
    ensures StateAfter([]) == s && Cost([], soft) == hist[0][s].value && Traced(links, 0, s) == []
  {
    hide Settles;
  }

  lemma TraceStep(links: seq<Links>, soft: seq<real>, t: nat, s: nat)
    requires (forall k :: 0 <= k < |links| ==> |links[k]| == STATES) && 3 * |links| <= |soft|
    requires 0 < t <= |links| && s < STATES
    requires var p := links[t - 1][s];
      (p == s / 2 || p == s / 2 + 32) && StateAfter(Traced(links, t - 1, p)) == p
    ensures var p := links[t - 1][s];
      && StateAfter(Traced(links, t, s)) == s
      && Cost(Traced(links, t, s), soft) == Cost(Traced(links, t - 1, p), soft) + Branch(2 * p + s % 2, soft, t - 1)
  {
    var p, bits := links[t - 1][s], Traced(links, t, s);
    assert bits[..t - 1] == Traced(links, t - 1, p);
    hide StateAfter, Register, Branch;
    Successor(bits, s);
  }

  lemma LinkBack(hist: seq<Metrics>, links: seq<Links>, soft: seq<real>, t: nat, s: nat)
    requires Survivors(hist, links, soft) && 0 < t <= |links| && s < STATES && hist[t][s].Finite?
    ensures var p := links[t - 1][s];
      && (p == s / 2 || p == s / 2 + 32) && hist[t - 1][p].Finite?
      && hist[t][s].value == hist[t - 1][p].value + Branch(2 * p + s % 2, soft, t - 1)
  {
    assert Settles(hist[t - 1], s, hist[t - 1 + 1][s], links[t - 1][s], soft, t - 1);
  }

  lemma TraceCheapest(hist: seq<Metrics>, links: seq<Links>, soft: seq<real>)
    requires Survivors(hist, links, soft)
    ensures hist[|links|][0].Finite? && Cheapest(Traced(links, |links|, 0), soft)
  {
    var n := |links|;
    var zeros: seq<Bit> := seq(n, i => 0);
    Terminated(zeros);
    NoneCheaper(hist, links, soft, zeros);
    TraceAttains(hist, links, soft, n, 0);
    forall other: seq<Bit> | |other| == n && StateAfter(other) == 0
      ensures Cost(Traced(links, n, 0), soft) <= Cost(other, soft)
    {
      NoneCheaper(hist, links, soft, other);
    }
  }

  // -- ties ------------------------------------------------------------------------------

  /** Where two inputs of one length last differ, the first has a zero. */
  ghost predicate Prefers(x: seq<Bit>, y: seq<Bit>) {
    |x| == |y| && exists k :: 0 <= k < |x| && x[k] == 0 && y[k] == 1 && x[k + 1..] == y[k + 1..]
  }

  lemma PrefersOn(x: seq<Bit>, y: seq<Bit>)
    requires |x| == |y| > 0 && x[|x| - 1] == y[|y| - 1] && Prefers(x[..|x| - 1], y[..|y| - 1])
    ensures Prefers(x, y)
  {
    var n := |x| - 1;
    var k :| 0 <= k < n && x[..n][k] == 0 && y[..n][k] == 1 && x[..n][k + 1..] == y[..n][k + 1..];
    assert x[k + 1..] == x[..n][k + 1..] + [x[n]] && y[k + 1..] == y[..n][k + 1..] + [y[n]];
  }

  /** The two predecessors of a state differ in the oldest input they hold. */
  lemma OldestDiffers(x: seq<Bit>, y: seq<Bit>, s: nat)
    requires |x| == |y| && s < 32 && StateAfter(x) == s && StateAfter(y) == s + 32
    ensures Prefers(x, y)
  {
    Window(x);
    Window(y);
    hide StateAfter, Register;
    var n := |x|;
    assert forall j :: 0 <= j < 5 ==> Back(x, j) == Back(y, j);
    assert Back(x, 5) == 0 && Back(y, 5) == 1;
    var k := n - 6;
    assert x[k] == 0 && y[k] == 1;
    forall i | k < i < n ensures x[i] == y[i] { assert Back(x, n - 1 - i) == Back(y, n - 1 - i); }
    assert x[k + 1..] == y[k + 1..];
  }

  /** Of all cheapest ways to a state the links spell out the one preferred to every other. */
  lemma {:induction false} TracePreferred(hist: seq<Metrics>, links: seq<Links>, soft: seq<real>, x: seq<Bit>)
    requires Survivors(hist, links, soft) && |x| <= |links|
    requires hist[|x|][StateAfter(x)] == Finite(Cost(x, soft))
    ensures forall k :: 0 <= k < |links| ==> |links[k]| == STATES
    ensures var y := Traced(links, |x|, StateAfter(x)); x == y || Prefers(y, x)
    decreases |x|
  {
    hide *;
    Rows(hist, links, soft);
    if x == [] {
      NothingTraced(links, StateAfter(x));
    } else {
      var t, s, init := |x|, StateAfter(x), x[..|x| - 1];
      Predecessor(x);
      NoneCheaper(hist, links, soft, init);
      LinkBack(hist, links, soft, t, s);
      LinkLower(hist, links, soft, t, s, x);
      var p := links[t - 1][s];
      if p == StateAfter(init) {
        TracePreferred(hist, links, soft, init);
      } else {
        TraceAttains(hist, links, soft, t - 1, p);
        HalfBelow(s);
        OldestDiffers(Traced(links, t - 1, p), init, s / 2);
      }
      TracedLast(links, t, s, x);
    }
  }

  lemma HalfBelow(s: nat)
    requires s < STATES
    ensures s / 2 < 32
  {
  }

  lemma NothingTraced(links: seq<Links>, s: nat)
    requires s < STATES && forall k :: 0 <= k < |links| ==> |links[k]| == STATES
    ensures Traced(links, 0, s) == []
  {
  }

  lemma TracedLast(links: seq<Links>, t: nat, s: nat, x: seq<Bit>)
    requires 0 < t == |x| <= |links| && s < STATES && (forall k :: 0 <= k < |links| ==> |links[k]| == STATES)
    requires links[t - 1][s] < STATES && x[t - 1] == s % 2
    requires var y := Traced(links, t - 1, links[t - 1][s]); x[..t - 1] == y || Prefers(y, x[..t - 1])
    ensures var y := Traced(links, t, s); x == y || Prefers(y, x)
  {
    var y := Traced(links, t, s);
    assert y[..t - 1] == Traced(links, t - 1, links[t - 1][s]) && y[t - 1] == s % 2;
    hide Prefers, Traced;
    if x[..t - 1] == y[..t - 1] {
      assert x == x[..t - 1] + [x[t - 1]] && y == y[..t - 1] + [y[t - 1]];
    } else {
      PrefersOn(y, x);
    }
  }

  /** A cheapest way to a state comes by a cheapest way to its predecessor, and the lower one was taken on a tie. */
  lemma LinkLower(hist: seq<Metrics>, links: seq<Links>, soft: seq<real>, t: nat, s: nat, x: seq<Bit>)
    requires Survivors(hist, links, soft) && 0 < t == |x| <= |links| && s == StateAfter(x)
    requires hist[t][s] == Finite(Cost(x, soft))
    requires var init, p := x[..t - 1], StateAfter(x[..t - 1]);
      && (p == s / 2 || p == s / 2 + 32) && Register(x) == 2 * p + s % 2
      && hist[t - 1][p].Finite? && hist[t - 1][p].value <= Cost(init, soft)
    ensures var init, p := x[..t - 1], StateAfter(x[..t - 1]);
      && hist[t - 1][p] == Finite(Cost(init, soft))
      && (links[t - 1][s] != p ==> links[t - 1][s] == s / 2 && p == s / 2 + 32)
  {
    assert Settles(hist[t - 1], s, hist[t - 1 + 1][s], links[t - 1][s], soft, t - 1);
    hide StateAfter, Register, Branch, Survivors;
  }

  // -- the decoder ---------------------------------------------------------------------

  ghost function RowOf(previous: array2<nat>, at: nat): (row: Links)
    requires at < previous.Length0 && previous.Length1 == STATES
    reads previous
    ensures |row| == STATES && forall s :: 0 <= s < STATES ==> row[s] == previous[at, s]
  {
    seq(STATES, s requires 0 <= s < STATES reads previous => previous[at, s])
  }

  /** One trellis step: new metrics, and the chosen predecessors written into their row. */
  method Advance(metrics: array<Metric>, previous: array2<nat>, soft: seq<real>, at: nat) returns (new_: array<Metric>)
    requires metrics.Length == STATES && previous.Length1 == STATES && at < previous.Length0 && 3 * at + 3 <= |soft|
    modifies previous
    ensures fresh(new_) && new_.Length == STATES
    ensures forall s :: 0 <= s < STATES ==> Settles(metrics[..], s, new_[s], previous[at, s], soft, at)
    ensures forall t, s ::
      0 <= t < previous.Length0 && t != at && 0 <= s < STATES ==> previous[t, s] == old(previous[t, s])
  {
    hide *;
    new_ := new Metric[STATES](i => Infinite);
    for nxt := 0 to STATES
      invariant forall s :: 0 <= s < nxt ==> Settles(metrics[..], s, new_[s], previous[at, s], soft, at)
      invariant forall s :: nxt <= s < STATES ==> new_[s] == Infinite
      invariant forall t, s ::
        0 <= t < previous.Length0 && t != at && 0 <= s < STATES ==> previous[t, s] == old(previous[t, s])
      invariant metrics[..] == old(metrics[..])
    {
      Settle(metrics, previous, soft, at, new_, nxt);
    }
  }

  /** The two branches into one state: the cheaper one survives. */
  method Settle(metrics: array<Metric>, previous: array2<nat>, soft: seq<real>, at: nat, new_: array<Metric>, nxt: nat)
    requires metrics.Length == STATES == new_.Length && previous.Length1 == STATES && at < previous.Length0
    requires 3 * at + 3 <= |soft| && nxt < STATES && metrics != new_ && new_[nxt] == Infinite
    modifies previous, new_
    ensures Settles(metrics[..], nxt, new_[nxt], previous[at, nxt], soft, at)
    ensures forall s :: 0 <= s < STATES && s != nxt ==> new_[s] == old(new_[s])
    ensures forall t, s ::
      0 <= t < previous.Length0 && 0 <= s < STATES && (t != at || s != nxt) ==> previous[t, s] == old(previous[t, s])
  {
    var bit := nxt % 2;
    for branch := 0 to 2
      invariant metrics[..] == old(metrics[..])
      invariant forall s :: 0 <= s < STATES && s != nxt ==> new_[s] == old(new_[s])
      invariant forall t, s ::
        0 <= t < previous.Length0 && 0 <= s < STATES && (t != at || s != nxt) ==> previous[t, s] == old(previous[t, s])
      invariant branch == 0 ==> new_[nxt] == Infinite
      invariant branch == 1 ==> new_[nxt] == Through(metrics[..], nxt, 0, soft, at)
                                && (new_[nxt].Finite? ==> previous[at, nxt] == nxt / 2)
      invariant branch == 2 ==> Settles(metrics[..], nxt, new_[nxt], previous[at, nxt], soft, at)
    {
      var before := nxt / 2 + 32 * branch;
      var metric := metrics[before].Plus(Branch(2 * before + bit, soft, at));
      assert metric == Through(metrics[..], nxt, branch, soft, at);
      if metric.Below(new_[nxt]) {
        new_[nxt] := metric;
        previous[at, nxt] := before;
      }
    }
  }

  /** The recursion, over every received triple. */
  method Sweep(soft: seq<real>, n: nat)
      returns (previous: array2<nat>, ghost hist: seq<Metrics>, ghost links: seq<Links>)
    requires |soft| == 3 * n
    ensures fresh(previous) && previous.Length0 == n && previous.Length1 == STATES
    ensures |links| == n && Survivors(hist, links, soft)
    ensures forall t, s :: 0 <= t < n && 0 <= s < STATES ==> previous[t, s] == links[t][s]
  {
    var metrics := new Metric[STATES](i => if i == 0 then Finite(0.0) else Infinite);
    previous := new nat[n, STATES];
    hist, links := [Start()], [];
    assert metrics[..] == Start();
    for at := 0 to n
      invariant metrics.Length == STATES && |links| == at && Survivors(hist, links, soft)
      invariant hist[at] == metrics[..]
      invariant forall t, s :: 0 <= t < at && 0 <= s < STATES ==> previous[t, s] == links[t][s]
      invariant fresh(previous)
    {
      var advanced := Advance(metrics, previous, soft, at);
      hide Settles;
      ghost var row := RowOf(previous, at);
      SurvivorsMore(hist, links, soft, advanced[..], row);
      hist, links := hist + [advanced[..]], links + [row];
      metrics := advanced;
    }
  }

  /** The way back from state zero. */
  method TraceBack(previous: array2<nat>, n: nat, ghost hist: seq<Metrics>, ghost links: seq<Links>,
      ghost soft: seq<real>)
    returns (decoded: seq<Bit>)
    requires previous.Length0 == n == |links| && previous.Length1 == STATES && Survivors(hist, links, soft)
    requires forall t, s :: 0 <= t < n && 0 <= s < STATES ==> previous[t, s] == links[t][s]
    requires hist[n][0].Finite?
    ensures decoded == Traced(links, n, 0)
  {
    assert Attained(hist, n, 0);
    Rows(hist, links, soft);
    hide *;
    var bits := new Bit[n];
    var state: nat := 0;
    ghost var done: seq<Bit> := [];
    for at := n downto 0
      invariant state < STATES && Attained(hist, at, state)
      invariant bits[at..] == done && Traced(links, at, state) + done == Traced(links, n, 0)
    {
      var bit: Bit := state % 2;
      StepBack(hist, links, soft, at, state, bit, done);
      state := previous[at, state];
      done := [bit] + done;
      PutBefore(bits, at, bit);
    }
    TracedNone(links, state, done);
    assert bits[0..] == bits[..];
    return bits[..];
  }

  method PutBefore(bits: array<Bit>, at: nat, bit: Bit)
    requires at < bits.Length
    modifies bits
    ensures bits[at..] == [bit] + old(bits[at + 1..])
  {
    bits[at] := bit;
  }

  /** Some path reaches state `s` in `t` steps. */
  ghost predicate Attained(hist: seq<Metrics>, t: nat, s: nat) {
    t < |hist| && s < |hist[t]| && hist[t][s].Finite?
  }

  lemma StepBack(hist: seq<Metrics>, links: seq<Links>, soft: seq<real>, at: nat, s: nat, bit: Bit,
      done: seq<Bit>)
    requires Survivors(hist, links, soft) && at < |links| && s < STATES && Attained(hist, at + 1, s) && bit == s % 2
    ensures var p := links[at][s];
      && p < STATES && Attained(hist, at, p)
      && Traced(links, at + 1, s) + done == Traced(links, at, p) + ([bit] + done)
  {
    LinkBack(hist, links, soft, at + 1, s);
    TracedOn(links, at, s, done);
  }

  lemma TracedOn(links: seq<Links>, at: nat, s: nat, done: seq<Bit>)
    requires at < |links| && s < STATES && (forall k :: 0 <= k < |links| ==> |links[k]| == STATES)
        && links[at][s] < STATES
    ensures Traced(links, at + 1, s) + done == Traced(links, at, links[at][s]) + ([s % 2] + done)
  {
  }

  lemma TracedNone(links: seq<Links>, s: nat, done: seq<Bit>)
    requires s < STATES && forall k :: 0 <= k < |links| ==> |links[k]| == STATES
    ensures Traced(links, 0, s) + done == done
  {
  }

  /** Of the inputs that agree best the one traced is preferred to every other. */
  lemma AllPreferred(hist: seq<Metrics>, links: seq<Links>, soft: seq<real>)
    requires Survivors(hist, links, soft) && 3 * |links| == |soft|
    ensures forall k :: 0 <= k < |links| ==> |links[k]| == STATES
    ensures forall other: seq<Bit> :: |other| == |links| && AgreesBest(other, soft) ==>
      other == Traced(links, |links|, 0) || Prefers(Traced(links, |links|, 0), other)
  {
    Rows(hist, links, soft);
    TraceCheapest(hist, links, soft);
    TraceAttains(hist, links, soft, |links|, 0);
    var y := Traced(links, |links|, 0);
    forall other: seq<Bit> | |other| == |links| && AgreesBest(other, soft) ensures other == y || Prefers(y, other) {
      CheapestAgrees(other, soft);
      SameCost(other, y, soft);
      TracePreferred(hist, links, soft, other);
    }
  }

  lemma SameCost(a: seq<Bit>, b: seq<Bit>, soft: seq<real>)
    requires |a| == |b| && 3 * |a| <= |soft| && Cheapest(a, soft) && Cheapest(b, soft)
    ensures Cost(a, soft) == Cost(b, soft) && StateAfter(a) == 0
  {
    hide Cost, StateAfter;
  }

  /**
   Fails on a ragged input, as reshaping it into triples would. `previous` is never read where it
   was not written: only states with a finite metric are on the way back.
   */
  method Decode(soft: seq<real>) returns (decoded: Option<seq<Bit>>)
    ensures decoded.None? <==> |soft| % 3 != 0
    ensures decoded.Some? ==> 3 * |decoded.value| == |soft| && AgreesBest(decoded.value, soft)
    ensures decoded.Some? ==> forall other: seq<Bit> :: 3 * |other| == |soft| && AgreesBest(other, soft) ==>
      other == decoded.value || Prefers(decoded.value, other)
  {
    if |soft| % 3 != 0 {
      return None;
    }
    var n := |soft| / 3;
    var previous;
    ghost var hist, links;
    previous, hist, links := Sweep(soft, n);
    TraceCheapest(hist, links, soft);
    var bits := TraceBack(previous, n, hist, links, soft);
    CheapestAgrees(bits, soft);
    AllPreferred(hist, links, soft);
    return Some(bits);
  }

  lemma SurvivorsMore(hist: seq<Metrics>, links: seq<Links>, soft: seq<real>, next: Metrics, row: Links)
    requires Survivors(hist, links, soft) && 3 * |links| + 3 <= |soft| && |next| == |row| == STATES
    requires forall s :: 0 <= s < STATES ==> Settles(hist[|links|], s, next[s], row[s], soft, |links|)
    ensures Survivors(hist + [next], links + [row], soft)
  {
  }

  // -- errors undone -------------------------------------------------------------------

  /** Unit soft values for hard decisions. */
  function Unit(hard: seq<Bit>): (soft: seq<real>)
    ensures |soft| == |hard|
  {
    seq(|hard|, i requires 0 <= i < |hard| => if hard[i] == 0 then 1.0 else -1.0)
  }

  /** Against unit soft values a path costs two for every disagreement, less the number of bits. */
  lemma {:induction false} UnitCost(bits: seq<Bit>, hard: seq<Bit>)
    requires 3 * |bits| <= |hard|
    ensures Cost(bits, Unit(hard)) == (2 * Differ(Encoded(bits), hard[..3 * |bits|]) - 3 * |bits|) as real
    decreases |bits|
  {
    if bits != [] {
      var t := |bits| - 1;
      UnitCost(bits[..t], hard);
      var r := Register(bits);
      var x, y := [Coded(r, 0), Coded(r, 1), Coded(r, 2)], hard[3 * t..3 * t + 3];
      assert hard[..3 * t + 3] == hard[..3 * t] + y;
      DifferBlock(Encoded(bits[..t]), hard[..3 * t], x, y);
      BranchUnit(r, hard, t);
    }
  }

  lemma BranchUnit(r: nat, hard: seq<Bit>, t: nat)
    requires 3 * t + 3 <= |hard|
    ensures Branch(r, Unit(hard), t)
         == (2 * (Xor(Coded(r, 0), hard[3 * t]) + Xor(Coded(r, 1), hard[3 * t + 1])
                  + Xor(Coded(r, 2), hard[3 * t + 2])) - 3) as real
  {
    hide Coded;
    SignedUnit(Coded(r, 0), hard[3 * t]);
    SignedUnit(Coded(r, 1), hard[3 * t + 1]);
    SignedUnit(Coded(r, 2), hard[3 * t + 2]);
  }

  lemma SignedUnit(coded: Bit, hard: Bit)
    ensures Signed(coded, if hard == 0 then 1.0 else -1.0) == (2 * Xor(coded, hard) - 1) as real
  {
  }

  /** However the signs of up to seven soft values are flipped, the message is the cheapest path. */
  lemma Corrects(message: seq<Bit>, received: seq<Bit>, decoded: seq<Bit>)
    requires ZeroTail(message) && |received| == 3 * |message| && |decoded| == |message|
    requires Differ(Encoded(message), received) <= 7
    requires AgreesBest(decoded, Unit(received))
    ensures decoded == message
  {
    CheapestAgrees(decoded, Unit(received));
    Terminated(message);
    UnitCost(message, received);
    UnitCost(decoded, received);
    assert received[..3 * |message|] == received;
    Triangle(Encoded(decoded), received, Encoded(message));
    Triangle(Encoded(message), received, Encoded(decoded));
    if decoded != message { Distance(decoded, message); }
  }
}
