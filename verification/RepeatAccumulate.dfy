/**
 The systematic repeat-accumulate code and its iterative decoder: every message bit is repeated,
 the repetitions are permuted and accumulated, and the decoder passes extrinsic ratios between
 the repetitions and the accumulator.
 */
module RepeatAccumulate {
  import opened Common
  import opened Accumulator

  const REPEATS := 6

  /** A permutation of 0 up to its length. */
  ghost predicate Permutation(p: seq<nat>) {
    && (forall j :: 0 <= j < |p| ==> p[j] < |p|)
    && (forall i, j :: 0 <= i < j < |p| ==> p[i] != p[j])
  }

  /** The repeated bits in permuted order. */
  function Interleaved(bits: seq<Bit>, permutation: seq<nat>): (x: seq<Bit>)
    requires |permutation| == REPEATS * |bits| && forall j :: 0 <= j < |permutation| ==> permutation[j] < |permutation|
    ensures |x| == |permutation|
  {
    seq(|permutation|, j requires 0 <= j < |permutation| => bits[permutation[j] / REPEATS])
  }

  function Encode(bits: seq<Bit>, permutation: seq<nat>): (code: seq<Bit>)
    requires |permutation| == REPEATS * |bits| && forall j :: 0 <= j < |permutation| ==> permutation[j] < |permutation|
    ensures |code| == |bits| + |permutation|
  {
    var repeated := Interleaved(bits, permutation);
    bits + seq(|repeated|, j requires 0 <= j < |repeated| => Parity(repeated[..j + 1]))
  }

  // -- the inverse permutation -----------------------------------------------------------

  function Find(p: seq<nat>, r: nat): (j: nat)
    ensures j <= |p|
    ensures j < |p| ==> p[j] == r
    ensures j == |p| ==> r !in p
  {
    if p == [] then 0
    else if p[0] == r then 0 else 1 + Find(p[1..], r)
  }

  /** Where each place of the sorted order lies: for a permutation, its inverse. */
  function ArgSort(p: seq<nat>): (inv: seq<nat>)
    ensures |inv| == |p|
  {
    seq(|p|, r requires 0 <= r < |p| => Find(p, r))
  }

  function Below(n: nat): (s: set<nat>)
    ensures |s| == n && forall i: nat :: i in s <==> i < n
  {
    if n == 0 then {} else Below(n - 1) + {n - 1}
  }

  function Image(p: seq<nat>): (s: set<nat>)
    ensures forall x :: x in s <==> x in p
  {
    if p == [] then {} else Image(p[1..]) + {p[0]}
  }

  lemma {:induction false} DistinctCount(p: seq<nat>)
    requires forall i, j :: 0 <= i < j < |p| ==> p[i] != p[j]
    ensures |Image(p)| == |p|
  {
    if p != [] {
      DistinctCount(p[1..]);
      assert p[0] !in p[1..];
    }
  }

  lemma Onto(p: seq<nat>, r: nat)
    requires Permutation(p) && r < |p|
    ensures r in p
  {
    DistinctCount(p);
    if r !in p {
      var smaller := Below(|p|) - {r};
      assert Image(p) <= smaller;
      SubsetCount(Image(p), smaller);
    }
  }

  lemma {:induction false} SubsetCount(a: set<nat>, b: set<nat>)
    requires a <= b
    ensures |a| <= |b|
    decreases |a|
  {
    if a != {} {
      var x :| x in a;
      SubsetCount(a - {x}, b - {x});
    }
  }

  /** Sorting a permutation inverts it, both ways round. */
  lemma Inverse(p: seq<nat>, r: nat)
    requires Permutation(p) && r < |p|
    ensures ArgSort(p)[r] < |p| && p[ArgSort(p)[r]] == r
    ensures p[r] < |p| && ArgSort(p)[p[r]] == r
  {
    Onto(p, r);
    Onto(p, p[r]);
  }

  // -- the decoder --------------------------------------------------------------------

  function SumFrom(v: seq<real>, from: nat, n: nat): real
    requires from + n <= |v|
  {
    if n == 0 then 0.0 else SumFrom(v, from, n - 1) + v[from + n - 1]
  }

  /** The accumulator's ratios brought back to the order of the repetitions. */
  function Gather(v: seq<real>, at: seq<nat>): (g: seq<real>)
    requires forall r :: 0 <= r < |at| ==> at[r] < |v|
    ensures |g| == |at| && forall r :: 0 <= r < |g| ==> g[r] == v[at[r]]
  {
    seq(|at|, r requires 0 <= r < |at| => v[at[r]])
  }

  function Posterior(sys: seq<real>, deperm: seq<real>): (p: seq<real>)
    requires |deperm| == REPEATS * |sys|
    ensures |p| == |sys| && forall i :: 0 <= i < |p| ==> p[i] == sys[i] + SumFrom(deperm, REPEATS * i, REPEATS)
  {
    seq(|sys|, i requires 0 <= i < |sys| => sys[i] + SumFrom(deperm, REPEATS * i, REPEATS))
  }

  /** Each repetition's posterior without what that repetition itself contributed. */
  function RepeatPrior(posterior: seq<real>, deperm: seq<real>): (p: seq<real>)
    requires |deperm| == REPEATS * |posterior|
    ensures |p| == |deperm| && forall r :: 0 <= r < |p| ==> p[r] == posterior[r / REPEATS] - deperm[r]
  {
    seq(|deperm|, r requires 0 <= r < |deperm| => posterior[r / REPEATS] - deperm[r])
  }

  /** What the decoder holds between iterations. */
  datatype Turn = Turn(posterior: seq<real>, accExt: seq<real>)

  /** The accumulator pass, by its meaning. */
  function Outputs(r: Ratios): (out: seq<real>)
    requires r.Valid()
    ensures |out| == r.Length() && forall i :: 0 <= i < |out| ==> out[i] == Clip(Llr(r, i))
  {
    seq(r.Length(), i requires 0 <= i < r.Length() => Clip(Llr(r, i)))
  }

  /** One iteration. */
  function Turned(llr: seq<real>, k: nat, permutation: seq<nat>, accExt: seq<real>): (t: Turn)
    requires |permutation| == REPEATS * k && |llr| == k + |permutation| && |accExt| == |permutation|
    requires forall r :: 0 <= r < |permutation| ==>
      permutation[r] < |permutation| && ArgSort(permutation)[r] < |permutation|
    ensures |t.posterior| == k && |t.accExt| == |permutation|
  {
    var deperm := Gather(accExt, ArgSort(permutation));
    var posterior := Posterior(llr[..k], deperm);
    var r := Ratios(llr[k..], Gather(RepeatPrior(posterior, deperm), permutation));
    Turn(posterior, Outputs(r))
  }

  /** The decoder after `n` iterations. */
  function After(llr: seq<real>, k: nat, permutation: seq<nat>, n: nat): (t: Turn)
    requires |permutation| == REPEATS * k && |llr| == k + |permutation|
    requires forall r :: 0 <= r < |permutation| ==>
      permutation[r] < |permutation| && ArgSort(permutation)[r] < |permutation|
    ensures |t.posterior| == k && |t.accExt| == |permutation|
  {
    if n == 0 then Turn(llr[..k], seq(|permutation|, j => 0.0))
    else Turned(llr, k, permutation, After(llr, k, permutation, n - 1).accExt)
  }

  function Decision(posterior: seq<real>): (d: seq<Bit>)
    ensures |d| == |posterior|
    ensures forall i :: 0 <= i < |d| ==> (d[i] == 1 <==> posterior[i] < 0.0)
  {
    seq(|posterior|, i requires 0 <= i < |posterior| => if posterior[i] < 0.0 then 1 else 0)
  }

  method Decode(llr: seq<real>, k: nat, permutation: seq<nat>, iterations: nat) returns (decoded: seq<Bit>)
    requires |permutation| == REPEATS * k && |llr| == k + |permutation| && Permutation(permutation)
    ensures forall r :: 0 <= r < |permutation| ==>
      permutation[r] < |permutation| && ArgSort(permutation)[r] < |permutation|
    ensures decoded == Decision(After(llr, k, permutation, iterations).posterior)
  {
    hide *;
    PermutationFacts(permutation);
    var sys, parity := llr[..k], llr[k..];
    var inv := ArgSort(permutation);
    var accExt := seq(|permutation|, j => 0.0);
    var posterior := sys;
    AtFirst(llr, k, permutation);
    for i := 0 to iterations
      invariant |accExt| == |permutation| && |posterior| == k
      invariant Turn(posterior, accExt) == After(llr, k, permutation, i)
    {
      var deperm := Gather(accExt, inv);
      posterior := Posterior(sys, deperm);
      var prior := Gather(RepeatPrior(posterior, deperm), permutation);
      WellFormed(parity, prior);
      var out := Siso(Ratios(parity, prior));
      NextTurn(llr, k, permutation, i, accExt, posterior, out);
      accExt := out;
    }
    decoded := Decision(posterior);
  }

  lemma WellFormed(parity: seq<real>, prior: seq<real>)
    requires |parity| == |prior|
    ensures Ratios(parity, prior).Valid() && Ratios(parity, prior).Length() == |prior|
  {
  }

  lemma AtFirst(llr: seq<real>, k: nat, permutation: seq<nat>)
    requires |permutation| == REPEATS * k && |llr| == k + |permutation|
    requires forall r :: 0 <= r < |permutation| ==>
      permutation[r] < |permutation| && ArgSort(permutation)[r] < |permutation|
    ensures After(llr, k, permutation, 0) == Turn(llr[..k], seq(|permutation|, j => 0.0))
  {
  }

  lemma NextTurn(llr: seq<real>, k: nat, permutation: seq<nat>, i: nat, accExt: seq<real>, posterior: seq<real>,
                 out: seq<real>)
    requires |permutation| == REPEATS * k && |llr| == k + |permutation| && |out| == |permutation|
    requires forall r :: 0 <= r < |permutation| ==>
      permutation[r] < |permutation| && ArgSort(permutation)[r] < |permutation|
    requires accExt == After(llr, k, permutation, i).accExt
    requires posterior == Posterior(llr[..k], Gather(accExt, ArgSort(permutation)))
    requires var r := Ratios(llr[k..], Gather(RepeatPrior(posterior, Gather(accExt, ArgSort(permutation))), permutation));
      forall j :: 0 <= j < |out| ==> r.Valid() && r.Length() == |out| && out[j] == Clip(Llr(r, j))
    ensures After(llr, k, permutation, i + 1) == Turn(posterior, out)
  {
    var t := Turned(llr, k, permutation, accExt);
    assert t.posterior == posterior && t.accExt == out by { hide ArgSort, Llr, Clip; }
  }

  // -- an iteration, position by position ------------------------------------------------

  /** What the first `m` positions say of the repetitions from `lo` up to `hi`, in all. */
  function Votes(v: seq<real>, permutation: seq<nat>, lo: nat, hi: nat, m: nat): real
    requires m <= |permutation| == |v|
  {
    if m == 0 then 0.0
    else Votes(v, permutation, lo, hi, m - 1) + if lo <= permutation[m - 1] < hi then v[m - 1] else 0.0
  }

  lemma {:induction false} VotesSplit(v: seq<real>, permutation: seq<nat>, lo: nat, mid: nat, hi: nat, m: nat)
    requires m <= |permutation| == |v| && lo <= mid <= hi
    ensures Votes(v, permutation, lo, hi, m) == Votes(v, permutation, lo, mid, m) + Votes(v, permutation, mid, hi, m)
  {
    if m > 0 { VotesSplit(v, permutation, lo, mid, hi, m - 1); }
  }

  lemma {:induction false} VotesNone(v: seq<real>, permutation: seq<nat>, lo: nat, m: nat)
    requires m <= |permutation| == |v|
    ensures Votes(v, permutation, lo, lo, m) == 0.0
  {
    if m > 0 { VotesNone(v, permutation, lo, m - 1); }
  }

  /** One repetition has one position. */
  lemma {:induction false} VotesOne(v: seq<real>, permutation: seq<nat>, r: nat, m: nat)
    requires m <= |permutation| == |v| && Permutation(permutation) && r < |permutation|
    ensures ArgSort(permutation)[r] < |v|
    ensures Votes(v, permutation, r, r + 1, m)
         == if ArgSort(permutation)[r] < m then v[ArgSort(permutation)[r]] else 0.0
  {
    Inverse(permutation, r);
    if m > 0 { VotesOne(v, permutation, r, m - 1); }
  }

  lemma {:induction false} SumIsVotes(v: seq<real>, permutation: seq<nat>, from: nat, n: nat)
    requires |permutation| == |v| && Permutation(permutation) && from + n <= |permutation|
    requires forall r :: 0 <= r < |permutation| ==> ArgSort(permutation)[r] < |permutation|
    ensures SumFrom(Gather(v, ArgSort(permutation)), from, n) == Votes(v, permutation, from, from + n, |v|)
  {
    if n == 0 {
      VotesNone(v, permutation, from, |v|);
    } else {
      SumIsVotes(v, permutation, from, n - 1);
      VotesOne(v, permutation, from + n - 1, |v|);
      VotesSplit(v, permutation, from, from + n - 1, from + n, |v|);
    }
  }

  /** Every bit's own ratio and what every position that repeats it says. */
  function Counted(sys: seq<real>, permutation: seq<nat>, accExt: seq<real>): (p: seq<real>)
    requires |permutation| == REPEATS * |sys| == |accExt|
    ensures |p| == |sys|
  {
    seq(|sys|, i requires 0 <= i < |sys| =>
      sys[i] + Votes(accExt, permutation, REPEATS * i, REPEATS * i + REPEATS, |permutation|))
  }

  /** What is known of the bit at every position without what the position itself says. */
  function Others(posterior: seq<real>, permutation: seq<nat>, accExt: seq<real>): (p: seq<real>)
    requires |permutation| == REPEATS * |posterior| == |accExt| && Permutation(permutation)
    ensures |p| == |permutation|
  {
    seq(|permutation|, j requires 0 <= j < |permutation| =>
      InBlock(permutation[j], |posterior|); posterior[permutation[j] / REPEATS] - accExt[j])
  }

  /** What an iteration comes to, with no inverse permutation in it. */
  lemma TurnMeans(llr: seq<real>, k: nat, permutation: seq<nat>, n: nat)
    requires |permutation| == REPEATS * k && |llr| == k + |permutation| && Permutation(permutation)
    ensures forall r :: 0 <= r < |permutation| ==> ArgSort(permutation)[r] < |permutation|
    ensures After(llr, k, permutation, 0) == Turn(llr[..k], seq(|permutation|, j => 0.0))
    ensures var accExt := After(llr, k, permutation, n).accExt;
      var posterior := Counted(llr[..k], permutation, accExt);
      After(llr, k, permutation, n + 1)
        == Turn(posterior, Outputs(Ratios(llr[k..], Others(posterior, permutation, accExt))))
  {
    PermutationFacts(permutation);
    var accExt := After(llr, k, permutation, n).accExt;
    var deperm := Gather(accExt, ArgSort(permutation));
    CountedIs(llr[..k], permutation, accExt);
    OthersIs(Counted(llr[..k], permutation, accExt), permutation, accExt);
    hide Outputs, Counted, Others, Posterior, Gather, RepeatPrior, ArgSort;
  }

  lemma CountedIs(sys: seq<real>, permutation: seq<nat>, accExt: seq<real>)
    requires |permutation| == REPEATS * |sys| == |accExt| && Permutation(permutation)
    requires forall r :: 0 <= r < |permutation| ==> ArgSort(permutation)[r] < |permutation|
    ensures Posterior(sys, Gather(accExt, ArgSort(permutation))) == Counted(sys, permutation, accExt)
  {
    hide SumFrom, Votes, ArgSort;
    forall i | 0 <= i < |sys|
      ensures Posterior(sys, Gather(accExt, ArgSort(permutation)))[i] == Counted(sys, permutation, accExt)[i]
    {
      SumIsVotes(accExt, permutation, REPEATS * i, REPEATS);
    }
  }

  lemma OthersIs(posterior: seq<real>, permutation: seq<nat>, accExt: seq<real>)
    requires |permutation| == REPEATS * |posterior| == |accExt| && Permutation(permutation)
    requires forall r :: 0 <= r < |permutation| ==> ArgSort(permutation)[r] < |permutation|
    ensures Gather(RepeatPrior(posterior, Gather(accExt, ArgSort(permutation))), permutation)
         == Others(posterior, permutation, accExt)
  {
    var prior := RepeatPrior(posterior, Gather(accExt, ArgSort(permutation)));
    forall j | 0 <= j < |permutation|
      ensures Gather(prior, permutation)[j] == Others(posterior, permutation, accExt)[j]
    {
      Inverse(permutation, j);
      InBlock(permutation[j], |posterior|);
    }
  }

  // -- the round trip ----------------------------------------------------------------

  /** Every received ratio has the sign of its code bit. */
  ghost predicate Agrees(llr: seq<real>, code: seq<Bit>) {
    |llr| == |code| && forall i :: 0 <= i < |code| ==> Favours(llr[i], code[i])
  }

  /** The decoder's state when nothing in it speaks against the message. */
  ghost predicate OnTrack(bits: seq<Bit>, permutation: seq<nat>, t: Turn)
    requires Permutation(permutation) && |permutation| == REPEATS * |bits|
  {
    && |t.posterior| == |bits| && |t.accExt| == |permutation|
    && (forall i :: 0 <= i < |bits| ==> Favours(t.posterior[i], bits[i]))
    && (forall j :: 0 <= j < |t.accExt| ==> Leans(t.accExt[j], Interleaved(bits, permutation)[j]))
  }

  lemma {:induction false} SumLeans(v: seq<real>, from: nat, n: nat, b: Bit, k: nat)
    requires from + n <= |v| && forall j :: from <= j < from + n ==> Leans(v[j], b)
    ensures Leans(SumFrom(v, from, n), b)
    ensures from <= k < from + n ==> Leans(SumFrom(v, from, n) - v[k], b)
  {
    if n > 0 { SumLeans(v, from, n - 1, b, k); }
  }

  /** Brought back to repetition order, the ratios still lean the right way. */
  lemma GatherLeans(bits: seq<Bit>, permutation: seq<nat>, accExt: seq<real>, q: nat)
    requires Permutation(permutation) && |permutation| == REPEATS * |bits| && q < |permutation| == |accExt|
    requires forall j :: 0 <= j < |accExt| ==> Leans(accExt[j], Interleaved(bits, permutation)[j])
    ensures ArgSort(permutation)[q] < |accExt| && Leans(accExt[ArgSort(permutation)[q]], bits[q / REPEATS])
  {
    Inverse(permutation, q);
  }

  lemma PosteriorFavours(sys: seq<real>, deperm: seq<real>, bits: seq<Bit>)
    requires |sys| == |bits| && |deperm| == REPEATS * |bits|
    requires forall i :: 0 <= i < |bits| ==> Favours(sys[i], bits[i])
    requires forall q :: 0 <= q < |deperm| ==> Leans(deperm[q], bits[q / REPEATS])
    ensures forall i :: 0 <= i < |bits| ==> Favours(Posterior(sys, deperm)[i], bits[i])
    ensures forall q :: 0 <= q < |deperm| ==> Leans(RepeatPrior(Posterior(sys, deperm), deperm)[q], bits[q / REPEATS])
  {
    forall i | 0 <= i < |bits| ensures Favours(Posterior(sys, deperm)[i], bits[i]) {
      OneFavours(sys, deperm, bits, i, REPEATS * i);
    }
    forall q | 0 <= q < |deperm| ensures Leans(RepeatPrior(Posterior(sys, deperm), deperm)[q], bits[q / REPEATS]) {
      InBlock(q, |bits|);
      OneFavours(sys, deperm, bits, q / REPEATS, q);
    }
  }

  /** The posterior of bit `i`, with or without what its repetition `q` contributed. */
  lemma OneFavours(sys: seq<real>, deperm: seq<real>, bits: seq<Bit>, i: nat, q: nat)
    requires |sys| == |bits| && |deperm| == REPEATS * |bits| && i < |bits|
    requires Favours(sys[i], bits[i]) && REPEATS * i <= q < REPEATS * i + REPEATS
    requires forall q :: 0 <= q < |deperm| ==> Leans(deperm[q], bits[q / REPEATS])
    ensures Favours(Posterior(sys, deperm)[i], bits[i]) && Leans(Posterior(sys, deperm)[i] - deperm[q], bits[i])
  {
    SumLeans(deperm, REPEATS * i, REPEATS, bits[i], q);
  }

  lemma InBlock(q: nat, k: nat)
    requires q < REPEATS * k
    ensures q / REPEATS < k && REPEATS * (q / REPEATS) <= q < REPEATS * (q / REPEATS) + REPEATS
  {
  }

  lemma EncodedParts(llr: seq<real>, bits: seq<Bit>, permutation: seq<nat>)
    requires Permutation(permutation) && |permutation| == REPEATS * |bits| && Agrees(llr, Encode(bits, permutation))
    ensures var k, x := |bits|, Interleaved(bits, permutation);
      && (forall i :: 0 <= i < k ==> Favours(llr[..k][i], bits[i]))
      && (forall j :: 0 <= j < |x| ==> Favours(llr[k..][j], Parity(x[..j + 1])))
  {
    var k, x := |bits|, Interleaved(bits, permutation);
    forall i | 0 <= i < k ensures Favours(llr[..k][i], bits[i]) {
      assert Favours(llr[i], Encode(bits, permutation)[i]);
    }
    forall j | 0 <= j < |x| ensures Favours(llr[k..][j], Parity(x[..j + 1])) {
      assert Favours(llr[k + j], Encode(bits, permutation)[k + j]);
    }
  }

  /** One iteration: the posterior favours the message, and the accumulator's ratios still lean its way. */
  lemma OneTurn(llr: seq<real>, bits: seq<Bit>, permutation: seq<nat>, accExt: seq<real>)
    requires Permutation(permutation) && |llr| == |bits| + |permutation|
    requires |permutation| == REPEATS * |bits| == |accExt| == |ArgSort(permutation)|
    requires forall r :: 0 <= r < |permutation| ==> ArgSort(permutation)[r] < |permutation|
    requires forall j :: 0 <= j < |accExt| ==> Leans(accExt[j], Interleaved(bits, permutation)[j])
    requires forall i :: 0 <= i < |bits| ==> Favours(llr[..|bits|][i], bits[i])
    requires forall j ::
      0 <= j < |permutation| ==> Favours(llr[|bits|..][j], Parity(Interleaved(bits, permutation)[..j + 1]))
    ensures var deperm := Gather(accExt, ArgSort(permutation));
      var posterior := Posterior(llr[..|bits|], deperm);
      var r := Ratios(llr[|bits|..], Gather(RepeatPrior(posterior, deperm), permutation));
      && (forall i :: 0 <= i < |bits| ==> Favours(posterior[i], bits[i]))
      && (forall j :: 0 <= j < |permutation| ==> Leans(Clip(Llr(r, j)), Interleaved(bits, permutation)[j]))
  {
    var k, x := |bits|, Interleaved(bits, permutation);
    var deperm := Gather(accExt, ArgSort(permutation));
    forall q | 0 <= q < |permutation| ensures Leans(deperm[q], bits[q / REPEATS]) {
      GatherLeans(bits, permutation, accExt, q);
    }
    PosteriorFavours(llr[..k], deperm, bits);
    var r := Ratios(llr[k..], Gather(RepeatPrior(Posterior(llr[..k], deperm), deperm), permutation));
    PriorFavoured(llr[k..], RepeatPrior(Posterior(llr[..k], deperm), deperm), bits, permutation);
    hide *;
    forall j | 0 <= j < |x| ensures Leans(Clip(Llr(r, j)), x[j]) {
      SignKept(r, x, j);
    }
  }

  lemma PriorFavoured(parity: seq<real>, prior: seq<real>, bits: seq<Bit>, permutation: seq<nat>)
    requires Permutation(permutation) && |permutation| == REPEATS * |bits| == |parity| == |prior|
    requires forall q :: 0 <= q < |prior| ==> Leans(prior[q], bits[q / REPEATS])
    requires forall j :: 0 <= j < |permutation| ==> Favours(parity[j], Parity(Interleaved(bits, permutation)[..j + 1]))
    ensures Favoured(Ratios(parity, Gather(prior, permutation)), Interleaved(bits, permutation))
  {
    hide Parity;
  }

  lemma {:induction false} StaysOnTrack(llr: seq<real>, bits: seq<Bit>, permutation: seq<nat>, n: nat)
    requires Permutation(permutation) && |permutation| == REPEATS * |bits| && Agrees(llr, Encode(bits, permutation))
    ensures forall r :: 0 <= r < |permutation| ==> ArgSort(permutation)[r] < |permutation|
    ensures OnTrack(bits, permutation, After(llr, |bits|, permutation, n))
  {
    PermutationFacts(permutation);
    hide Permutation, Agrees, ArgSort, Encode, Interleaved, OnTrack, After;
    StartsOnTrack(llr, bits, permutation);
    for i := 0 to n
      invariant OnTrack(bits, permutation, After(llr, |bits|, permutation, i))
    {
      TurnsOnTrack(llr, bits, permutation, i);
    }
  }

  lemma PermutationFacts(p: seq<nat>)
    requires Permutation(p)
    ensures forall j :: 0 <= j < |p| ==> p[j] < |p| && ArgSort(p)[j] < |p|
  {
    forall r | 0 <= r < |p| ensures ArgSort(p)[r] < |p| { Inverse(p, r); }
  }

  lemma StartsOnTrack(llr: seq<real>, bits: seq<Bit>, permutation: seq<nat>)
    requires Permutation(permutation) && |permutation| == REPEATS * |bits| && Agrees(llr, Encode(bits, permutation))
    requires forall r :: 0 <= r < |permutation| ==> ArgSort(permutation)[r] < |permutation|
    ensures OnTrack(bits, permutation, After(llr, |bits|, permutation, 0))
  {
    EncodedParts(llr, bits, permutation);
    hide ArgSort, Interleaved, Encode;
  }

  lemma TurnsOnTrack(llr: seq<real>, bits: seq<Bit>, permutation: seq<nat>, n: nat)
    requires Permutation(permutation) && |permutation| == REPEATS * |bits| && Agrees(llr, Encode(bits, permutation))
    requires forall r :: 0 <= r < |permutation| ==> ArgSort(permutation)[r] < |permutation|
    requires OnTrack(bits, permutation, After(llr, |bits|, permutation, n))
    ensures OnTrack(bits, permutation, After(llr, |bits|, permutation, n + 1))
  {
    EncodedParts(llr, bits, permutation);
    hide ArgSort, SumFrom, Llr, Clip, Parity, Interleaved, Encode;
    OneTurn(llr, bits, permutation, After(llr, |bits|, permutation, n).accExt);
  }

  /** Ratios of the right signs decode to the message, after any number of iterations, none included. */
  lemma RoundTrip(llr: seq<real>, bits: seq<Bit>, permutation: seq<nat>, iterations: nat)
    requires Permutation(permutation) && |permutation| == REPEATS * |bits| && Agrees(llr, Encode(bits, permutation))
    ensures forall r :: 0 <= r < |permutation| ==> ArgSort(permutation)[r] < |permutation|
    ensures Decision(After(llr, |bits|, permutation, iterations).posterior) == bits
  {
    StaysOnTrack(llr, bits, permutation, iterations);
  }

  // -- errors corrected --------------------------------------------------------------

  /** No systematic ratio speaks against its bit by more than `s`, and every parity ratio for its own by `p`. */
  ghost predicate ParityHolds(llr: seq<real>, bits: seq<Bit>, permutation: seq<nat>, s: real, p: real)
    requires Permutation(permutation) && |permutation| == REPEATS * |bits|
  {
    && |llr| == |bits| + |permutation| && 0.0 <= 2.0 * s <= p
    && (forall i :: 0 <= i < |bits| ==> Slant(llr[i], bits[i]) >= -s)
    && forall j :: 0 <= j < |permutation| ==>
         Slant(llr[|bits|..][j], Parity(Interleaved(bits, permutation)[..j + 1])) >= p
  }

  /** What the accumulator's ratios are worth then. */
  function Worth(s: real, p: real): real {
    if p - s < 40.0 then p - s else 40.0
  }

  /** All the accumulator's ratios speak for the message by at least `e`. */
  ghost predicate Speaks(bits: seq<Bit>, permutation: seq<nat>, accExt: seq<real>, e: real)
    requires Permutation(permutation) && |permutation| == REPEATS * |bits|
  {
    && |accExt| == |permutation|
    && forall j :: 0 <= j < |accExt| ==> Slant(accExt[j], Interleaved(bits, permutation)[j]) >= e
  }

  lemma {:induction false} SumSlants(v: seq<real>, from: nat, n: nat, b: Bit, q: nat, e: real)
    requires from + n <= |v| && e >= 0.0 && forall j :: from <= j < from + n ==> Slant(v[j], b) >= e
    ensures Slant(SumFrom(v, from, n), b) >= n as real * e
    ensures from <= q < from + n ==> Slant(SumFrom(v, from, n) - v[q], b) >= 0.0
  {
    if n > 0 {
      SumSlants(v, from, n - 1, b, q, e);
      assert (n - 1) as real * e + e == n as real * e;
    }
  }

  /** Brought back to the order of the repetitions, the ratios still speak for their bits. */
  lemma GatherSpeaks(bits: seq<Bit>, permutation: seq<nat>, accExt: seq<real>, e: real, q: nat)
    requires Permutation(permutation) && |permutation| == REPEATS * |bits| && q < |permutation|
    requires Speaks(bits, permutation, accExt, e)
    ensures ArgSort(permutation)[q] < |accExt| && Slant(accExt[ArgSort(permutation)[q]], bits[q / REPEATS]) >= e
  {
    Inverse(permutation, q);
    assert Slant(accExt[ArgSort(permutation)[q]], Interleaved(bits, permutation)[ArgSort(permutation)[q]]) >= e;
  }

  /** The posterior of bit `i`, and without what its repetition `q` contributed. */
  lemma OneSpeaks(sys: seq<real>, deperm: seq<real>, bits: seq<Bit>, i: nat, q: nat, s: real, e: real)
    requires |sys| == |bits| && |deperm| == REPEATS * |bits| && i < |bits| && e >= 0.0
    requires Slant(sys[i], bits[i]) >= -s && REPEATS * i <= q < REPEATS * i + REPEATS
    requires forall q :: 0 <= q < |deperm| ==> Slant(deperm[q], bits[q / REPEATS]) >= e
    ensures Slant(Posterior(sys, deperm)[i], bits[i]) >= 6.0 * e - s
    ensures Slant(Posterior(sys, deperm)[i] - deperm[q], bits[i]) >= -s
  {
    SumSlants(deperm, REPEATS * i, REPEATS, bits[i], q, e);
  }

  /** One iteration: the posterior gains what six repetitions say, and the accumulator overrules the priors. */
  lemma TurnSpeaks(llr: seq<real>, bits: seq<Bit>, permutation: seq<nat>, accExt: seq<real>, s: real, p: real, e: real)
    requires Permutation(permutation) && |permutation| == REPEATS * |bits| && e >= 0.0
    requires ParityHolds(llr, bits, permutation, s, p) && Speaks(bits, permutation, accExt, e)
    requires forall r :: 0 <= r < |permutation| ==> ArgSort(permutation)[r] < |permutation|
    ensures var t := Turned(llr, |bits|, permutation, accExt);
      && (forall i :: 0 <= i < |bits| ==> Slant(t.posterior[i], bits[i]) >= 6.0 * e - s)
      && Speaks(bits, permutation, t.accExt, Worth(s, p))
  {
    var k, x, inv := |bits|, Interleaved(bits, permutation), ArgSort(permutation);
    var deperm := Gather(accExt, inv);
    var posterior := Posterior(llr[..k], deperm);
    var prior := Gather(RepeatPrior(posterior, deperm), permutation);
    var r := Ratios(llr[k..], prior);
    forall q | 0 <= q < |deperm| ensures Slant(deperm[q], bits[q / REPEATS]) >= e {
      GatherSpeaks(bits, permutation, accExt, e, q);
    }
    forall i | 0 <= i < k ensures Slant(posterior[i], bits[i]) >= 6.0 * e - s {
      OneSpeaks(llr[..k], deperm, bits, i, REPEATS * i, s, e);
    }
    forall j | 0 <= j < |x| ensures Slant(prior[j], x[j]) >= -s {
      InBlock(permutation[j], k);
      OneSpeaks(llr[..k], deperm, bits, permutation[j] / REPEATS, permutation[j], s, e);
    }
    OutvotedIs(llr, bits, permutation, r, s, p);
    hide *;
    forall j | 0 <= j < |x| ensures Slant(Clip(Llr(r, j)), x[j]) >= Worth(s, p) {
      Overrules(r, x, j, s, p);
      WorthIs(s, p);
    }
    SpeaksIs(bits, permutation, Turned(llr, k, permutation, accExt).accExt, Worth(s, p));
  }

  lemma WorthIs(s: real, p: real)
    ensures Worth(s, p) == if p - s < 40.0 then p - s else 40.0
  {
  }

  lemma SpeaksIs(bits: seq<Bit>, permutation: seq<nat>, accExt: seq<real>, e: real)
    requires Permutation(permutation) && |permutation| == REPEATS * |bits| == |accExt|
    requires forall j :: 0 <= j < |accExt| ==> Slant(accExt[j], Interleaved(bits, permutation)[j]) >= e
    ensures Speaks(bits, permutation, accExt, e)
  {
  }

  lemma OutvotedIs(llr: seq<real>, bits: seq<Bit>, permutation: seq<nat>, r: Ratios, s: real, p: real)
    requires Permutation(permutation) && |permutation| == REPEATS * |bits|
    requires ParityHolds(llr, bits, permutation, s, p)
    requires |r.prior| == |permutation| && r.channel == llr[|bits|..]
    requires forall j :: 0 <= j < |permutation| ==> Slant(r.prior[j], Interleaved(bits, permutation)[j]) >= -s
    ensures Outvoted(r, Interleaved(bits, permutation), s, p)
  {
    hide Parity, Interleaved;
  }

  /**
   The accumulator corrects the systematic part: where every parity ratio speaks for its bit by at least twice
   what any systematic ratio speaks against its own, and that is less than 240, the message is decoded from the
   second iteration on, however many systematic ratios have the wrong sign.
   */
  lemma Corrects(llr: seq<real>, bits: seq<Bit>, permutation: seq<nat>, s: real, p: real, iterations: nat)
    requires Permutation(permutation) && |permutation| == REPEATS * |bits|
    requires ParityHolds(llr, bits, permutation, s, p) && p > 0.0 && s < 240.0 && iterations >= 2
    ensures forall r :: 0 <= r < |permutation| ==> ArgSort(permutation)[r] < |permutation|
    ensures Decision(After(llr, |bits|, permutation, iterations).posterior) == bits
  {
    PermutationFacts(permutation);
    StaysHeard(llr, bits, permutation, s, p, iterations - 1);
    var t := After(llr, |bits|, permutation, iterations - 1);
    TurnSpeaks(llr, bits, permutation, t.accExt, s, p, Worth(s, p));
    hide Turned, ParityHolds, Speaks, Interleaved;
    forall i | 0 <= i < |bits|
      ensures Favours(After(llr, |bits|, permutation, iterations).posterior[i], bits[i])
    {
      assert Slant(Turned(llr, |bits|, permutation, t.accExt).posterior[i], bits[i]) > 0.0;
    }
  }

  /** From the first iteration on the accumulator's ratios are worth that much. */
  lemma {:induction false} StaysHeard(llr: seq<real>, bits: seq<Bit>, permutation: seq<nat>, s: real, p: real, n: nat)
    requires Permutation(permutation) && |permutation| == REPEATS * |bits| && n > 0
    requires ParityHolds(llr, bits, permutation, s, p)
    requires forall r :: 0 <= r < |permutation| ==> ArgSort(permutation)[r] < |permutation|
    ensures 0.0 <= Worth(s, p) && Speaks(bits, permutation, After(llr, |bits|, permutation, n).accExt, Worth(s, p))
  {
    var e := if n == 1 then 0.0 else Worth(s, p);
    if n > 1 { StaysHeard(llr, bits, permutation, s, p, n - 1); }
    TurnSpeaks(llr, bits, permutation, After(llr, |bits|, permutation, n - 1).accExt, s, p, e);
    hide Turned, Interleaved;
  }
}
