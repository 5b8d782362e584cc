/**
 The receive decimator: a finite impulse response filter and a decimation by four whose history and
 phase carry over from one callback to the next. The taps are given.
 */
module Decimator {
  import opened Common

  const DECIMATION := 4

  /** A sample of a capture, zero outside it. */
  function Sample(x: seq<real>, n: int): real {
    if 0 <= n < |x| then x[n] else 0.0
  }

  /** The first `k` terms of the convolution at position `n`. */
  function Partial(taps: seq<real>, x: seq<real>, n: int, k: nat): real
    requires k <= |taps|
  {
    if k == 0 then 0.0 else Partial(taps, x, n, k - 1) + taps[k - 1] * Sample(x, n - (k - 1))
  }

  function Convolved(taps: seq<real>, x: seq<real>, n: int): real {
    Partial(taps, x, n, |taps|)
  }

  /** The whole capture filtered, and every fourth sample of that kept, the first among them. */
  function Downsampled(taps: seq<real>, x: seq<real>): (y: seq<real>)
    ensures |y| == (|x| + DECIMATION - 1) / DECIMATION
    ensures forall m :: 0 <= m < |y| ==> y[m] == Convolved(taps, x, DECIMATION * m)
  {
    seq((|x| + DECIMATION - 1) / DECIMATION, m requires 0 <= m => Convolved(taps, x, DECIMATION * m))
  }

  // -- the filter, sample by sample ----------------------------------------------------

  /** The transposed filter's delay line after `x`: what `x` still owes the samples to come. */
  function Owed(taps: seq<real>, x: seq<real>): (z: seq<real>)
    requires taps != []
    ensures |z| == |taps| - 1
  {
    seq(|taps| - 1, i requires 0 <= i => Convolved(taps, x, |x| + i))
  }

  /** One sample through the filter: its output, and the delay line moved up. */
  function Shifted(taps: seq<real>, z: seq<real>, sample: real): (z': seq<real>)
    requires |z| == |taps| - 1
    ensures |z'| == |z|
  {
    seq(|z|, i requires 0 <= i < |z| => (if i + 1 < |z| then z[i + 1] else 0.0) + taps[i + 1] * sample)
  }

  function First(taps: seq<real>, z: seq<real>, sample: real): real
    requires |z| == |taps| - 1
  {
    taps[0] * sample + (if z != [] then z[0] else 0.0)
  }

  lemma TermMore(taps: seq<real>, x: seq<real>, s: real, n: int, j: nat)
    requires j < |taps|
    ensures taps[j] * Sample(x + [s], n - j)
         == taps[j] * Sample(x, n - j) + (if n - |x| == j then taps[j] * s else 0.0)
  {
  }

  lemma {:induction false} PartialMore(taps: seq<real>, x: seq<real>, s: real, n: int, k: nat)
    requires k <= |taps|
    ensures Partial(taps, x + [s], n, k)
         == Partial(taps, x, n, k) + (if 0 <= n - |x| < k then taps[n - |x|] * s else 0.0)
  {
    if k > 0 {
      PartialMore(taps, x, s, n, k - 1);
      TermMore(taps, x, s, n, k - 1);
      hide Sample;
    }
  }

  lemma {:induction false} PartialBeyond(taps: seq<real>, x: seq<real>, n: int, k: nat)
    requires k <= |taps| && n >= |x| + k - 1
    ensures Partial(taps, x, n, k) == 0.0
  {
    if k > 0 { PartialBeyond(taps, x, n, k - 1); }
  }

  /** A sample through a delay line that owes what it should gives the convolution, and keeps it so. */
  lemma StepConvolves(taps: seq<real>, x: seq<real>, s: real)
    requires taps != []
    ensures First(taps, Owed(taps, x), s) == Convolved(taps, x + [s], |x|)
    ensures Shifted(taps, Owed(taps, x), s) == Owed(taps, x + [s])
  {
    PartialMore(taps, x, s, |x|, |taps|);
    if |taps| == 1 { PartialBeyond(taps, x, |x|, 1); } else { assert Owed(taps, x)[0] == Convolved(taps, x, |x| + 0); }
    forall i | 0 <= i < |taps| - 1 ensures Shifted(taps, Owed(taps, x), s)[i] == Owed(taps, x + [s])[i] {
      OwedStep(taps, x, s, i);
    }
  }

  lemma OwedStep(taps: seq<real>, x: seq<real>, s: real, i: nat)
    requires i < |taps| - 1
    ensures Shifted(taps, Owed(taps, x), s)[i] == Owed(taps, x + [s])[i]
  {
    var n := |x| + (i + 1);
    PartialMore(taps, x, s, n, |taps|);
    assert n - |x| == i + 1 && |x + [s]| + i == n;
    assert Convolved(taps, x + [s], n) == Convolved(taps, x, n) + taps[i + 1] * s;
    if i + 1 < |taps| - 1 {
      assert Owed(taps, x)[i + 1] == Convolved(taps, x, n);
    } else {
      PartialBeyond(taps, x, n, |taps|);
      assert Convolved(taps, x, n) == 0.0;
    }
  }

  lemma FilterStep(taps: seq<real>, heard: seq<real>, samples: seq<real>, i: nat)
    requires taps != [] && i < |samples|
    ensures var z := Owed(taps, heard + samples[..i]);
      && First(taps, z, samples[i]) == Convolved(taps, heard + samples, |heard| + i)
      && Shifted(taps, z, samples[i]) == Owed(taps, heard + samples[..i + 1])
  {
    hide Partial, Owed, Shifted, First;
    var x := heard + samples[..i];
    StepConvolves(taps, x, samples[i]);
    assert heard + samples[..i + 1] == x + [samples[i]];
    assert heard + samples == heard + samples[..i + 1] + samples[i + 1..];
    Causal(taps, heard + samples[..i + 1], samples[i + 1..], |heard| + i, |taps|);
  }

  /** Samples to come do not change what has been put out. */
  lemma {:induction false} Causal(taps: seq<real>, x: seq<real>, y: seq<real>, n: int, k: nat)
    requires k <= |taps| && n < |x|
    ensures Partial(taps, x + y, n, k) == Partial(taps, x, n, k)
  {
    if k > 0 { Causal(taps, x, y, n, k - 1); }
  }

  lemma DownsampledGrows(taps: seq<real>, x: seq<real>, y: seq<real>)
    ensures Downsampled(taps, x) <= Downsampled(taps, x + y)
  {
    forall m | 0 <= m < |Downsampled(taps, x)| ensures Downsampled(taps, x)[m] == Downsampled(taps, x + y)[m] {
      Causal(taps, x, y, DECIMATION * m, |taps|);
    }
  }

  class ReceiveDecimator {
    const taps: seq<real>
    var zi: seq<real>
    var inputSamples: nat
    /** Every sample ever processed. */
    ghost var heard: seq<real>

    ghost predicate Valid()
      reads this
    {
      taps != [] && zi == Owed(taps, heard) && inputSamples == |heard|
    }

    constructor (taps: seq<real>)
      requires taps != []
      ensures Valid() && heard == [] && this.taps == taps
    {
      this.taps := taps;
      zi := seq(|taps| - 1, i => 0.0);
      inputSamples, heard := 0, [];
      new;
      forall i | 0 <= i < |zi| ensures zi[i] == Convolved(taps, [], i) { PartialEmpty(taps, i, |taps|); }
      assert zi == Owed(taps, heard);
    }

    /** Filters one piece, the delay line carrying over. */
    method Filter(samples: seq<real>) returns (filtered: seq<real>)
      requires Valid()
      modifies this`zi
      ensures zi == Owed(taps, heard + samples) && |filtered| == |samples|
      ensures forall i :: 0 <= i < |samples| ==> filtered[i] == Convolved(taps, heard + samples, |heard| + i)
    {
      hide Convolved, Owed, Shifted, First;
      filtered := [];
      assert heard + samples[..0] == heard;
      for i := 0 to |samples|
        invariant zi == Owed(taps, heard + samples[..i]) && |filtered| == i
        invariant forall j :: 0 <= j < i ==> filtered[j] == Convolved(taps, heard + samples, |heard| + j)
      {
        FilterStep(taps, heard, samples, i);
        filtered := filtered + [First(taps, zi, samples[i])];
        zi := Shifted(taps, zi, samples[i]);
      }
      assert samples[..|samples|] == samples;
    }

    /** Puts out what the piece adds to the downsampled capture. */
    method Process(audio: seq<real>) returns (out: seq<real>)
      requires Valid()
      modifies this
      ensures Valid() && heard == old(heard) + audio
      ensures Downsampled(taps, heard) == Downsampled(taps, old(heard)) + out
    {
      if audio == [] {
        assert heard + [] == heard;
        return [];
      }
      var filtered := Filter(audio);
      var first := (0 - inputSamples) % DECIMATION;
      inputSamples := inputSamples + |audio|;
      heard := heard + audio;
      out := Every(filtered, first);
      DownsampledGrows(taps, old(heard), audio);
      SplitsAt(taps, old(heard), audio, filtered, first);
    }
  }

  lemma {:induction false} PartialEmpty(taps: seq<real>, n: int, k: nat)
    requires k <= |taps|
    ensures Partial(taps, [], n, k) == 0.0
  {
    if k > 0 { PartialEmpty(taps, n, k - 1); }
  }

  /** Every fourth sample from `first` on. */
  function Every(v: seq<real>, first: nat): (e: seq<real>)
    ensures |e| == if |v| <= first then 0 else (|v| - first + DECIMATION - 1) / DECIMATION
    ensures forall m :: 0 <= m < |e| ==> first + DECIMATION * m < |v| && e[m] == v[first + DECIMATION * m]
  {
    if |v| <= first then []
    else
      seq((|v| - first + DECIMATION - 1) / DECIMATION,
          m requires 0 <= m < (|v| - first + DECIMATION - 1) / DECIMATION => v[first + DECIMATION * m])
  }

  lemma SplitsAt(taps: seq<real>, x: seq<real>, audio: seq<real>, filtered: seq<real>, first: nat)
    requires |filtered| == |audio| && first == (0 - |x|) % DECIMATION
    requires forall i :: 0 <= i < |audio| ==> filtered[i] == Convolved(taps, x + audio, |x| + i)
    requires Downsampled(taps, x) <= Downsampled(taps, x + audio)
    ensures Downsampled(taps, x + audio) == Downsampled(taps, x) + Every(filtered, first)
  {
    var d, e, all := Downsampled(taps, x), Every(filtered, first), Downsampled(taps, x + audio);
    SplitsCount(taps, x, audio, filtered, first);
    hide *;
    forall m | 0 <= m < |e| ensures all[|d| + m] == e[m] {
      SplitsOne(taps, x, audio, filtered, first, m);
    }
    Joined(all, d, e);
  }

  lemma Joined(all: seq<real>, d: seq<real>, e: seq<real>)
    requires d <= all && |all| == |d| + |e| && forall m :: 0 <= m < |e| ==> all[|d| + m] == e[m]
    ensures all == d + e
  {
    assert all[|d|..] == e;
  }

  lemma SplitsCount(taps: seq<real>, x: seq<real>, audio: seq<real>, filtered: seq<real>, first: nat)
    requires |filtered| == |audio| && first == (0 - |x|) % DECIMATION
    ensures |Downsampled(taps, x + audio)| == |Downsampled(taps, x)| + |Every(filtered, first)|
  {
    Phase(|x|, |audio|, first);
  }

  lemma SplitsOne(taps: seq<real>, x: seq<real>, audio: seq<real>, filtered: seq<real>, first: nat, m: nat)
    requires |filtered| == |audio| && first == (0 - |x|) % DECIMATION && m < |Every(filtered, first)|
    requires forall i :: 0 <= i < |audio| ==> filtered[i] == Convolved(taps, x + audio, |x| + i)
    ensures |Downsampled(taps, x)| + m < |Downsampled(taps, x + audio)|
    ensures Downsampled(taps, x + audio)[|Downsampled(taps, x)| + m] == Every(filtered, first)[m]
  {
    Phase(|x|, |audio|, first);
    hide Convolved;
    assert |x| + (first + DECIMATION * m) == DECIMATION * (|Downsampled(taps, x)| + m);
  }

  /** The piece's first sample to keep follows the last one kept, and their numbers add up. */
  lemma Phase(n: nat, more: nat, first: nat)
    requires first == (0 - n) % DECIMATION
    ensures n + first == DECIMATION * ((n + DECIMATION - 1) / DECIMATION)
    ensures (n + more + DECIMATION - 1) / DECIMATION == (n + DECIMATION - 1) / DECIMATION
      + (if more <= first then 0 else (more - first + DECIMATION - 1) / DECIMATION)
  {
  }

  /** One fresh converter, the whole capture. */
  method Downsample(taps: seq<real>, audio: seq<real>) returns (out: seq<real>)
    requires taps != []
    ensures out == Downsampled(taps, audio)
  {
    var d := new ReceiveDecimator(taps);
    out := d.Process(audio);
    assert [] + audio == audio;
  }
}
