/**
 The receive history: a ring of samples addressed by their absolute position in the capture,
 refined against the plain sequence it stands for.
 */
module AudioHistory {
  import opened Arithmetic
  import opened Common

  /** The samples retained, and the position of the first. */
  datatype History = History(start: nat, samples: seq<real>) {
    function End(): nat { start + |samples| }

    function At(p: nat): real
      requires start <= p < End()
    {
      samples[p - start]
    }

    function Between(from: nat, to: nat): Option<seq<real>> {
      if start <= from <= to <= End() then Some(samples[from - start..to - start]) else None
    }
  }

  /** An append that does not continue the history starts a new one; only the newest are kept. */
  function Appended(h: History, start: nat, samples: seq<real>, capacity: nat): (r: History)
    ensures r.End() == start + |samples| && |r.samples| <= capacity
  {
    var base := if start == h.End() then h else History(start, []);
    var all := base.samples + samples;
    var drop := if |all| > capacity then |all| - capacity else 0;
    History(base.start + drop, all[drop..])
  }

  function Discarded(h: History, end: int): (r: History)
    ensures r.End() == h.End()
  {
    var start := Min(h.End(), Max(h.start, end));
    History(start, h.samples[start - h.start..])
  }

  // -- against an unbounded recording ----------------------------------------------------

  datatype Op = Append(start: nat, samples: seq<real>) | Discard(end: int)

  function Retaining(h: History, op: Op, capacity: nat): History {
    match op
    case Append(start, samples) => Appended(h, start, samples, capacity)
    case Discard(end) => Discarded(h, end)
  }

  function Recorded(r: History, op: Op): History {
    match op
    case Append(start, samples) => if start == r.End() then History(r.start, r.samples + samples)
        else History(start, samples)
    case Discard(_) => r
  }

  /** The ring's history after a list of operations. */
  function Run(ops: seq<Op>, capacity: nat): History {
    if ops == [] then History(0, []) else Retaining(Run(ops[..|ops| - 1], capacity), ops[|ops| - 1], capacity)
  }

  /** Everything appended since the last gap, nothing forgotten. */
  function Recording(ops: seq<Op>): History {
    if ops == [] then History(0, []) else Recorded(Recording(ops[..|ops| - 1]), ops[|ops| - 1])
  }

  /** A history that is the newest part of a recording, at the recording's own positions. */
  predicate NewestOf(h: History, r: History) {
    r.start <= h.start && h.End() == r.End() && h.samples == r.samples[h.start - r.start..]
  }

  lemma {:induction false} RetainsRecording(ops: seq<Op>, capacity: nat)
    ensures |Run(ops, capacity).samples| <= capacity && NewestOf(Run(ops, capacity), Recording(ops))
  {
    if ops != [] {
      RetainsRecording(ops[..|ops| - 1], capacity);
      OpRetains(Run(ops[..|ops| - 1], capacity), Recording(ops[..|ops| - 1]), ops[|ops| - 1], capacity);
    }
  }

  /** So whatever read answers is the recording at the positions asked for. */
  lemma ReadsRecording(ops: seq<Op>, capacity: nat, from: nat, to: nat)
    ensures var h, r := Run(ops, capacity), Recording(ops);
      && (h.Between(from, to).Some? <==> h.start <= from <= to <= r.End())
      && (h.Between(from, to).Some? ==> h.Between(from, to) == r.Between(from, to))
  {
    RetainsRecording(ops, capacity);
    var h, r := Run(ops, capacity), Recording(ops);
    hide Run, Recording;
    if h.start <= from <= to <= h.End() {
      assert r.samples[h.start - r.start..][from - h.start..to - h.start] == r.samples[from - r.start..to - r.start];
    }
  }

  lemma OpRetains(h: History, r: History, op: Op, capacity: nat)
    requires NewestOf(h, r) && |h.samples| <= capacity
    ensures NewestOf(Retaining(h, op, capacity), Recorded(r, op)) && |Retaining(h, op, capacity).samples| <= capacity
  {
    match op
    case Append(start, samples) => AppendRetains(h, r, start, samples, capacity);
    case Discard(end) => DiscardRetains(h, r, end);
  }

  lemma DiscardRetains(h: History, r: History, end: int)
    requires NewestOf(h, r)
    ensures NewestOf(Discarded(h, end), r) && |Discarded(h, end).samples| <= |h.samples|
  {
  }

  lemma AppendRetains(h: History, r: History, start: nat, samples: seq<real>, capacity: nat)
    requires NewestOf(h, r)
    ensures NewestOf(Appended(h, start, samples, capacity), Recorded(r, Append(start, samples)))
  {
    if start == r.End() { assert (r.samples + samples)[h.start - r.start..] == h.samples + samples; }
  }

  /** After an append just the newest are kept: of it, and if it goes on from what was kept, of that. */
  lemma AppendKeeps(h: History, start: nat, samples: seq<real>, capacity: nat, p: nat)
    ensures var r := Appended(h, start, samples, capacity);
      && r.End() == start + |samples|
      && (r.start <= p < r.End() <==>
            r.End() <= p + capacity && (start <= p < r.End() || (start == h.End() && h.start <= p < h.End())))
      && (r.start <= p < r.End() ==> r.At(p) == if start <= p then samples[p - start] else h.At(p))
  {
  }

  /** Discarding forgets just what lies before the position. */
  lemma DiscardForgets(h: History, end: int, p: nat)
    ensures var r := Discarded(h, end);
      && (r.start <= p < r.End() <==> h.start <= p < h.End() && p >= end)
      && (r.start <= p < r.End() ==> r.At(p) == h.At(p))
  {
  }

  /** Where nothing is discarded, as much of the recording is kept as there is room for. */
  lemma {:induction false} KeepsWhatFits(ops: seq<Op>, capacity: nat)
    requires forall op :: op in ops ==> op.Append?
    ensures |Run(ops, capacity).samples| == Min(capacity, |Recording(ops).samples|)
  {
    if ops != [] {
      var init, op := ops[..|ops| - 1], ops[|ops| - 1];
      KeepsWhatFits(init, capacity);
      RetainsRecording(init, capacity);
      assert op in ops;
    }
  }

  // -- the ring --------------------------------------------------------------------------

  /** Different positions closer than the ring is long lie in different places. */
  lemma Places(p: nat, q: nat, n: nat)
    requires p < q < p + n
    ensures p % n != q % n
  {
    var d := q / n - p / n;
    assert q - p == n * d + (q % n - p % n) by { assert n * d == n * (q / n) - n * (p / n); }
    Multiples(n, d);
  }

  /** The place of a position some way on, with or without wrapping round. */
  lemma Wraps(p: nat, k: nat, n: nat)
    requires n > 0 && k <= n
    ensures p % n + k < n ==> (p + k) % n == p % n + k
    ensures p % n + k >= n ==> (p + k) % n == p % n + k - n
  {
    var q, r := p / n, p % n;
    if r + k < n {
      Quotient(p + k, n, q, r + k);
    } else if r + k < 2 * n {
      assert n * (q + 1) == n * q + n;
      Quotient(p + k, n, q + 1, r + k - n);
    }
  }

  /** Where a position lies in a ring of `n` places. */
  function Place(p: nat, n: nat): (i: nat)
    requires n > 0
    ensures i < n
  {
    p % n
  }

  class Ring {
    const data: array<real>
    var start: nat
    var end: nat
    ghost var contents: History

    /** The ring holds its contents, each sample in its place. */
    ghost predicate Valid()
      reads this, data
    {
      && data.Length > 0 && start == contents.start && end == contents.End() <= start + data.Length
      && forall p: nat :: start <= p < end ==> data[Place(p, data.Length)] == contents.At(p)
    }

    constructor (capacity: nat)
      requires capacity > 0
      ensures Valid() && fresh(data) && data.Length == capacity && contents == History(0, [])
    {
      data := new real[capacity];
      start, end, contents := 0, 0, History(0, []);
    }

    /** Copies samples into their places, as two slices: up to the end of the ring, and from its beginning. */
    method Write(at: nat, samples: seq<real>)
      requires data.Length > 0 && |samples| <= data.Length
      modifies data
      ensures forall p: nat :: at <= p < at + |samples| ==> data[Place(p, data.Length)] == samples[p - at]
      ensures forall p: nat :: at + |samples| <= p + data.Length && p < at ==>
        data[Place(p, data.Length)] == old(data[Place(p, data.Length)])
    {
      hide Place;
      var n := data.Length;
      var offset := Place(at, n);
      var split := Min(|samples|, n - offset);
      forall k | 0 <= k < split { data[offset + k] := samples[k]; }
      forall k | 0 <= k < |samples| - split { data[k] := samples[split + k]; }
      forall p: nat | at <= p < at + |samples| ensures data[Place(p, n)] == samples[p - at] {
        PlaceOn(at, p - at, n);
      }
      forall p: nat | at + |samples| <= p + n && p < at ensures data[Place(p, n)] == old(data[Place(p, n)]) {
        Untouched(p, at, |samples|, n);
      }
    }

    /** Audio that does not continue the history starts a new one. */
    method Restart(at: nat)
      requires Valid()
      modifies this
      ensures Valid() && contents == if at == old(end) then old(contents) else History(at, [])
    {
      if at != end {
        start, end, contents := at, at, History(at, []);
      }
    }

    /** Forgets everything and goes on from a position. */
    method Reset(at: nat)
      requires Valid()
      modifies this
      ensures Valid() && contents == History(at, [])
    {
      start, end, contents := at, at, History(at, []);
    }

    /** Takes in audio that continues the history, all of it or the newest the ring can hold. */
    method Extend(at: nat, samples: seq<real>)
      requires Valid() && at == end
      modifies this, data
      ensures Valid() && contents == Appended(old(contents), at, samples, data.Length)
    {
      hide Place, Appended;
      var stop := at + |samples|;
      var kept, from := samples, at;
      if |samples| > data.Length {
        kept := samples[|samples| - data.Length..];
        from := stop - |kept|;
      }
      ghost var next := Appended(contents, at, samples, data.Length);
      AppendedAt(contents, samples, data.Length);
      Write(from, kept);
      end := stop;
      start := Max(start, end - data.Length);
      forall p: nat | start <= p < end ensures data[Place(p, data.Length)] == next.At(p) {
        if p >= from { assert kept[p - from] == samples[p - at]; }
      }
      contents := next;
    }

    method Append(at: nat, samples: seq<real>)
      requires Valid()
      modifies this, data
      ensures Valid() && contents == Appended(old(contents), at, samples, data.Length)
    {
      Restart(at);
      Extend(at, samples);
    }

    method Discard(stop: int)
      requires Valid()
      modifies this
      ensures Valid() && contents == Discarded(old(contents), stop)
    {
      start := Min(end, Max(start, stop));
      contents := Discarded(contents, stop);
    }

    /** Fails outside the retained history. */
    method Read(from: Option<nat>, to: Option<nat>) returns (audio: Option<seq<real>>)
      requires Valid()
      ensures audio == contents.Between(if from.Some? then from.value else contents.start,
                                        if to.Some? then to.value else contents.End())
    {
      var s := if from.Some? then from.value else start;
      var e := if to.Some? then to.value else end;
      if !(start <= s <= e <= end) {
        return None;
      }
      hide Place;
      var n := data.Length;
      var offset := Place(s, n);
      var split := Min(e - s, n - offset);
      audio := Some(data[offset..offset + split] + data[..e - s - split]);
      forall k | 0 <= k < e - s ensures audio.value[k] == contents.At(s + k) {
        TwoSlices(data[..], s, e - s, k);
        assert data[Place(s + k, n)] == contents.At(s + k);
      }
      assert audio.value == contents.samples[s - start..e - start];
    }
  }

  /** Two slices of the ring, one up to its end and one from its beginning, in the order of positions. */
  lemma TwoSlices(d: seq<real>, at: nat, count: nat, k: nat)
    requires k < count <= |d|
    ensures var offset, split := Place(at, |d|), Min(count, |d| - Place(at, |d|));
      (d[offset..offset + split] + d[..count - split])[k] == d[Place(at + k, |d|)]
  {
    PlaceOn(at, k, |d|);
    hide Place;
  }

  lemma PlaceOn(p: nat, k: nat, n: nat)
    requires n > 0 && k <= n
    ensures Place(p + k, n) == if Place(p, n) + k < n then Place(p, n) + k else Place(p, n) + k - n
  {
    Wraps(p, k, n);
  }

  lemma AppendedAt(base: History, samples: seq<real>, capacity: nat)
    ensures var r := Appended(base, base.End(), samples, capacity);
      && r.start == Max(base.start, r.End() - capacity)
      && forall p: nat :: r.start <= p < r.End() ==>
        r.At(p) == if p < base.End() then base.At(p) else samples[p - base.End()]
  {
  }

  /** The place of an older position that is still wanted is none of those written. */
  lemma Untouched(p: nat, at: nat, count: nat, n: nat)
    requires n > 0 && count <= n && at + count <= p + n && p < at
    ensures var offset, split := Place(at, n), Min(count, n - Place(at, n));
      !(offset <= Place(p, n) < offset + split) && !(Place(p, n) < count - split)
  {
    var offset, split := at % n, Min(count, n - at % n);
    if offset <= p % n < offset + split {
      var k := p % n - offset;
      Wraps(at, k, n);
      Places(p, at + k, n);
    }
    if p % n < count - split {
      var k := split + p % n;
      Wraps(at, k, n);
      Places(p, at + k, n);
    }
  }
}
