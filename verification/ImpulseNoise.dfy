/**
 The impulse-noise channel: a random stream of bursts added to audio that arrives in pieces.
 The random generator is two given streams, the gaps between events and their amplitudes; the
 burst shape is given by its samples.
 */
module ImpulseNoise {
  import opened Common

  type Gap = g: int | g >= 1 witness 1

  datatype Event = Event(at: nat, amplitude: real)

  /** What a seed and the parameters determine. */
  datatype Source = Source(active: bool, gap: nat -> Gap, amplitude: nat -> real, shape: seq<real>) {
    /** When the k-th event starts, counted from the first sample ever processed. */
    function At(k: nat): (at: nat)
      ensures at > k
    {
      if k == 0 then gap(0) else At(k - 1) + gap(k)
    }

    /** What the k-th event adds to sample `t`. */
    function Hit(k: nat, t: nat): real {
      HitOf(Event(At(k), amplitude(k)), t)
    }

    function HitOf(e: Event, t: nat): real {
      if e.at <= t < e.at + |shape| then e.amplitude * shape[t - e.at] else 0.0
    }

    /** What the first `n` events add to sample `t`. */
    function Sum(n: nat, t: nat): real {
      if n == 0 then 0.0 else Sum(n - 1, t) + Hit(n - 1, t)
    }

    /** What the channel adds to sample `t`: no event after the t-th can have started by then. */
    function Noise(t: nat): real {
      if active then Sum(t, t) else 0.0
    }

    /** Of the first `n` events, those that still last at position `p`. */
    function Pending(n: nat, p: nat): seq<Event> {
      if n == 0 then []
      else Pending(n - 1, p) + (if At(n - 1) + |shape| > p then [Event(At(n - 1), amplitude(n - 1))] else [])
    }

    lemma {:induction false} Later(j: nat, k: nat)
      requires j < k
      ensures At(j) < At(k)
    {
      if j < k - 1 { Later(j, k - 1); }
    }

    lemma {:induction false} SumSettles(n: nat, m: nat, t: nat)
      requires n <= m && (n == m || At(n) > t)
      ensures Sum(m, t) == Sum(n, t)
      decreases m
    {
      if n < m {
        SumSettles(n, m - 1, t);
        if n < m - 1 { Later(n, m - 1); }
      }
    }

    /** Any count that covers the events started by `t` gives the noise at `t`. */
    lemma NoiseBy(n: nat, t: nat)
      requires if active then At(n) > t else n == 0
      ensures Sum(n, t) == Noise(t)
    {
      if !active {
      } else if n <= t { SumSettles(n, t, t); } else { SumSettles(t, n, t); }
    }
  }

  /** Everything a list of events adds to sample `t`. */
  function Total(s: Source, events: seq<Event>, t: nat): real {
    if events == [] then 0.0
    else Total(s, events[..|events| - 1], t) + s.HitOf(events[|events| - 1], t)
  }

  function Lasting(s: Source, events: seq<Event>, p: nat): seq<Event> {
    if events == [] then []
    else
      var e := events[|events| - 1];
      Lasting(s, events[..|events| - 1], p) + (if e.at + |s.shape| > p then [e] else [])
  }

  /** An event is one burst of the channel's shape at its own amplitude, and silence before and after. */
  lemma HitsOnce(s: Source, e: Event, t: nat)
    ensures t < e.at || t >= e.at + |s.shape| ==> s.HitOf(e, t) == 0.0
    ensures forall i :: 0 <= i < |s.shape| ==> s.HitOf(e, e.at + i) == e.amplitude * s.shape[i]
  {
  }

  /** What an event adds is in proportion to its amplitude. */
  lemma Scales(s: Source, e: Event, more: real, t: nat)
    ensures s.HitOf(e.(amplitude := e.amplitude + more), t) == s.HitOf(e, t) + s.HitOf(e.(amplitude := more), t)
  {
  }

  /** Events no longer pending at `p` add nothing from there on. */
  lemma {:induction false} PendingTotal(s: Source, n: nat, p: nat, t: nat)
    requires p <= t
    ensures Total(s, s.Pending(n, p), t) == s.Sum(n, t)
  {
    if n > 0 {
      PendingTotal(s, n - 1, p, t);
      var init, e := s.Pending(n - 1, p), Event(s.At(n - 1), s.amplitude(n - 1));
      assert (init + [e])[..|init|] == init;
      assert s.Pending(n, p) == init + [e] || (s.Pending(n, p) == init && s.HitOf(e, t) == 0.0);
    }
  }

  lemma {:induction false} LastingPending(s: Source, n: nat, p: nat, q: nat)
    requires p <= q
    ensures Lasting(s, s.Pending(n, p), q) == s.Pending(n, q)
  {
    if n > 0 {
      LastingPending(s, n - 1, p, q);
      var init, e := s.Pending(n - 1, p), Event(s.At(n - 1), s.amplitude(n - 1));
      assert (init + [e])[..|init|] == init;
      assert s.Pending(n, p) == init + [e] || (s.Pending(n, p) == init && s.Pending(n, q) == s.Pending(n - 1, q));
    }
  }

  /** What the channel makes of a piece that starts at `position`. */
  function Noisy(s: Source, position: nat, audio: seq<real>): (out: seq<real>)
    ensures |out| == |audio|
  {
    seq(|audio|, i requires 0 <= i < |audio| => audio[i] + s.Noise(position + i))
  }

  function NoisyPieces(s: Source, position: nat, pieces: seq<seq<real>>): seq<real> {
    if pieces == [] then []
    else
      var init := pieces[..|pieces| - 1];
      NoisyPieces(s, position, init) + Noisy(s, position + |Join(init)|, pieces[|pieces| - 1])
  }

  /** However the audio is cut, the samples that come out are those of the whole at once. */
  lemma {:induction false} CutsDoNotShow(s: Source, position: nat, pieces: seq<seq<real>>)
    ensures NoisyPieces(s, position, pieces) == Noisy(s, position, Join(pieces))
  {
    if pieces != [] {
      CutsDoNotShow(s, position, pieces[..|pieces| - 1]);
    }
  }

  /** The pending events of a position carry all the noise of the samples from there on. */
  lemma InjectedNoise(s: Source, n: nat, start: nat, injected: seq<real>, audio: seq<real>, out: seq<real>)
    requires |injected| == |audio| == |out| && forall i :: 0 <= i < |out| ==> out[i] == audio[i] + injected[i]
    requires forall i :: 0 <= i < |injected| ==> injected[i] == Total(s, s.Pending(n, start), start + i)
    requires if s.active then s.At(n) >= start + |audio| else n == 0
    ensures out == Noisy(s, start, audio)
  {
    hide Source.Pending, Total, Source.Sum, Source.Noise, Source.At;
    forall i | 0 <= i < |audio| ensures injected[i] == s.Noise(start + i) {
      PendingTotal(s, n, start, start + i);
      s.NoiseBy(n, start + i);
    }
  }

  class Channel {
    const source: Source
    var position: nat
    var events: seq<Event>
    var nextEvent: Option<nat>
    /** How far into the random streams the generator is. */
    var drawn: nat

    /** The whole state is what the position says it must be. */
    ghost predicate Valid()
      reads this
    {
      && |source.shape| > 0
      && (if source.active then
            && nextEvent == Some(source.At(drawn) - position) && source.At(drawn) >= position
            && (drawn > 0 ==> source.At(drawn - 1) < position)
          else nextEvent == None && drawn == 0)
      && events == source.Pending(drawn, position)
    }

    constructor (source: Source)
      requires |source.shape| > 0
      ensures Valid() && position == 0 && this.source == source
    {
      this.source := source;
      position, events, drawn := 0, [], 0;
      nextEvent := if source.active then Some(source.gap(0)) else None;
    }

    /** Draws the events that start before `stop`. */
    method Draw(stop: nat) returns (newEvents: nat)
      requires Valid() && position <= stop
      modifies this`events, this`nextEvent, this`drawn
      ensures events == source.Pending(drawn, position) && drawn == old(drawn) + newEvents
      ensures source.active ==>
        && nextEvent == Some(source.At(drawn) - position) && source.At(drawn) >= stop
        && (drawn > 0 ==> source.At(drawn - 1) < stop)
      ensures !source.active ==> nextEvent == None && drawn == 0
    {
      newEvents := 0;
      while nextEvent.Some? && position + nextEvent.value < stop
        invariant drawn == old(drawn) + newEvents
        invariant source.active ==>
          && nextEvent == Some(source.At(drawn) - position) && source.At(drawn) >= position
          && (drawn > 0 ==> source.At(drawn - 1) < stop)
        invariant !source.active ==> nextEvent == None && drawn == 0
        invariant events == source.Pending(drawn, position)
        decreases if nextEvent.Some? then stop - position - nextEvent.value else 0
      {
        var eventAt := position + nextEvent.value;
        events := events + [Event(eventAt, source.amplitude(drawn))];
        drawn := drawn + 1;
        newEvents := newEvents + 1;
        nextEvent := Some(eventAt + source.gap(drawn) - position);
      }
    }

    /** Adds the noise of the next piece, whatever its length. */
    method Process(audio: seq<real>) returns (out: seq<real>, newEvents: nat)
      requires Valid()
      modifies this
      ensures Valid() && position == old(position) + |audio|
      ensures out == Noisy(source, old(position), audio)
      ensures drawn == old(drawn) + newEvents
    {
      var start, stop := position, position + |audio|;
      newEvents := Draw(stop);
      if nextEvent.Some? {
        nextEvent := Some(nextEvent.value - |audio|);
      }
      var injected := Inject(start, stop);
      out := seq(|audio|, i requires 0 <= i < |audio| && |injected| == |audio| => audio[i] + injected[i]);
      InjectedNoise(source, drawn, start, injected, audio, out);
      Retire(stop);
    }

    /** Forgets the events that have run out. */
    method Retire(stop: nat)
      requires position <= stop && events == source.Pending(drawn, position)
      modifies this`events, this`position
      ensures position == stop && events == source.Pending(drawn, stop)
    {
      LastingPending(source, drawn, position, stop);
      events := Lasting(source, events, stop);
      position := stop;
    }

    /** The bursts of the listed events, laid over one piece. */
    method Inject(start: nat, stop: nat) returns (injected: seq<real>)
      requires start <= stop
      ensures |injected| == stop - start
      ensures forall i :: 0 <= i < |injected| ==> injected[i] == Total(source, events, start + i)
    {
      var samples := new real[stop - start](i => 0.0);
      for j := 0 to |events|
        invariant forall i :: 0 <= i < samples.Length ==> samples[i] == Total(source, events[..j], start + i)
      {
        var e := events[j];
        var left, right := Max(start, e.at), Min(stop, e.at + |source.shape|);
        ghost var before := samples[..];
        assert events[..j + 1][..j] == events[..j];
        if left < right {
          for t := left to right
            invariant forall i :: 0 <= i < samples.Length ==>
              samples[i] == before[i] + (if left <= start + i < t then source.HitOf(e, start + i) else 0.0)
          {
            samples[t - start] := samples[t - start] + e.amplitude * source.shape[t - e.at];
          }
        }
      }
      assert events[..|events|] == events;
      return samples[..];
    }
  }

  /** Two channels from one seed that have processed as much are in the same state, however it was cut. */
  lemma SameState(a: Channel, b: Channel)
    requires a.Valid() && b.Valid() && a.source == b.source && a.position == b.position
    ensures a.drawn == b.drawn && a.nextEvent == b.nextEvent && a.events == b.events
  {
    if a.source.active {
      if a.drawn < b.drawn {
        if a.drawn < b.drawn - 1 { a.source.Later(a.drawn, b.drawn - 1); }
      } else if b.drawn < a.drawn {
        if b.drawn < a.drawn - 1 { a.source.Later(b.drawn, a.drawn - 1); }
      }
    }
  }
}
