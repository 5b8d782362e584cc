/**
 Incremental preamble acquisition: fixed windows over the receive history, however the audio was
 cut into callbacks. The acquisition itself is given.
 */
module OfdmSearch {
  import opened Common
  import opened AudioHistory

  const BLOCK := 3000
  const GUARD := 240
  const THRESHOLD := 0.12

  /** What acquisition finds in a window, its position counted from the window's first sample. */
  datatype Peak = Peak(confidence: real, at: nat, hz: real, strength: real)

  /** `acquire` searches the starts from one offset into a window up to another. */
  datatype Phy = Phy(preamble: nat, acquire: (seq<real>, nat, nat) -> Peak)

  datatype Candidate = Candidate(confidence: real, at: nat, hz: real, strength: real)

  datatype Search = Search(cursor: nat, candidates: seq<Candidate>, windows: nat)

  function Far(a: nat, b: nat): nat {
    if a < b then b - a else a - b
  }

  /** The first candidate less than a preamble away from a position. */
  function Nearby(candidates: seq<Candidate>, at: nat, preamble: nat): (i: nat)
    ensures i <= |candidates|
    ensures i < |candidates| ==> Far(candidates[i].at, at) < preamble
    ensures forall k :: 0 <= k < i ==> Far(candidates[k].at, at) >= preamble
  {
    if candidates == [] || Far(candidates[0].at, at) < preamble then 0
    else 1 + Nearby(candidates[1..], at, preamble)
  }

  function Merge(candidates: seq<Candidate>, c: Candidate, preamble: nat): seq<Candidate> {
    var i := Nearby(candidates, c.at, preamble);
    if i == |candidates| then candidates + [c]
    else if c.strength > candidates[i].strength then candidates[i := c]
    else candidates
  }

  function Retained(candidates: seq<Candidate>, start: nat): (r: seq<Candidate>)
    ensures forall c :: c in r ==> c.at >= start
  {
    if candidates == [] then []
    else
      var c := candidates[|candidates| - 1];
      Retained(candidates[..|candidates| - 1], start) + (if c.at >= start then [c] else [])
  }

  function High(phy: Phy, cursor: nat): int {
    cursor + BLOCK + phy.preamble - 1 + GUARD
  }

  function Low(audio: History, cursor: nat): nat {
    Max(audio.start, cursor - GUARD)
  }

  /** The window at the cursor searched, and the cursor moved one block on. */
  function Step(phy: Phy, s: Search, audio: History): (r: Search)
    requires audio.start <= s.cursor && High(phy, s.cursor) <= audio.End()
    ensures r.cursor == s.cursor + BLOCK
  {
    var low := Low(audio, s.cursor);
    var window := audio.Between(low, High(phy, s.cursor)).value;
    var p := phy.acquire(window, s.cursor - low, s.cursor - low + BLOCK);
    var c := Candidate(p.confidence, p.at + low, p.hz, p.strength);
    Search(s.cursor + BLOCK,
           if p.confidence >= THRESHOLD then Merge(s.candidates, c, phy.preamble) else s.candidates,
           s.windows + 1)
  }

  function Sweep(phy: Phy, s: Search, audio: History): (r: Search)
    requires audio.start <= s.cursor
    ensures r.cursor >= s.cursor
    decreases audio.End() - s.cursor
  {
    if High(phy, s.cursor) <= audio.End() then Sweep(phy, Step(phy, s, audio), audio) else s
  }

  function Cleaned(s: Search, audio: History): Search {
    Search(Max(s.cursor, audio.start), Retained(s.candidates, audio.start), s.windows)
  }

  function Updated(phy: Phy, s: Search, audio: History): Search {
    Sweep(phy, Cleaned(s, audio), audio)
  }

  // -- chunks ------------------------------------------------------------------------

  ghost predicate Tidy(s: Search, start: nat) {
    s.cursor >= start && forall c :: c in s.candidates ==> c.at >= start
  }

  lemma {:induction false} RetainsTidy(candidates: seq<Candidate>, start: nat)
    requires forall c :: c in candidates ==> c.at >= start
    ensures Retained(candidates, start) == candidates
  {
    if candidates != [] { RetainsTidy(candidates[..|candidates| - 1], start); }
  }

  lemma {:induction false} SweepTidy(phy: Phy, s: Search, audio: History)
    requires Tidy(s, audio.start)
    ensures Tidy(Sweep(phy, s, audio), audio.start)
    decreases audio.End() - s.cursor
  {
    if High(phy, s.cursor) <= audio.End() { SweepTidy(phy, Step(phy, s, audio), audio); }
  }

  /** More audio behind a window does not change what the window holds. */
  lemma StepPrefix(phy: Phy, s: Search, audio: History, more: seq<real>)
    requires audio.start <= s.cursor && High(phy, s.cursor) <= audio.End()
    ensures Step(phy, s, History(audio.start, audio.samples + more)) == Step(phy, s, audio)
  {
    var longer := History(audio.start, audio.samples + more);
    var low, high := Low(audio, s.cursor), High(phy, s.cursor);
    assert longer.Between(low, high).value == audio.Between(low, high).value;
  }

  /** Searching what has come and then the rest finds what searching all of it finds. */
  lemma {:induction false} SweepTwice(phy: Phy, s: Search, audio: History, more: seq<real>)
    requires audio.start <= s.cursor
    ensures var longer := History(audio.start, audio.samples + more);
      Sweep(phy, Sweep(phy, s, audio), longer) == Sweep(phy, s, longer)
    decreases audio.End() - s.cursor
  {
    if High(phy, s.cursor) <= audio.End() {
      StepPrefix(phy, s, audio, more);
      SweepTwice(phy, Step(phy, s, audio), audio, more);
    }
  }

  /** Updated once for every piece, all that has come by then being in the history. */
  function Fed(phy: Phy, s: Search, start: nat, pieces: seq<seq<real>>): Search {
    if pieces == [] then s
    else Updated(phy, Fed(phy, s, start, pieces[..|pieces| - 1]), History(start, Join(pieces)))
  }

  /** While the start of the history stays put, the cutting into pieces does not show. */
  lemma {:induction false} BatchingDoesNotShow(phy: Phy, s: Search, start: nat, pieces: seq<seq<real>>)
    requires pieces != []
    ensures Fed(phy, s, start, pieces) == Updated(phy, s, History(start, Join(pieces)))
    decreases |pieces|
  {
    var init := pieces[..|pieces| - 1];
    if init != [] {
      BatchingDoesNotShow(phy, s, start, init);
      var audio := History(start, Join(init));
      SweepTidy(phy, Cleaned(s, audio), audio);
      RetainsTidy(Fed(phy, s, start, init).candidates, start);
      SweepTwice(phy, Cleaned(s, audio), audio, pieces[|pieces| - 1]);
    }
  }

  // -- what a search keeps ---------------------------------------------------------------

  /** Two places less than a preamble apart, so both found for the same one. */
  predicate Same(a: nat, b: nat, preamble: nat) {
    a < b + preamble && b < a + preamble
  }

  /** What has been found stays found, unless something stronger is found in its place. */
  ghost predicate Bettered(c: Candidate, found: seq<Candidate>) {
    exists d :: d in found && (d == c || d.strength > c.strength)
  }

  /** A find is kept, or one at least as strong near by it; what was kept before stays or gives way to it. */
  lemma MergeKeeps(candidates: seq<Candidate>, c: Candidate, preamble: nat)
    ensures var r := Merge(candidates, c, preamble);
      && (forall d :: d in r ==> d in candidates || d == c)
      && (exists d :: d in r && (d == c || (Same(d.at, c.at, preamble) && d.strength >= c.strength)))
      && (forall d :: d in candidates && d !in r ==>
            c in r && Same(d.at, c.at, preamble) && d.strength < c.strength)
      && |candidates| <= |r| <= |candidates| + 1
      && (|r| == |candidates| + 1 ==> forall d :: d in candidates ==> !Same(d.at, c.at, preamble))
  {
    var i, r := Nearby(candidates, c.at, preamble), Merge(candidates, c, preamble);
    hide Nearby, Merge;
    if i == |candidates| {
      assert r == candidates + [c] by { MergeIs(candidates, c, preamble); }
      assert r[|candidates|] == c;
    } else {
      MergeIs(candidates, c, preamble);
      if c.strength > candidates[i].strength {
        assert r[i] == c && forall k :: 0 <= k < |candidates| && k != i ==> r[k] == candidates[k];
        assert forall d :: d in candidates && d !in r ==> d == candidates[i];
      } else {
        assert r[i] in r;
      }
    }
  }

  lemma MergeIs(candidates: seq<Candidate>, c: Candidate, preamble: nat)
    ensures var i := Nearby(candidates, c.at, preamble);
      Merge(candidates, c, preamble)
        == if i == |candidates| then candidates + [c]
           else if c.strength > candidates[i].strength then candidates[i := c] else candidates
  {
    hide Nearby;
  }

  /** The window a step searches, sample by sample, and the starts asked for: the block at the cursor. */
  ghost predicate Shown(phy: Phy, s: Search, audio: History, window: seq<real>, low: nat, from: nat, to: nat)
    requires audio.start <= s.cursor && High(phy, s.cursor) <= audio.End()
  {
    && low + from == s.cursor && low + to == s.cursor + BLOCK && (from == GUARD || low == audio.start) && from <= GUARD
    && low + |window| == s.cursor + BLOCK + phy.preamble - 1 + GUARD
    && forall k :: 0 <= k < |window| ==> audio.start <= low + k < audio.End() && window[k] == audio.At(low + k)
  }

  /** A peak found with enough confidence is kept at the place in the audio where acquisition saw it. */
  lemma StepFinds(phy: Phy, s: Search, audio: History)
    requires audio.start <= s.cursor && High(phy, s.cursor) <= audio.End()
    ensures exists window: seq<real>, low: nat, from: nat, to: nat ::
      && Shown(phy, s, audio, window, low, from, to)
      && var p, r := phy.acquire(window, from, to), Step(phy, s, audio);
         r.candidates == if p.confidence < THRESHOLD then s.candidates
                         else Merge(s.candidates, Candidate(p.confidence, low + p.at, p.hz, p.strength), phy.preamble)
  {
    var low := Low(audio, s.cursor);
    var window := audio.Between(low, High(phy, s.cursor)).value;
    assert Shown(phy, s, audio, window, low, s.cursor - low, s.cursor - low + BLOCK);
    hide Merge, Shown;
  }

  /** Nothing found is lost in a sweep but to something stronger. */
  lemma {:induction false} SweepKeeps(phy: Phy, s: Search, audio: History, c: Candidate)
    requires audio.start <= s.cursor && Bettered(c, s.candidates)
    ensures Bettered(c, Sweep(phy, s, audio).candidates)
    decreases audio.End() - s.cursor
  {
    if High(phy, s.cursor) <= audio.End() {
      var r := Step(phy, s, audio);
      StepFinds(phy, s, audio);
      StillBettered(phy, s.candidates, r.candidates, c);
      hide Step, Bettered;
      SweepKeeps(phy, r, audio, c);
    }
  }

  lemma StillBettered(phy: Phy, before: seq<Candidate>, after: seq<Candidate>, c: Candidate)
    requires Bettered(c, before)
    requires after == before || exists d: Candidate :: after == Merge(before, d, phy.preamble)
    ensures Bettered(c, after)
  {
    var b :| b in before && (b == c || b.strength > c.strength);
    if after != before {
      var d :| after == Merge(before, d, phy.preamble);
      MergeKeeps(before, d, phy.preamble);
      hide Merge;
      if b !in after { assert d in after; }
    }
  }

  // -- coverage ------------------------------------------------------------------------

  /** The starts of the blocks one sweep searches. */
  function Blocks(phy: Phy, cursor: nat, audio: History): seq<nat>
    decreases audio.End() - cursor
  {
    if High(phy, cursor) <= audio.End() then [cursor] + Blocks(phy, cursor + BLOCK, audio) else []
  }

  /** The search after an update for each history in turn, and every block it searched. */
  function After(phy: Phy, s: Search, audios: seq<History>): Search {
    if audios == [] then s else Updated(phy, After(phy, s, audios[..|audios| - 1]), audios[|audios| - 1])
  }

  function Searched(phy: Phy, s: Search, audios: seq<History>): seq<nat> {
    if audios == [] then []
    else
      var before, audio := After(phy, s, audios[..|audios| - 1]), audios[|audios| - 1];
      Searched(phy, s, audios[..|audios| - 1]) + Blocks(phy, Max(before.cursor, audio.start), audio)
  }

  predicate Covers(blocks: seq<nat>, p: nat) {
    exists i :: 0 <= i < |blocks| && blocks[i] <= p < blocks[i] + BLOCK
  }

  lemma {:induction false} BlocksTile(phy: Phy, s: Search, audio: History)
    requires audio.start <= s.cursor
    ensures var bs, r := Blocks(phy, s.cursor, audio), Sweep(phy, s, audio);
      && (forall i :: 0 <= i < |bs| ==> bs[i] == s.cursor + i * BLOCK)
      && r.cursor == s.cursor + |bs| * BLOCK && r.windows == s.windows + |bs|
    decreases audio.End() - s.cursor
  {
    if High(phy, s.cursor) <= audio.End() { BlocksTile(phy, Step(phy, s, audio), audio); }
  }

  lemma TileCovers(bs: seq<nat>, from: nat, p: nat)
    requires forall i :: 0 <= i < |bs| ==> bs[i] == from + i * BLOCK
    requires from <= p < from + |bs| * BLOCK
    ensures Covers(bs, p)
  {
    var i := (p - from) / BLOCK;
    assert bs[i] <= p < bs[i] + BLOCK;
  }

  lemma CoversMore(done: seq<nat>, bs: seq<nat>, p: nat)
    requires Covers(done, p) || Covers(bs, p)
    ensures Covers(done + bs, p)
  {
    if Covers(done, p) {
      var i :| 0 <= i < |done| && done[i] <= p < done[i] + BLOCK;
      assert (done + bs)[i] == done[i];
    } else {
      var i :| 0 <= i < |bs| && bs[i] <= p < bs[i] + BLOCK;
      assert (done + bs)[|done| + i] == bs[i];
    }
  }

  /** Blocks in order that do not overlap, all between two positions. */
  ghost predicate Apart(blocks: seq<nat>, from: nat, to: nat) {
    && from <= to && (forall i, j :: 0 <= i < j < |blocks| ==> blocks[i] + BLOCK <= blocks[j])
    && (forall i :: 0 <= i < |blocks| ==> from <= blocks[i] && blocks[i] + BLOCK <= to)
  }

  lemma ApartMore(done: seq<nat>, bs: seq<nat>, from: nat, mid: nat, next: nat, to: nat)
    requires Apart(done, from, mid) && mid <= next && Apart(bs, next, to)
    ensures Apart(done + bs, from, to)
  {
  }

  lemma TilesApart(bs: seq<nat>, from: nat)
    requires forall i :: 0 <= i < |bs| ==> bs[i] == from + i * BLOCK
    ensures Apart(bs, from, from + |bs| * BLOCK)
  {
  }

  /**
   Whatever is appended and discarded, as long as the history's start never moves back: every
   position still retained that the cursor has passed was searched as a start, and none twice.
   */
  lemma {:induction false} NoneSkippedNoneTwice(phy: Phy, s: Search, audios: seq<History>)
    requires forall i, j :: 0 <= i < j < |audios| ==> audios[i].start <= audios[j].start
    ensures var blocks, r := Searched(phy, s, audios), After(phy, s, audios);
      && r.windows == s.windows + |blocks| && Apart(blocks, s.cursor, r.cursor)
      && forall p: nat ::
           s.cursor <= p < r.cursor && (audios != [] ==> audios[|audios| - 1].start <= p) ==> Covers(blocks, p)
    decreases |audios|
  {
    if audios != [] {
      var init, audio := audios[..|audios| - 1], audios[|audios| - 1];
      NoneSkippedNoneTwice(phy, s, init);
      var before, done := After(phy, s, init), Searched(phy, s, init);
      var c := Cleaned(before, audio);
      var bs := Blocks(phy, c.cursor, audio);
      assert Searched(phy, s, audios) == done + bs && After(phy, s, audios) == Sweep(phy, c, audio);
      hide Blocks, Sweep, Searched, After, Apart, Covers;
      BlocksTile(phy, c, audio);
      TilesApart(bs, c.cursor);
      ApartMore(done, bs, s.cursor, before.cursor, c.cursor, c.cursor + |bs| * BLOCK);
      forall p: nat | s.cursor <= p < c.cursor + |bs| * BLOCK && audio.start <= p ensures Covers(done + bs, p) {
        if p >= before.cursor { TileCovers(bs, c.cursor, p); }
        CoversMore(done, bs, p);
      }
    }
  }

  class OfdmSearch {
    const phy: Phy
    var cursor: nat
    var candidates: seq<Candidate>
    var windows: nat

    function State(): Search
      reads this
    {
      Search(cursor, candidates, windows)
    }

    constructor (phy: Phy, start: nat)
      ensures State() == Search(start, [], 0) && this.phy == phy
    {
      this.phy := phy;
      cursor, candidates, windows := start, [], 0;
    }

    method Update(audio: Ring)
      requires audio.Valid()
      modifies this
      ensures State() == Updated(phy, old(State()), audio.contents)
    {
      cursor := Max(cursor, audio.start);
      candidates := Retained(candidates, audio.start);
      ghost var s := State();
      ghost var history := audio.contents;
      while cursor + BLOCK + phy.preamble - 1 + GUARD <= audio.end
        invariant audio.start <= cursor
        invariant Sweep(phy, State(), history) == Sweep(phy, s, history)
        decreases audio.end - cursor
      {
        SearchWindow(audio);
      }
    }

    /** One window: read with its guard, searched, and its peak merged with a near one. */
    method SearchWindow(audio: Ring)
      requires audio.Valid() && audio.start <= cursor && High(phy, cursor) <= audio.end
      modifies this
      ensures State() == Step(phy, old(State()), audio.contents)
    {
      hide Nearby;
      var low := Max(audio.start, cursor - GUARD);
      var high := cursor + BLOCK + phy.preamble - 1 + GUARD;
      var window := audio.Read(Some(low), Some(high));
      var p := phy.acquire(window.value, cursor - low, cursor - low + BLOCK);
      var at := p.at + low;
      windows := windows + 1;
      if p.confidence >= THRESHOLD {
        var candidate := Candidate(p.confidence, at, p.hz, p.strength);
        var nearby := Nearby(candidates, at, phy.preamble);
        if nearby == |candidates| {
          candidates := candidates + [candidate];
        } else if candidate.strength > candidates[nearby].strength {
          candidates := candidates[nearby := candidate];
        }
      }
      cursor := cursor + BLOCK;
    }
  }

  lemma UpdateTidy(phy: Phy, s: Search, audio: History, since: nat)
    requires Tidy(s, since) && since <= audio.start
    ensures Tidy(Updated(phy, s, audio), since)
  {
    SweepTidy(phy, Cleaned(s, audio), audio);
  }

  /** One receive connection: a history, and a search for every kind of preamble asked for so far. */
  class ReceiveStream {
    const audio: Ring
    var generation: Option<nat>
    var searches: map<nat, OfdmSearch>
    /** Where the unbroken audio the stream is in began. */
    ghost var since: nat

    /** No search stands at, or remembers, a position from before the last break. */
    ghost predicate Valid()
      reads this, audio, audio.data, searches.Values
    {
      && audio.Valid() && since <= audio.start
      && (forall k :: k in searches ==> Tidy(searches[k].State(), since))
      && (forall j, k :: j in searches && k in searches && j != k ==> searches[j] != searches[k])
    }

    constructor (capacity: nat)
      requires capacity > 0
      ensures Valid() && generation == None && searches == map[] && audio.contents == History(0, [])
    {
      audio := new Ring(capacity);
      generation, searches, since := None, map[], 0;
    }

    /** A new generation, or a gap, drops every search along with the audio. */
    method Append(newGeneration: nat, start: nat, samples: seq<real>)
      requires Valid()
      modifies this, audio, audio.data
      ensures Valid() && generation == Some(newGeneration)
      ensures var broken := old(generation) != Some(newGeneration) || start != old(audio.contents.End());
        && searches == (if broken then map[] else old(searches))
        && since == (if broken then start else old(since))
        && audio.contents == Appended(if broken then History(start, []) else old(audio.contents),
                                      start, samples, audio.data.Length)
    {
      if Some(newGeneration) != generation || start != audio.end {
        searches := map[];
        since := start;
        audio.Reset(start);
      }
      generation := Some(newGeneration);
      audio.Append(start, samples);
    }

    /** The search for one kind of preamble, begun at the start of the history if there is none yet. */
    method Poll(key: nat, phy: Phy) returns (search: OfdmSearch)
      requires Valid() && (key in searches ==> searches[key].phy == phy)
      modifies this`searches, searches.Values
      ensures Valid() && key in searches && searches[key] == search && (key !in old(searches) ==> fresh(search))
      ensures forall k :: k in old(searches) ==> k in searches && searches[k] == old(searches)[k]
      ensures forall k :: k in old(searches) && k != key ==> searches[k].State() == old(searches[k].State())
      ensures var before := if key in old(searches) then old(searches[key].State()) else Search(audio.start, [], 0);
        search.State() == Updated(phy, before, audio.contents)
    {
      if key !in searches {
        var begun := new OfdmSearch(phy, audio.start);
        searches := searches[key := begun];
      }
      search := searches[key];
      UpdateTidy(phy, search.State(), audio.contents, since);
      search.Update(audio);
    }
  }
}
