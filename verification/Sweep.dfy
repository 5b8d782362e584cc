/**
 The sweep's objects: the receiver that arms, tallies and holds, and the engine that serves a sweep
 and drives one. The serving methods are proved to be the listener steps of SweepNet, the driving
 ones to key announcement, burst and question in the order that SweepNet's caller does.
 */
module Sweep {
  import opened Common
  import opened SweepResult
  import opened SweepNet

  const ANNOUNCE_RETRIES := 3
  const RESULT_RETRIES := 3

  class SweepReceiver {
    var armed: Option<Armed>
    var held: Option<Held>

    function View(): Receiver
      reads this
    {
      Receiver(armed, held)
    }

    constructor ()
      ensures View() == Receiver(None, None)
    {
      armed, held := None, None;
    }

    method Arm(sid: nat, mode: Byte, count: nat)
      modifies this
      ensures View() == SweepNet.Arm(old(View()), sid, mode, count)
    {
      var existing := armed;
      if existing.Some? && existing.value.sid == sid && existing.value.mode == mode
          && existing.value.tally.decoded != {} {
        return;
      }
      armed := Some(Armed(sid, mode, count, Tally(mode, count, {}, 0, [])));
    }

    /** `expired`: the announced burst's window has passed. */
    method CheckExpiry(expired: bool) returns (did: bool)
      modifies this
      ensures did <==> old(armed).Some? && expired
      ensures View() == if did then SweepNet.Disarm(old(View())) else old(View())
    {
      if armed == None || !expired {
        return false;
      }
      DisarmLocked();
      return true;
    }

    method Disarm()
      modifies this
      ensures View() == SweepNet.Disarm(old(View()))
    {
      if armed != None {
        DisarmLocked();
      }
    }

    method DisarmLocked()
      requires armed.Some?
      modifies this
      ensures armed == None && held == Some(Held(old(armed).value.sid, old(armed).value.tally))
    {
      var was := armed.value;
      armed := None;
      held := Some(Held(was.sid, was.tally));
    }

    method TallyFor(sid: nat, mode: nat, stale: bool) returns (t: Option<Tally>)
      ensures t == SweepNet.TallyFor(View(), sid, mode, stale)
    {
      if armed != None && armed.value.sid == sid && armed.value.mode == mode {
        return Some(armed.value.tally);
      }
      if held != None && held.value.sid == sid && held.value.tally.modeId == mode {
        if !stale {
          return Some(held.value.tally);
        }
      }
      return None;
    }

    method NoteNearMiss(mode: nat)
      modifies this`armed
      ensures View() == NearMiss(old(View()), mode)
    {
      if armed != None && armed.value.mode == mode {
        var t := armed.value.tally;
        armed := Some(armed.value.(tally := t.(nearMissed := t.nearMissed + 1)));
      }
    }

    method Accept(sid: nat, mode: Byte, seqNo: nat, good: bool, snr: Option<real>)
      modifies this`armed
      ensures View() == SweepNet.Accept(old(View()), sid, mode, seqNo, good, snr)
    {
      if armed == None || armed.value.sid != sid || armed.value.mode != mode {
        return;
      }
      var t := armed.value.tally;
      if !good {
        armed := Some(armed.value.(tally := t.(nearMissed := t.nearMissed + 1)));
        return;
      }
      t := t.(decoded := t.decoded + {seqNo});
      if snr != None {
        t := t.(snr := t.snr + [snr.value]);
      }
      armed := Some(armed.value.(tally := t));
    }
  }

  /** Frames keyed one after another, the same each time. */
  function Repeat<T>(f: T, k: nat): (q: seq<T>)
    ensures |q| == k
  {
    if k == 0 then [] else Repeat(f, k - 1) + [f]
  }

  function BurstOf(sid: nat, mode: Byte, count: nat): (q: seq<Frame>)
    ensures |q| == count
  {
    seq(count, i requires 0 <= i => Burst(sid, mode, i, true))
  }

  predicate Matches(f: Control, sid: nat, mode: Byte, result: bool) {
    if result then f.Result? && f.sid == sid else f == Ready(sid, mode)
  }

  // -- what waiting yields -------------------------------------------------------------

  type Arrivals = seq<Option<Control>>

  /** Where a wait for an answer ends: with the answer, with its own time, or with the script. */
  function EndsAt(arrivals: Arrivals, sid: nat, mode: Byte, result: bool): (n: nat)
    ensures n <= |arrivals| && forall k :: 0 <= k < n ==>
      arrivals[k].Some? && !Matches(arrivals[k].value, sid, mode, result)
    ensures n < |arrivals| ==> arrivals[n].None? || Matches(arrivals[n].value, sid, mode, result)
  {
    if arrivals == [] || arrivals[0].None? || Matches(arrivals[0].value, sid, mode, result) then 0
    else 1 + EndsAt(arrivals[1..], sid, mode, result)
  }

  function Awaited(arrivals: Arrivals, sid: nat, mode: Byte, result: bool): (got: Option<Control>)
    ensures got.Some? ==> Matches(got.value, sid, mode, result)
  {
    var n := EndsAt(arrivals, sid, mode, result);
    if n < |arrivals| then arrivals[n] else None
  }

  function Unread(arrivals: Arrivals, sid: nat, mode: Byte, result: bool): Arrivals {
    var n := EndsAt(arrivals, sid, mode, result);
    if n < |arrivals| then arrivals[n + 1..] else []
  }

  /** What is left after `n` waits, and what the wait after them brings. */
  function AfterWaits(arrivals: Arrivals, sid: nat, mode: Byte, result: bool, n: nat): Arrivals
    decreases n
  {
    if n == 0 then arrivals else AfterWaits(Unread(arrivals, sid, mode, result), sid, mode, result, n - 1)
  }

  function Brings(arrivals: Arrivals, sid: nat, mode: Byte, result: bool, n: nat): Option<Control> {
    Awaited(AfterWaits(arrivals, sid, mode, result, n), sid, mode, result)
  }

  lemma EndsHere(arrivals: Arrivals, sid: nat, mode: Byte, result: bool, n: nat)
    requires n <= |arrivals|
    requires forall k :: 0 <= k < n ==> arrivals[k].Some? && !Matches(arrivals[k].value, sid, mode, result)
    requires n < |arrivals| ==> arrivals[n].None? || Matches(arrivals[n].value, sid, mode, result)
    ensures EndsAt(arrivals, sid, mode, result) == n
  {
  }

  /** What an answer to a question about `mode` reports, if it is about that mode and says anything. */
  function Reporting(f: Option<Control>, mode: Byte): Option<Report> {
    if f.None? || !f.value.Result? then None
    else
      var r := DecodeResult(f.value.extra);
      if r.Some? && r.value.modeId == mode then r else None
  }

  datatype Tries = Tries(report: Option<Report>, k: nat, rest: Arrivals)

  /** Whether what a wait brings is the answer: READY to an announcement, a report to a question. */
  predicate Taken(f: Option<Control>, mode: Byte, result: bool) {
    if result then Reporting(f, mode).Some? else f.Some?
  }

  /** A frame is keyed and its answer waited for, `tries` times at most. */
  function TryRun(arrivals: Arrivals, sid: nat, mode: Byte, result: bool, tries: nat): Tries
    decreases tries
  {
    if tries == 0 then Tries(None, 0, arrivals)
    else
      var got, rest := Awaited(arrivals, sid, mode, result), Unread(arrivals, sid, mode, result);
      if Taken(got, mode, result) then Tries(Reporting(got, mode), 1, rest)
      else var run := TryRun(rest, sid, mode, result, tries - 1); run.(k := run.k + 1)
  }

  /** Whether one of the tries is answered. */
  predicate Succeeds(arrivals: Arrivals, sid: nat, mode: Byte, result: bool, tries: nat)
    decreases tries
  {
    tries > 0
    && (Taken(Awaited(arrivals, sid, mode, result), mode, result)
        || Succeeds(Unread(arrivals, sid, mode, result), sid, mode, result, tries - 1))
  }

  /** With `k` tries behind it, whether the call comes to `ok` and what it then has. */
  ghost predicate Stands(arrivals: Arrivals, rest: Arrivals, sid: nat, mode: Byte, result: bool, tries: nat, k: nat) {
    && k <= tries && Succeeds(arrivals, sid, mode, result, tries) == Succeeds(rest, sid, mode, result, tries - k)
    && var run, more := TryRun(arrivals, sid, mode, result, tries), TryRun(rest, sid, mode, result, tries - k);
       run == more.(k := more.k + k)
  }

  lemma StandsStill(arrivals: Arrivals, sid: nat, mode: Byte, result: bool, tries: nat)
    ensures Stands(arrivals, arrivals, sid, mode, result, tries, 0)
  {
  }

  lemma StandsOn(arrivals: Arrivals, rest: Arrivals, sid: nat, mode: Byte, result: bool, tries: nat, k: nat)
    requires Stands(arrivals, rest, sid, mode, result, tries, k) && k < tries
    ensures var got, left := Awaited(rest, sid, mode, result), Unread(rest, sid, mode, result);
      if Taken(got, mode, result) then
        && Succeeds(arrivals, sid, mode, result, tries)
        && TryRun(arrivals, sid, mode, result, tries) == Tries(Reporting(got, mode), k + 1, left)
      else Stands(arrivals, left, sid, mode, result, tries, k + 1)
  {
    hide Awaited, Unread, Taken, Reporting;
  }

  lemma StandsOver(arrivals: Arrivals, rest: Arrivals, sid: nat, mode: Byte, result: bool, tries: nat)
    requires Stands(arrivals, rest, sid, mode, result, tries, tries)
    ensures !Succeeds(arrivals, sid, mode, result, tries)
    ensures TryRun(arrivals, sid, mode, result, tries) == Tries(None, tries, rest)
  {
  }

  /** One frame keyed for every wait; the first answer ends it, and without one every try is used. */
  ghost predicate Insistent(arrivals: Arrivals, sid: nat, mode: Byte, result: bool, tries: nat, ok: bool, run: Tries) {
    && run.k <= tries && run.rest == AfterWaits(arrivals, sid, mode, result, run.k)
    && (forall n: nat :: n + 1 < run.k ==> !Taken(Brings(arrivals, sid, mode, result, n), mode, result))
    && (if ok then
          && run.k > 0 && Taken(Brings(arrivals, sid, mode, result, run.k - 1), mode, result)
          && run.report == Reporting(Brings(arrivals, sid, mode, result, run.k - 1), mode)
        else
          && run.k == tries && run.report.None?
          && forall n: nat :: n < tries ==> !Taken(Brings(arrivals, sid, mode, result, n), mode, result))
  }

  lemma {:induction false} TriesInsistently(arrivals: Arrivals, sid: nat, mode: Byte, result: bool, tries: nat)
    ensures Insistent(arrivals, sid, mode, result, tries, Succeeds(arrivals, sid, mode, result, tries),
                      TryRun(arrivals, sid, mode, result, tries))
    decreases tries
  {
    hide Awaited, Unread, Taken, Reporting;
    FirstWait(arrivals, sid, mode, result);
    if tries > 0 && !Taken(Awaited(arrivals, sid, mode, result), mode, result) {
      var rest := Unread(arrivals, sid, mode, result);
      hide Insistent;
      TriesInsistently(rest, sid, mode, result, tries - 1);
      StillInsistent(arrivals, sid, mode, result, tries, Succeeds(rest, sid, mode, result, tries - 1),
                     TryRun(rest, sid, mode, result, tries - 1));
    }
  }

  lemma FirstWait(arrivals: Arrivals, sid: nat, mode: Byte, result: bool)
    ensures Brings(arrivals, sid, mode, result, 0) == Awaited(arrivals, sid, mode, result)
    ensures AfterWaits(arrivals, sid, mode, result, 0) == arrivals
    ensures AfterWaits(arrivals, sid, mode, result, 1) == Unread(arrivals, sid, mode, result)
  {
    assert AfterWaits(Unread(arrivals, sid, mode, result), sid, mode, result, 0) == Unread(arrivals, sid, mode, result);
    hide Unread;
  }

  lemma StillInsistent(arrivals: Arrivals, sid: nat, mode: Byte, result: bool, tries: nat, ok: bool, run: Tries)
    requires tries > 0 && !Taken(Awaited(arrivals, sid, mode, result), mode, result)
    requires Insistent(Unread(arrivals, sid, mode, result), sid, mode, result, tries - 1, ok, run)
    ensures Insistent(arrivals, sid, mode, result, tries, ok, run.(k := run.k + 1))
  {
    FirstWait(arrivals, sid, mode, result);
    forall n: nat | n > 0
      ensures AfterWaits(arrivals, sid, mode, result, n)
           == AfterWaits(Unread(arrivals, sid, mode, result), sid, mode, result, n - 1)
      ensures Brings(arrivals, sid, mode, result, n)
           == Brings(Unread(arrivals, sid, mode, result), sid, mode, result, n - 1)
    {
    }
    hide AfterWaits, Brings, Unread, Awaited, Taken, Reporting;
  }

  class SweepEngine {
    const receiver: SweepReceiver
    const known: set<Byte>
    var recorded: set<(nat, Byte)>
    var rows: seq<Row>
    /** What waiting for a control frame yields: a frame, or that the wait is over. */
    var arrivals: seq<Option<Control>>
    var air: seq<Frame>

    constructor (receiver: SweepReceiver, known: set<Byte>, arrivals: seq<Option<Control>>)
      ensures this.receiver == receiver && this.known == known && this.arrivals == arrivals
      ensures recorded == {} && rows == [] && air == []
    {
      this.receiver, this.known, this.arrivals := receiver, known, arrivals;
      recorded, rows, air := {}, [], [];
    }

    function View(queue: seq<Control>): Listener
      reads this, receiver
    {
      Listener(known, receiver.View(), queue, recorded, rows)
    }

    method TxControl(c: Control)
      modifies this`air
      ensures air == old(air) + [Ctl(c)]
    {
      air := air + [Ctl(c)];
    }

    // -- serving ----------------------------------------------------------------------

    method ServeAnnounce(sid: nat, mode: Byte, count: nat)
      modifies receiver, this`air
      ensures var d := Serve(old(View([])), Announce(sid, mode, count), false);
        View([]) == d.l && air == old(air) + (if d.out.Some? then [Ctl(d.out.value)] else [])
    {
      if mode !in known {
        assert air + [] == air;
        return;
      }
      receiver.Arm(sid, mode, count);
      TxControl(Ready(sid, mode));
    }

    /** Stops counting before reporting, so the numbers sent and the numbers kept are the same ones. */
    method ServeAsk(sid: nat, mode: Byte, stale: bool)
      modifies receiver, this`air, this`recorded, this`rows
      ensures var d := Serve(old(View([])), Ask(sid, mode), stale);
        View([]) == d.l && air == old(air) + (if d.out.Some? then [Ctl(d.out.value)] else [])
    {
      var armed := receiver.armed;
      if armed != None && armed.value.sid == sid && armed.value.mode == mode {
        receiver.Disarm();
      }
      var tally := receiver.TallyFor(sid, mode, stale);
      if tally == None {
        assert air + [] == air;
        return;
      }
      if (sid, mode) !in recorded {
        recorded := recorded + {(sid, mode)};
        rows := rows + [Row(sid, mode, tally.value)];
      } else {
        assert recorded + {(sid, mode)} == recorded;
      }
      TxControl(Result(sid, EncodeResult(mode, tally.value).value));
    }

    // -- driving ----------------------------------------------------------------------

    /** Waits for the answer to an announcement or a question about `mode`. */
    method AwaitFrame(sid: nat, mode: Byte, result: bool) returns (got: Option<Control>)
      modifies this`arrivals
      ensures got == Awaited(old(arrivals), sid, mode, result) && arrivals == Unread(old(arrivals), sid, mode, result)
    {
      ghost var n := 0;
      while arrivals != []
        invariant n <= |old(arrivals)| && arrivals == old(arrivals)[n..]
        invariant forall k :: 0 <= k < n ==>
          old(arrivals)[k].Some? && !Matches(old(arrivals)[k].value, sid, mode, result)
        decreases |arrivals|
      {
        var head := arrivals[0];
        arrivals := arrivals[1..];
        if head == None {
          EndsHere(old(arrivals), sid, mode, result, n);
          return None;
        }
        if Matches(head.value, sid, mode, result) {
          EndsHere(old(arrivals), sid, mode, result, n);
          return head;
        }
        n := n + 1;
      }
      EndsHere(old(arrivals), sid, mode, result, n);
      return None;
    }

    /** Announces until answered, and no more often than allowed; `k` counts the announcements. */
    method Announces(sid: nat, mode: Byte, count: nat) returns (ok: bool, k: nat)
      modifies this`air, this`arrivals
      ensures k <= ANNOUNCE_RETRIES && (if ok then k > 0 else k == ANNOUNCE_RETRIES)
      ensures air == old(air) + Repeat(Ctl(Announce(sid, mode, count)), k)
      ensures ok == Succeeds(old(arrivals), sid, mode, false, ANNOUNCE_RETRIES)
      ensures var run := TryRun(old(arrivals), sid, mode, false, ANNOUNCE_RETRIES); k == run.k && arrivals == run.rest
    {
      hide Succeeds, TryRun, Awaited, Unread, Stands, Matches;
      k, ok := 0, false;
      assert old(air) + [] == air;
      StandsStill(arrivals, sid, mode, false, ANNOUNCE_RETRIES);
      while k < ANNOUNCE_RETRIES
        invariant k <= ANNOUNCE_RETRIES && air == old(air) + Repeat(Ctl(Announce(sid, mode, count)), k)
        invariant Stands(old(arrivals), arrivals, sid, mode, false, ANNOUNCE_RETRIES, k)
      {
        StandsOn(old(arrivals), arrivals, sid, mode, false, ANNOUNCE_RETRIES, k);
        TxControl(Announce(sid, mode, count));
        k := k + 1;
        var ready := AwaitFrame(sid, mode, false);
        if ready != None {
          return true, k;
        }
      }
      StandsOver(old(arrivals), arrivals, sid, mode, false, ANNOUNCE_RETRIES);
    }

    /** The whole burst in one keying. */
    method TxBurst(sid: nat, mode: Byte, count: nat)
      modifies this`air
      ensures air == old(air) + BurstOf(sid, mode, count)
    {
      air := air + BurstOf(sid, mode, count);
    }

    /** Asks until an answer about this mode comes; `k` counts the questions. */
    method Collect(sid: nat, mode: Byte) returns (report: Option<Report>, k: nat)
      modifies this`air, this`arrivals
      ensures k <= RESULT_RETRIES && (if report.Some? then k > 0 else k == RESULT_RETRIES)
      ensures air == old(air) + Repeat(Ctl(Ask(sid, mode)), k)
      ensures report.Some? <==> Succeeds(old(arrivals), sid, mode, true, RESULT_RETRIES)
      ensures Tries(report, k, arrivals) == TryRun(old(arrivals), sid, mode, true, RESULT_RETRIES)
    {
      hide Succeeds, TryRun, Unread, Stands;
      k, report := 0, None;
      assert old(air) + [] == air;
      StandsStill(arrivals, sid, mode, true, RESULT_RETRIES);
      while k < RESULT_RETRIES
        invariant k <= RESULT_RETRIES && air == old(air) + Repeat(Ctl(Ask(sid, mode)), k)
        invariant Stands(old(arrivals), arrivals, sid, mode, true, RESULT_RETRIES, k)
      {
        StandsOn(old(arrivals), arrivals, sid, mode, true, RESULT_RETRIES, k);
        TxControl(Ask(sid, mode));
        k := k + 1;
        var frame := AwaitFrame(sid, mode, true);
        if frame != None {
          var decoded := DecodeResult(frame.value.extra);
          if decoded.Some? && decoded.value.modeId == mode {
            return decoded, k;
          }
        }
      }
      StandsOver(old(arrivals), arrivals, sid, mode, true, RESULT_RETRIES);
    }

    /**
     One mode announced, burst and collected; nothing if the announcement was never answered. The
     frames go out in the order that keeps a reported tally from being armed over.
     */
    method Measure(sid: nat, mode: Byte, count: nat) returns (row: Option<Collected>, asked: nat, announced: nat)
      modifies this`air, this`arrivals
      ensures var announcements := Repeat(Ctl(Announce(sid, mode, count)), announced);
        air == old(air) + (if row.None? then announcements
                           else announcements + BurstOf(sid, mode, count) + Repeat(Ctl(Ask(sid, mode)), asked))
      ensures var first := TryRun(old(arrivals), sid, mode, false, ANNOUNCE_RETRIES);
        var second := TryRun(first.rest, sid, mode, true, RESULT_RETRIES);
        && announced == first.k
        && (row.Some? <==> Succeeds(old(arrivals), sid, mode, false, ANNOUNCE_RETRIES))
        && (row.None? ==> asked == 0 && arrivals == first.rest)
        && (row.Some? ==> asked == second.k && arrivals == second.rest)
        && (row.Some? ==>
              row.value == if second.report.Some? then Got(mode, Kept(count, second.report.value)) else Lost(mode))
    {
      hide TryRun, Succeeds, Kept;
      var ok;
      asked := 0;
      ok, announced := Announces(sid, mode, count);
      if !ok {
        return None, 0, announced;
      }
      TxBurst(sid, mode, count);
      var collected;
      collected, asked := Collect(sid, mode);
      if collected == None {
        return Some(Lost(mode)), asked, announced;
      }
      var r := collected.value;
      return Some(Got(mode, Kept(count, r))), asked, announced;
    }
  }
}
