/**
 What a caller can check of two ladders and a message length: whether any message up to that length can
 be re-cut at all, and so whether any run can make a receiver deliver bytes it was not sent.
 */
module LinkLadder {
  import opened Common
  import opened LinkStation
  import opened LinkNet
  import opened LinkSession
  import opened LinkRuns
  import opened LinkCalls
  import opened LinkMessages
  import opened LinkHistory
  import opened LinkTerms
  import opened LinkTheorems
  import opened LinkRecut

  /** Rung `i` of `a` carries less than the next one up and less than `len` bytes, and `b` has both modes. */
  predicate ShrinksAt(a: Registry, b: Registry, len: nat, i: nat)
    requires i + 1 < |a.modes|
  {
    && a.modes[i].chunkSize < a.modes[i + 1].chunkSize && a.modes[i].chunkSize < len
    && Shared(a, b, a.modes[i].id) && Shared(a, b, a.modes[i + 1].id)
  }

  ghost predicate Shrinks(a: Registry, b: Registry, len: nat) {
    exists i: nat :: i + 1 < |a.modes| && ShrinksAt(a, b, len, i)
  }

  predicate Fits(m: Move, len: nat) {
    && (m.Mine? && m.act.StartSend? ==> |m.act.data| <= len)
    && (m.Yours? && m.act.StartSend? ==> |m.act.data| <= len)
  }

  ghost predicate UpTo(moves: seq<Move>, len: nat) {
    forall m :: m in moves ==> Fits(m, len)
  }

  ghost predicate NoRecut(moves: seq<Move>) {
    Mine(Recut) !in moves && Yours(Recut) !in moves
  }

  // -- where no neighbouring rungs shrink, nothing is cut again ------------------------------------------

  /** What is being sent is short enough, and the chunk in hand fits the mode in use. */
  ghost predicate Snug(s: Station, len: nat) {
    && (s.task.Asking? ==> s.state.CONNECTED? && |s.task.message| <= len)
    && (s.task.Sending? ==> s.state.CONNECTED? && |s.task.data| <= len)
    && (s.task.Sending? && s.hand.Some? ==> |s.hand.value.bytes| <= Min(s.tx.chunkSize, len))
  }

  lemma SnugDo(s: Station, a: Act, other: Registry, len: nat)
    requires Snug(s, len) && Knows(s, other) && Can(s, a) && (a.StartSend? ==> |a.data| <= len)
    requires !Shrinks(s.reg, other, len)
    ensures Snug(Do(s, a).st, len) && !a.Recut?
  {
    if a.Hear? {
      hide Do, Can, Snug, Knows, Shrinks;
      SnugHear(s, a.frame, len);
      HearDoes(s, a.frame);
    } else if a.Shift? {
      SnugShift(s, a.up, other, len);
      hide StepMode, Knows, Shrinks;
    } else {
      hide Knows, Shrinks, Do, Snug;
      SnugQuiet(s, a, len);
    }
  }

  lemma SnugQuiet(s: Station, a: Act, len: nat)
    requires Snug(s, len) && Can(s, a) && !a.Hear? && !a.Shift? && (a.StartSend? ==> |a.data| <= len)
    ensures Snug(Do(s, a).st, len) && !a.Recut?
  {
    hide React, Remembered;
  }

  lemma SnugShift(s: Station, up: bool, other: Registry, len: nat)
    requires Knows(s, other) && s.state.CONNECTED? && !Shrinks(s.reg, other, len)
    ensures var t := StepMode(s, up);
      t == s.(tx := t.tx) && (!up ==> Min(t.tx.chunkSize, len) >= Min(s.tx.chunkSize, len))
  {
    var m := s.reg.Step(s.tx, up);
    if !up && m.Some? && m.value.id in s.peerModes {
      var i :| 0 <= i < |s.reg.modes| && s.reg.modes[i] == s.tx;
      assert s.reg.Index(s.tx.id) == i;
      var k: nat := i - 1;
      assert m.value == s.reg.modes[k];
      assert s.reg.Supports(m.value.id) by { assert s.reg.Index(m.value.id) == k; }
      assert !ShrinksAt(s.reg, other, len, k);
    }
  }

  lemma SnugHear(s: Station, f: Frame, len: nat)
    requires Snug(s, len) && Hearing(s)
    ensures Snug(React(s, f).st, len)
  {
    if (s.task.Receiving? || s.task.Asking?) && f.Data? {
      SnugData(s, f, len);
    } else {
      hide Registry.Supports, Registry.Index, Registry.Resolve, HandleData, Answer;
    }
  }

  lemma SnugData(s: Station, f: Frame, len: nat)
    requires Snug(s, len) && (s.task.Receiving? || s.task.Asking?) && f.Data?
    ensures Snug(React(s, f).st, len)
  {
    hide Registry.Supports, Registry.Index, Registry.Resolve;
  }

  lemma SnugMove(n: Net, m: Move, len: nat)
    requires Snug(n.me, len) && Snug(n.you, len) && Terms(n) && CanMove(n, m) && Fits(m, len)
    requires !Shrinks(n.me.reg, n.you.reg, len) && !Shrinks(n.you.reg, n.me.reg, len)
    ensures var t := Moved(n, m);
      && Snug(t.me, len) && Snug(t.you, len) && t.me.reg == n.me.reg && t.you.reg == n.you.reg
      && t.exact == n.exact && Terms(t)
    ensures m != Mine(Recut) && m != Yours(Recut)
  {
    TermsMove(n, m);
    RungsStay(n, m);
    hide RecutSafe, Snug, Shrinks, Terms;
    assert Knows(n.me, n.you.reg) && Knows(n.you, n.me.reg) by { assert Terms(n); TermsKnow(n); }
    hide Knows, Offered;
    if m.Mine? { SnugDo(n.me, m.act, n.you.reg, len); }
    if m.Yours? { SnugDo(n.you, m.act, n.me.reg, len); }
    hide Do, Can;
  }

  lemma {:induction false} SnugRun(n: Net, moves: seq<Move>, last: Net, len: nat)
    requires ReachesObediently(n, moves, last) && Terms(n) && Snug(n.me, len) && Snug(n.you, len) && UpTo(moves, len)
    requires !Shrinks(n.me.reg, n.you.reg, len) && !Shrinks(n.you.reg, n.me.reg, len)
    ensures NoRecut(moves) && last.exact == n.exact
    decreases |moves|
  {
    if moves != [] {
      var m := moves[0];
      assert m in moves;
      assert forall k :: k in moves[1..] ==> k in moves;
      hide Moved, CanMove, Snug, Terms, Shrinks, Fits;
      SnugMove(n, m, len);
      SnugRun(Moved(n, m), moves[1..], last, len);
      assert moves == [m] + moves[1..];
    }
  }

  lemma SaneStart(n: Net)
    requires Start(n) && SameControl(n)
    ensures Sane(n)
  {
    StartFull(n);
    TermsStart(n);
    OrderedStart(n);
    hide Full, Terms, Ordered;
  }

  lemma SaneFlips(n: Net)
    requires Sane(n)
    ensures Sane(Swap(n))
  {
    hide Full, Ledger, Knows, Offered, CallsFirst;
    FullFlips(n);
  }

  /** No run of such stations cuts a chunk again, or delivers anything but what was given to send. */
  lemma NeverCutsAgain(n0: Net, moves: seq<Move>, n: Net, len: nat)
    requires Reachable(n0, moves, n) && SameControl(n0) && UpTo(moves, len)
    requires !Shrinks(n0.me.reg, n0.you.reg, len) && !Shrinks(n0.you.reg, n0.me.reg, len)
    ensures NoRecut(moves) && Faithful(n) && Faithful(Swap(n))
  {
    SaneStart(n0);
    assert Terms(n0) && Snug(n0.me, len) && Snug(n0.you, len) && n0.exact;
    hide *;
    SnugRun(n0, moves, n, len);
    SaneRun(n0, moves, n);
    SaneFaithful(n);
    SaneFlips(n);
    SaneFaithful(Swap(n));
  }

  /** In the words of a chronicle: no session of the run is blurred or parted. */
  lemma ShortStaysExact(n0: Net, moves: seq<Move>, c: Chronicle, len: nat)
    requires Recounts(n0, moves, c) && SameControl(n0) && UpTo(moves, len)
    requires !Shrinks(n0.me.reg, n0.you.reg, len) && !Shrinks(n0.you.reg, n0.me.reg, len)
    ensures NoRecut(moves) && c.blurred == {} && c.parted == {}
  {
    RecountsTrue(n0, moves, c);
    NeverCutsAgain(n0, moves, c.net, len);
    hide *;
    Unblurred(Blank(n0), moves, c);
    BlankIsClear(n0);
  }

  lemma BlankIsClear(n: Net)
    ensures Blank(n).blurred == {} && Blank(n).parted == {}
  {
  }

  lemma {:induction false} Unblurred(c: Chronicle, moves: seq<Move>, last: Chronicle)
    requires Tells(c, moves, last) && NoRecut(moves)
    ensures last.blurred == c.blurred && last.parted == c.parted
    decreases |moves|
  {
    if moves != [] {
      var m := moves[0];
      assert m in moves;
      assert forall k :: k in moves[1..] ==> k in moves;
      UnblurredMove(c, m);
      hide Told, CanMove;
      Unblurred(Told(c, m), moves[1..], last);
    }
  }

  lemma UnblurredMove(c: Chronicle, m: Move)
    requires CanMove(c.net, m) && m != Mine(Recut) && m != Yours(Recut)
    ensures Told(c, m).blurred == c.blurred && Told(c, m).parted == c.parted
  {
    hide RecutSafe, Do, Can, Played;
  }

  // -- where they do, some run cuts again and misdelivers ------------------------------------------------

  /** A run in which no message is longer than `len`. */
  ghost predicate Runs(n0: Net, moves: seq<Move>, n: Net, len: nat) {
    ReachesObediently(n0, moves, n) && UpTo(moves, len)
  }

  lemma GoOn(n0: Net, moves: seq<Move>, n: Net, m: Move, len: nat) returns (moves': seq<Move>, n': Net)
    requires Runs(n0, moves, n, len) && CanMove(n, m) && ObedientMove(n, m) && Fits(m, len)
    ensures Runs(n0, moves', n', len) && n' == Moved(n, m)
  {
    hide CanMove, Moved;
    Extended(n0, moves, n, m);
    moves', n' := moves + [m], Moved(n, m);
  }

  lemma ThenLeads(n0: Net, first: seq<Move>, mid: Net, second: seq<Move>, last: Net, len: nat)
    requires Runs(n0, first, mid, len) && Leads(mid, second, last)
    ensures Runs(n0, first + second, last, len)
  {
    Appended(n0, first, mid, second, last);
  }

  /** A, which remembers that rung `i` of its ladder worked towards B, and B. */
  function Power(a: Registry, b: Registry, i: nat): Net
    requires i < |a.modes|
  {
    Net(AtPowerUp("A", a, map["B" := a.modes[i].id]), AtPowerUp("B", b, map[]), [], [], 1, true)
  }

  /** A, in its session with B and about to send, transmits in rung `i`. */
  ghost predicate Poised(n: Net, a: Registry, b: Registry, i: nat) {
    && i < |a.modes| && n.me.reg == a && n.you.reg == b && n.out == [] && n.inc == [] && n.exact
    && n.me.state.CONNECTED? && n.me.task.Resting? && n.me.role.ISS? && n.me.tx == a.modes[i]
    && n.me.acked == [] && n.me.txSeq == 0 && n.me.peerModes == (set m | m in b.Ids())
    && n.you.state.CONNECTED? && n.you.task.Resting? && n.you.taken == [] && n.you.rxExpect == 0
  }

  function Offer(a: Registry, i: nat): Frame
    requires i < |a.modes|
  {
    Connect("A", "B", a.Ids(), a.modes[i].id, 1)
  }

  /** A calls B, proposing that rung, and B listens. */
  lemma CallsOut(a: Registry, b: Registry, i: nat, len: nat) returns (moves: seq<Move>, n: Net)
    requires i < |a.modes| && Shared(a, b, a.modes[i].id)
    ensures Runs(Power(a, b, i), moves, n, len)
    ensures n.me == Power(a, b, i).me.(state := CONNECTING, sid := 1, calls := {1}, task := Calling(Offer(a, i)))
    ensures n.you == Power(a, b, i).you.(state := LISTENING, task := Answering)
    ensures n.out == [Flight(Offer(a, i), 1)] && n.inc == [] && n.exact
  {
    var n0 := Power(a, b, i);
    hide RecutSafe, Registry.Supports, Registry.Ids;
    assert Runs(n0, [], n0, len);
    hide Runs;
    moves, n := GoOn(n0, [], n0, Yours(Listen), len);
    moves, n := GoOn(n0, moves, n, Mine(Call("B", 1)), len);
    assert n.me.task == Calling(Offer(a, i));
    moves, n := GoOn(n0, moves, n, Mine(KeyConnect), len);
  }

  /** B has the mode, so it is the one agreed. */
  lemma Meets(a: Registry, b: Registry, i: nat, len: nat) returns (moves: seq<Move>, n: Net)
    requires a.Valid() && i < |a.modes| && Shared(a, b, a.modes[i].id)
    ensures Runs(Power(a, b, i), moves, n, len) && Poised(n, a, b, i)
  {
    var n0 := Power(a, b, i);
    moves, n := CallsOut(a, b, i, len);
    hide Runs, RecutSafe, Registry.Ids;
    assert a.Index(a.modes[i].id) == i;
    var ack := Answer(n.you, Offer(a, i));
    assert ack.accepted == a.modes[i].id;
    hide Registry.Supports, Registry.Index, Answer;
    moves, n := GoOn(n0, moves, n, Yours(Hear(Offer(a, i))), len);
    moves, n := GoOn(n0, moves, n, Mine(Hear(ack)), len);
  }

  /** One chunk of `size` bytes. */
  function Whole(size: nat): (c: Chunk)
    ensures |c.bytes| == size && c.eof
  {
    Chunk(seq(size, k => 0), true)
  }

  /** A message one byte longer than rung `i` carries, in the air as one chunk of the rung above. */
  lemma Sends(a: Registry, b: Registry, i: nat, len: nat) returns (moves: seq<Move>, n: Net)
    requires a.Valid() && i + 1 < |a.modes| && ShrinksAt(a, b, len, i)
    ensures Runs(Power(a, b, i + 1), moves, n, len) && InAir(n, a, b, i)
  {
    var n0, size := Power(a, b, i + 1), a.modes[i].chunkSize + 1;
    moves, n := Meets(a, b, i + 1, len);
    hide Runs, RecutSafe, Registry.Ids;
    assert CutAt(Whole(size).bytes, 0, a.modes[i + 1].chunkSize) == Whole(size);
    hide CutAt;
    moves, n := GoOn(n0, moves, n, Mine(StartSend(Whole(size).bytes)), len);
  }

  /** The message is cut and the receiver has not yet listened for it. */
  ghost predicate InAir(n: Net, a: Registry, b: Registry, i: nat) {
    && i + 1 < |a.modes| && n.me.reg == a && n.you.reg == b && n.out == [] && n.inc == [] && n.exact
    && n.me.state.CONNECTED? && n.me.tx == a.modes[i + 1] && n.me.acked == [] && n.me.txSeq == 0
    && n.me.peerModes == (set m | m in b.Ids())
    && n.me.hand == Some(Whole(a.modes[i].chunkSize + 1))
    && n.me.task == Sending(Whole(a.modes[i].chunkSize + 1).bytes, 0, false)
    && Hearkens(n.you) && n.you.taken == [] && n.you.rxExpect == 0
  }

  /** The chunk is taken, its ACK still on the way when the sender has stepped down. */
  lemma Takes(a: Registry, b: Registry, i: nat, len: nat, n: Net) returns (moves: seq<Move>, last: Net)
    requires a.Valid() && i + 1 < |a.modes| && ShrinksAt(a, b, len, i) && InAir(n, a, b, i)
    ensures Leads(n, moves, last) && Hearkens(last.you) && |last.you.taken| == 1
    ensures last.me == n.me.(tx := a.modes[i])
  {
    OverAir(a, b, i, len, n);
    assert b.Supports(a.modes[i].id);
    StepsDown(a, b, i, n.me);
    hide *;
    moves, last := HeardOnce(n);
    moves, last := ShiftsDown(n, moves, last);
  }

  lemma OverAir(a: Registry, b: Registry, i: nat, len: nat, n: Net)
    requires i + 1 < |a.modes| && ShrinksAt(a, b, len, i) && InAir(n, a, b, i)
    ensures n.out == [] && n.inc == [] && n.me.task.Sending? && n.me.hand.Some? && n.me.hand.value.eof
    ensures |n.me.hand.value.bytes| <= n.me.tx.chunkSize && n.me.txSeq == 0 && n.you.reg.Supports(n.me.tx.id)
    ensures Hearkens(n.you) && n.you.taken == [] && n.you.rxExpect == 0
    ensures n.me.reg == a && n.me.tx == a.modes[i + 1] && n.me.peerModes == (set m | m in b.Ids())
  {
    hide Registry.Supports, Registry.Ids, Hearkens;
  }

  /** One exchange up to the answer, which is not yet taken. */
  lemma HeardOnce(n: Net) returns (moves: seq<Move>, last: Net)
    requires n.out == [] && n.inc == [] && n.me.task.Sending? && n.me.hand.Some? && n.me.hand.value.eof
    requires |n.me.hand.value.bytes| <= n.me.tx.chunkSize && n.me.txSeq == 0 && n.you.reg.Supports(n.me.tx.id)
    requires Hearkens(n.you) && n.you.taken == [] && n.you.rxExpect == 0
    ensures Leads(n, moves, last) && last.me == n.me && Hearkens(last.you) && |last.you.taken| == 1
  {
    var f := Data(0, true, n.me.hand.value.bytes, n.me.tx.id);
    var ack := DataAck(0, 1, n.me.tx.id);
    Idle(n);
    hide Leads, RecutSafe;
    moves, last := MakeReady(n, [], n);
    TakesChunk(last.you, f, ack, []);
    HearingData(last.you);
    hide React, Hearkens, Hearing, Registry.Supports;
    moves, last := KeyChunk(n, moves, last, f);
    moves, last := HearChunk(n, moves, last, f, ack);
  }

  lemma HearingData(s: Station)
    requires s.task.Receiving? || s.task.Asking?
    ensures Hearing(s)
  {
  }

  lemma ShiftsDown(n0: Net, moves0: seq<Move>, n: Net) returns (moves: seq<Move>, last: Net)
    requires Leads(n0, moves0, n) && n.me.task.Sending?
    ensures Leads(n0, moves, last) && last.me == StepMode(n.me, false) && last.you == n.you
  {
    hide Leads, RecutSafe, StepMode;
    moves, last := Go(n0, moves0, n, Mine(Shift(false)));
  }

  lemma StepsDown(a: Registry, b: Registry, i: nat, s: Station)
    requires a.Valid() && i + 1 < |a.modes| && b.Supports(a.modes[i].id)
    requires s.reg == a && s.tx == a.modes[i + 1] && s.peerModes == (set m | m in b.Ids())
    ensures StepMode(s, false) == s.(tx := a.modes[i])
  {
    OwnIds(b);
    assert a.Index(a.modes[i + 1].id) == i + 1;
  }

  /** The re-cut is due, and what it cuts has been accepted whole. */
  lemma Due(a: Registry, b: Registry, i: nat, len: nat, s: Net, t: Net)
    requires InAir(s, a, b, i) && t.me == s.me.(tx := a.modes[i]) && Hearkens(t.you) && |t.you.taken| == 1
    ensures CanAct(t, Recut) && CanMove(t, Mine(Recut)) && !RecutSafe(t) && CanYetTake(t)
    ensures Moved(t, Mine(Recut)) == Played(t, Recut)
  {
  }

  lemma PowerStarts(a: Registry, b: Registry, i: nat)
    requires a.Valid() && b.Valid() && i < |a.modes|
    ensures var n := Power(a, b, i); Start(n) && n.me.reg == a && n.you.reg == b
  {
  }

  lemma SendsExactly(n: Net, a: Registry, b: Registry, i: nat)
    requires InAir(n, a, b, i)
    ensures n.(exact := true) == n
  {
  }

  /** From power-up to the misdelivery, one message in all. */
  lemma CutsAgain(a: Registry, b: Registry, i: nat, len: nat) returns (n0: Net, moves: seq<Move>, n: Net)
    requires a.Valid() && b.Valid() && a.control.id == b.control.id && i + 1 < |a.modes| && ShrinksAt(a, b, len, i)
    ensures Start(n0) && n0.me.reg == a && n0.you.reg == b
    ensures Runs(n0, moves, n, len) && !Faithful(n)
  {
    n0 := Power(a, b, i + 1);
    PowerStarts(a, b, i + 1);
    hide *;
    var s, t, taking, more;
    moves, s := Sends(a, b, i, len);
    taking, t := Takes(a, b, i, len, s);
    SendsExactly(s, a, b, i);
    ExactAside(s, taking, t, true);
    t := t.(exact := true);
    ThenLeads(n0, moves, s, taking, t, len);
    moves := moves + taking;
    Due(a, b, i, len, s, t);
    RunsSane(n0, moves, t, len);
    more, n := Misdeliver(t);
    LongerUnfaithful(n);
    n := Recutting(n0, moves, t, more, n, len);
    moves := moves + [Mine(Recut)] + more;
  }

  lemma RunsSane(n0: Net, moves: seq<Move>, n: Net, len: nat)
    requires Start(n0) && SameControl(n0) && Runs(n0, moves, n, len)
    ensures Sane(n)
  {
    hide Sane, Start;
    SaneStart(n0);
    SaneRun(n0, moves, n);
  }

  lemma Recutting(n0: Net, moves: seq<Move>, t: Net, more: seq<Move>, last: Net, len: nat) returns (n: Net)
    requires Runs(n0, moves, t, len) && CanAct(t, Recut) && CanMove(t, Mine(Recut))
    requires Moved(t, Mine(Recut)) == Played(t, Recut)
    requires Leads(Played(t, Recut), more, last.(exact := false)) && !Faithful(last)
    ensures Runs(n0, moves + [Mine(Recut)] + more, n, len) && !Faithful(n)
  {
    n := last.(exact := false);
    hide Moved, CanMove, Played, CanAct, Leads;
    Extended(n0, moves, t, Mine(Recut));
    ThenLeads(n0, moves + [Mine(Recut)], Played(t, Recut), more, n, len);
  }

  // -- the two halves together ----------------------------------------------------------------------------

  /** Whatever two stations with these ladders do, neither delivers anything but what the other was given. */
  ghost predicate NeverRepeats(a: Registry, b: Registry, len: nat) {
    forall n0: Net, moves: seq<Move>, n: Net ::
      Reachable(n0, moves, n) && n0.me.reg == a && n0.you.reg == b && UpTo(moves, len) ==>
        Faithful(n) && Faithful(Swap(n))
  }

  /** The two ladders and the length decide it. */
  lemma LaddersExact(a: Registry, b: Registry, len: nat)
    requires a.Valid() && b.Valid() && a.control.id == b.control.id
    ensures NeverRepeats(a, b, len) <==> !Shrinks(a, b, len) && !Shrinks(b, a, len)
  {
    if Shrinks(a, b, len) {
      SomeRepeats(a, b, len);
    } else if Shrinks(b, a, len) {
      SomeRepeatsBack(a, b, len);
    } else {
      forall n0: Net, moves: seq<Move>, n: Net |
        Reachable(n0, moves, n) && n0.me.reg == a && n0.you.reg == b && UpTo(moves, len)
        ensures Faithful(n) && Faithful(Swap(n))
      {
        hide *;
        NeverCutsAgain(n0, moves, n, len);
      }
    }
  }

  lemma SomeRepeats(a: Registry, b: Registry, len: nat)
    requires a.Valid() && b.Valid() && a.control.id == b.control.id && Shrinks(a, b, len)
    ensures !NeverRepeats(a, b, len)
  {
    var i: nat :| i + 1 < |a.modes| && ShrinksAt(a, b, len, i);
    hide ShrinksAt, Faithful, Registry.Valid;
    var n0, moves, n := CutsAgain(a, b, i, len);
    hide ReachesObediently, Start, Fits;
    assert Reachable(n0, moves, n);
  }

  lemma SomeRepeatsBack(a: Registry, b: Registry, len: nat)
    requires a.Valid() && b.Valid() && a.control.id == b.control.id && Shrinks(b, a, len)
    ensures !NeverRepeats(a, b, len)
  {
    var i: nat :| i + 1 < |b.modes| && ShrinksAt(b, a, len, i);
    hide ShrinksAt, Faithful, Registry.Valid;
    var n0, moves, n := CutsAgain(b, a, i, len);
    EitherWay(n0, moves, n);
    MirrorsUpTo(moves, len);
    StartFlips(n0);
    hide ReachesObediently, Start, UpTo;
    assert Reachable(Swap(n0), Mirror(moves), Swap(n)) && Swap(Swap(n)) == n;
  }

  lemma MirrorsUpTo(moves: seq<Move>, len: nat)
    requires UpTo(moves, len)
    ensures UpTo(Mirror(moves), len)
  {
    forall m | m in Mirror(moves) ensures Fits(m, len) {
      var i :| 0 <= i < |moves| && Mirror(moves)[i] == m;
      assert moves[i] in moves;
    }
  }

  lemma StartFlips(n: Net)
    requires Start(n)
    ensures Start(Swap(n))
  {
  }
}
