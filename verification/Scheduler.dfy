/**
 Which decoders one poll of the receiver runs: those that fit a time budget, those that have just
 decoded something, and the most overdue of the rest.
 */
module Scheduler {
  import opened Common

  const EXPENSIVE_DUTY := 0.2
  const RECENT_SUCCESS_SECONDS := 60.0

  /** What has been spent on one decoder. */
  datatype Cost = Cost(attempts: nat, wall: real, audioSeconds: real, lastAttempt: Option<real>,
      lastFrame: Option<real>)

  function Estimate(cost: Option<Cost>, seconds: real): real {
    if cost.None? || cost.value.attempts == 0 || cost.value.audioSeconds <= 0.0 then 0.0
    else cost.value.wall / cost.value.audioSeconds * seconds
  }

  predicate Recent(cost: Option<Cost>, now: real) {
    cost.Some? && cost.value.lastFrame.Some? && now - cost.value.lastFrame.value <= RECENT_SUCCESS_SECONDS
  }

  /** What decoding has cost is what it is expected to cost: all of it again for as much audio, and in proportion. */
  lemma EstimateScales(c: Cost, a: real, b: real)
    requires c.attempts > 0 && c.audioSeconds > 0.0
    ensures Estimate(Some(c), c.audioSeconds) == c.wall
    ensures Estimate(Some(c), a + b) == Estimate(Some(c), a) + Estimate(Some(c), b)
  {
    Over(c.wall, c.audioSeconds);
    Spread(c.wall / c.audioSeconds, a, b);
  }

  lemma Over(a: real, b: real)
    requires b != 0.0
    ensures a / b * b == a
  {
  }

  lemma Spread(r: real, a: real, b: real)
    ensures r * (a + b) == r * a + r * b
  {
  }

  /** A decoder that has just decoded a frame counts as recent for a minute. */
  lemma RecentLasts(c: Cost, now: real)
    ensures Recent(Some(c), now) <==> c.lastFrame.Some? && now <= c.lastFrame.value + 60.0
    ensures !Recent(None, now)
  {
  }

  class DecodeCost {
    var attempts: nat
    var frames: nat
    var cpu: real
    var wall: real
    var maxCpu: real
    var audioSeconds: real
    var lastAttempt: Option<real>
    var lastFrame: Option<real>

    function View(): Cost
      reads this
    {
      Cost(attempts, wall, audioSeconds, lastAttempt, lastFrame)
    }

    /** Nothing spent is negative, no attempt costs more than the dearest, and none went unrecorded. */
    ghost predicate Valid()
      reads this
    {
      Sound(View()) && 0.0 <= maxCpu && cpu <= attempts as real * maxCpu
    }

    constructor ()
      ensures Valid() && View() == Cost(0, 0.0, 0.0, None, None) && cpu == 0.0 && frames == 0
    {
      attempts, frames, cpu, wall, maxCpu, audioSeconds := 0, 0, 0.0, 0.0, 0.0, 0.0;
      lastAttempt, lastFrame := None, None;
    }

    method Add(cpuSpent: real, wallSpent: real, seconds: real, now: real)
      requires Valid() && wallSpent >= 0.0
      modifies this
      ensures Valid() && attempts == old(attempts) + 1 && frames == old(frames)
      ensures cpu == old(cpu) + cpuSpent && wall == old(wall) + wallSpent
      ensures maxCpu >= cpuSpent && maxCpu >= old(maxCpu) && (maxCpu == cpuSpent || maxCpu == old(maxCpu))
      ensures audioSeconds == old(audioSeconds) + (if seconds > 0.0 then seconds else 0.0)
      ensures lastAttempt == Some(now) && lastFrame == old(lastFrame)
    {
      Dearer(attempts, maxCpu, cpuSpent);
      attempts := attempts + 1;
      cpu := cpu + cpuSpent;
      wall := wall + wallSpent;
      maxCpu := if maxCpu < cpuSpent then cpuSpent else maxCpu;
      audioSeconds := audioSeconds + (if seconds > 0.0 then seconds else 0.0);
      lastAttempt := Some(now);
    }
  }

  lemma Dearer(n: nat, max: real, more: real)
    requires 0.0 <= max
    ensures var top := if max < more then more else max; n as real * max + more <= (n + 1) as real * top
  {
    var top := if max < more then more else max;
    AtLeastZero(n as real, top - max);
    assert n as real * (top - max) == n as real * top - n as real * max;
    assert (n + 1) as real * top == n as real * top + top;
  }

  lemma AtLeastZero(a: real, b: real)
    requires a >= 0.0 && b >= 0.0
    ensures a * b >= 0.0
  {
  }

  predicate Sound(c: Cost) {
    c.wall >= 0.0 && c.audioSeconds >= 0.0 && (c.attempts > 0 ==> c.lastAttempt.Some?)
  }

  type Costs = map<nat, Cost>

  ghost predicate AllSound(costs: Costs) {
    forall id :: id in costs ==> Sound(costs[id])
  }

  function CostOf(costs: Costs, id: nat): Option<Cost> {
    if id in costs then Some(costs[id]) else None
  }

  // -- one poll -----------------------------------------------------------------------

  /** What a poll knows of a decoder. */
  datatype Job = Job(id: nat, estimated: real, recent: bool)

  function JobOf(costs: Costs, id: nat, seconds: real, now: real): Job {
    Job(id, Estimate(CostOf(costs, id), seconds), Recent(CostOf(costs, id), now))
  }

  function Jobs(profiles: seq<nat>, costs: Costs, seconds: real, now: real): (js: seq<Job>)
    ensures |js| == |profiles| && forall i :: 0 <= i < |js| ==> js[i] == JobOf(costs, profiles[i], seconds, now)
  {
    seq(|profiles|, i requires 0 <= i < |profiles| => JobOf(costs, profiles[i], seconds, now))
  }

  /** Stable sorting by estimate. */
  function Insert(j: Job, sorted: seq<Job>): (r: seq<Job>)
    ensures multiset(r) == multiset(sorted) + multiset{j}
  {
    if sorted == [] || j.estimated <= sorted[0].estimated then [j] + sorted
    else
      assert sorted == [sorted[0]] + sorted[1..];
      [sorted[0]] + Insert(j, sorted[1..])
  }

  predicate Ascending(js: seq<Job>) {
    forall i :: 0 < i < |js| ==> js[i - 1].estimated <= js[i].estimated
  }

  function Sorted(js: seq<Job>): (r: seq<Job>)
    ensures multiset(r) == multiset(js)
  {
    if js == [] then []
    else
      assert js == [js[0]] + js[1..];
      Insert(js[0], Sorted(js[1..]))
  }

  lemma {:induction false} InsertAscends(j: Job, sorted: seq<Job>)
    requires Ascending(sorted)
    ensures var r := Insert(j, sorted); Ascending(r) && r != [] && (r[0] == j || (sorted != [] && r[0] == sorted[0]))
    decreases |sorted|
  {
    if sorted != [] && j.estimated > sorted[0].estimated { InsertAscends(j, sorted[1..]); }
  }

  lemma {:induction false} SortedAscends(js: seq<Job>)
    ensures Ascending(Sorted(js))
    decreases |js|
  {
    if js != [] {
      SortedAscends(js[1..]);
      InsertAscends(js[0], Sorted(js[1..]));
    }
  }

  /** Taken and left, in order, with what the taken cost. */
  datatype Split = Split(taken: seq<Job>, left: seq<Job>, spent: real)

  function Fill(js: seq<Job>, budget: real): Split {
    if js == [] then Split([], [], 0.0)
    else
      var s, j := Fill(js[..|js| - 1], budget), js[|js| - 1];
      if j.recent || s.spent + j.estimated <= budget
      then Split(s.taken + [j], s.left, s.spent + j.estimated)
      else Split(s.taken, s.left + [j], s.spent)
  }

  /** How long a decoder has been due: negative while its rest for the last attempt lasts. */
  function Overdue(costs: Costs, j: Job, now: real): real
    requires j.id in costs && costs[j.id].lastAttempt.Some?
  {
    now - costs[j.id].lastAttempt.value - j.estimated / EXPENSIVE_DUTY
  }

  /** The first of the largest. */
  function Largest(v: seq<real>): (i: nat)
    requires v != []
    ensures i < |v| && forall k :: 0 <= k < |v| ==> v[k] <= v[i]
    ensures forall k :: 0 <= k < i ==> v[k] < v[i]
  {
    if |v| == 1 then 0
    else
      var i := Largest(v[..|v| - 1]);
      if v[|v| - 1] > v[i] then |v| - 1 else i
  }

  function Waits(costs: Costs, left: seq<Job>, now: real): (w: seq<real>)
    requires forall j :: j in left ==> j.id in costs && costs[j.id].lastAttempt.Some?
    ensures |w| == |left| && forall i :: 0 <= i < |w| ==> w[i] == Overdue(costs, left[i], now)
  {
    seq(|left|, i requires 0 <= i < |left| => assert left[i] in left; Overdue(costs, left[i], now))
  }

  /** The one decoder beyond the budget that a poll runs, if any is due. */
  function Extra(costs: Costs, left: seq<Job>, now: real): seq<Job>
    requires forall j :: j in left ==> j.id in costs && costs[j.id].lastAttempt.Some?
  {
    if left == [] then []
    else
      var w := Waits(costs, left, now);
      if w[Largest(w)] >= 0.0 then [left[Largest(w)]] else []
  }

  /** Everything one poll runs. */
  function Plan(js: seq<Job>, costs: Costs, budget: real, now: real): seq<Job>
    requires forall j :: j in Fill(Sorted(js), budget).left ==> j.id in costs && costs[j.id].lastAttempt.Some?
  {
    var s := Fill(Sorted(js), budget);
    s.taken + Extra(costs, s.left, now)
  }

  lemma {:induction false} FillSplits(js: seq<Job>, budget: real)
    ensures var s := Fill(js, budget); forall j :: j in s.taken || j in s.left ==> j in js
    ensures var s := Fill(js, budget); forall j :: j in js ==> j in s.taken || j in s.left
  {
    if js != [] {
      FillSplits(js[..|js| - 1], budget);
      assert js == js[..|js| - 1] + [js[|js| - 1]];
    }
  }

  /** Nothing free is ever left out: the free come first, while nothing has been spent. */
  lemma {:induction false} FreeTaken(js: seq<Job>, budget: real)
    requires Ascending(js) && budget >= 0.0 && forall j :: j in js ==> j.estimated >= 0.0
    ensures forall j :: j in Fill(js, budget).left ==> j.estimated > 0.0
    ensures js != [] && js[|js| - 1].estimated == 0.0 ==> Fill(js, budget).spent == 0.0
  {
    if js != [] {
      var init := js[..|js| - 1];
      FreeTaken(init, budget);
      if js[|js| - 1].estimated == 0.0 && init != [] { assert init[|init| - 1] in js; }
    }
  }

  lemma EstimateAtLeastZero(costs: Costs, id: nat, seconds: real)
    requires AllSound(costs) && seconds >= 0.0
    ensures Estimate(CostOf(costs, id), seconds) >= 0.0
    ensures Estimate(CostOf(costs, id), seconds) > 0.0 ==> id in costs && costs[id].lastAttempt.Some?
  {
    if id in costs && costs[id].audioSeconds > 0.0 {
      var rate := costs[id].wall / costs[id].audioSeconds;
      assert rate >= 0.0;
      assert rate * seconds >= 0.0;
    }
  }

  /** Every decoder left out has a record of its last attempt to be overdue by. */
  lemma LeftHaveCosts(profiles: seq<nat>, costs: Costs, seconds: real, budget: real, now: real)
    requires AllSound(costs) && seconds >= 0.0 && budget >= 0.0
    ensures var left := Fill(Sorted(Jobs(profiles, costs, seconds, now)), budget).left;
      forall j :: j in left ==> j.id in costs && costs[j.id].lastAttempt.Some? && j.estimated > 0.0
                                && j == JobOf(costs, j.id, seconds, now)
  {
    var js := Jobs(profiles, costs, seconds, now);
    var order := Sorted(js);
    forall j | j in order ensures j == JobOf(costs, j.id, seconds, now) && j.estimated >= 0.0 {
      assert j in multiset(order);
      assert j in js;
      EstimateAtLeastZero(costs, j.id, seconds);
    }
    SortedAscends(js);
    FreeTaken(order, budget);
    FillSplits(order, budget);
    forall j | j in Fill(order, budget).left ensures j.id in costs && costs[j.id].lastAttempt.Some? {
      EstimateAtLeastZero(costs, j.id, seconds);
    }
  }

  /** Whoever is left out has not decoded anything lately and does not fit with those taken. */
  lemma {:induction false} LeftDoNotFit(js: seq<Job>, budget: real)
    requires forall j :: j in js ==> j.estimated >= 0.0
    ensures var s := Fill(js, budget);
      s.spent >= 0.0 && forall j :: j in s.left ==> !j.recent && s.spent + j.estimated > budget
  {
    if js != [] {
      assert forall j :: j in js[..|js| - 1] ==> j in js;
      LeftDoNotFit(js[..|js| - 1], budget);
      assert js[|js| - 1] in js;
    }
  }

  /** And costs at least as much as any that is taken because it fits. */
  lemma {:induction false} CheapestFirst(js: seq<Job>, budget: real)
    requires Ascending(js) && forall j :: j in js ==> j.estimated >= 0.0
    ensures var s := Fill(js, budget);
      forall j, k :: j in s.taken && k in s.left && !j.recent ==> j.estimated <= k.estimated
  {
    if js != [] {
      var init, last := js[..|js| - 1], js[|js| - 1];
      assert forall j :: j in init ==> j in js;
      CheapestFirst(init, budget);
      LeftDoNotFit(init, budget);
      FillSplits(init, budget);
      AscendsTo(js);
      assert last in js;
    }
  }

  /** The last of an ascending list is the dearest. */
  lemma {:induction false} AscendsTo(js: seq<Job>)
    requires Ascending(js) && js != []
    ensures forall j :: j in js ==> j.estimated <= js[|js| - 1].estimated
  {
    var init := js[..|js| - 1];
    if init != [] {
      AscendsTo(init);
      assert init[|init| - 1].estimated <= js[|js| - 1].estimated;
    }
    assert js == init + [js[|js| - 1]];
  }

  /** The jobs of one estimate, in order. */
  function Of(js: seq<Job>, estimate: real): seq<Job> {
    if js == [] then []
    else (if js[0].estimated == estimate then [js[0]] else []) + Of(js[1..], estimate)
  }

  lemma {:induction false} InsertStable(j: Job, sorted: seq<Job>, estimate: real)
    ensures Of(Insert(j, sorted), estimate) == (if j.estimated == estimate then [j] else []) + Of(sorted, estimate)
    decreases |sorted|
  {
    if sorted == [] || j.estimated <= sorted[0].estimated {
      assert ([j] + sorted)[1..] == sorted;
    } else {
      InsertStable(j, sorted[1..], estimate);
      assert ([sorted[0]] + Insert(j, sorted[1..]))[1..] == Insert(j, sorted[1..]);
    }
  }

  /** Sorting leaves decoders of equal estimate in the order given. */
  lemma {:induction false} SortedStable(js: seq<Job>, estimate: real)
    ensures Of(Sorted(js), estimate) == Of(js, estimate)
    decreases |js|
  {
    if js != [] {
      SortedStable(js[1..], estimate);
      InsertStable(js[0], Sorted(js[1..]), estimate);
    }
  }

  /** A decoder is due once another attempt keeps it within a fifth of the time since its last. */
  lemma DueKeepsDuty(costs: Costs, j: Job, now: real)
    requires j.id in costs && costs[j.id].lastAttempt.Some?
    ensures Overdue(costs, j, now) >= 0.0 <==> 5.0 * j.estimated <= now - costs[j.id].lastAttempt.value
  {
  }

  /** The one run beyond the budget is the first of the most overdue, and there is one whenever any is due. */
  lemma ExtraIsMostOverdue(costs: Costs, left: seq<Job>, now: real)
    requires forall j :: j in left ==> j.id in costs && costs[j.id].lastAttempt.Some?
    ensures Extra(costs, left, now) == [] <==> forall j :: j in left ==> Overdue(costs, j, now) < 0.0
    ensures Extra(costs, left, now) != [] ==>
      exists k :: 0 <= k < |left| && Extra(costs, left, now) == [left[k]]
                  && (forall i :: 0 <= i < |left| ==>
                       left[i] in left && Overdue(costs, left[i], now) <= Overdue(costs, left[k], now))
                  && (forall i :: 0 <= i < k ==>
                       left[i] in left && Overdue(costs, left[i], now) < Overdue(costs, left[k], now))
  {
    if left != [] {
      var w := Waits(costs, left, now);
      var k := Largest(w);
      assert left[k] in left && w[k] == Overdue(costs, left[k], now);
      hide Overdue, Waits;
    }
  }

  method BudgetedCandidates(profiles: seq<nat>, costs: Costs, seconds: real, budget: real, now: real)
    returns (plan: seq<Job>)
    requires AllSound(costs) && seconds >= 0.0 && budget >= 0.0
    ensures var js := Jobs(profiles, costs, seconds, now);
      && (forall j :: j in Fill(Sorted(js), budget).left ==> j.id in costs && costs[j.id].lastAttempt.Some?)
      && plan == Plan(js, costs, budget, now)
  {
    var js := Jobs(profiles, costs, seconds, now);
    var order := Sorted(js);
    LeftHaveCosts(profiles, costs, seconds, budget, now);
    assert Plan(js, costs, budget, now) == Fill(order, budget).taken + Extra(costs, Fill(order, budget).left, now);
    hide *;
    var deferred, waits;
    plan, deferred, waits := Spend(order, costs, budget, now);
    ExtraOf(costs, deferred, waits, now);
    if deferred != [] {
      var k := Largest(waits);
      if waits[k] >= 0.0 {
        plan := plan + [deferred[k]];
      }
    }
  }

  /** The pass over the decoders, cheapest first: those run, those left out, and how overdue each of these is. */
  method Spend(order: seq<Job>, costs: Costs, budget: real, now: real)
    returns (plan: seq<Job>, deferred: seq<Job>, waits: seq<real>)
    requires forall j :: j in Fill(order, budget).left ==> j.id in costs && costs[j.id].lastAttempt.Some?
    ensures plan == Fill(order, budget).taken && deferred == Fill(order, budget).left
    ensures WaitFor(costs, deferred, waits, now)
  {
    FillNone(budget);
    plan, deferred, waits := [], [], [];
    var spent := 0.0;
    assert WaitFor(costs, deferred, waits, now);
    hide *;
    for i := 0 to |order|
      invariant Fill(order[..i], budget) == Split(plan, deferred, spent)
      invariant WaitFor(costs, deferred, waits, now)
    {
      var j := order[i];
      FillStep(order, i, budget);
      if j.recent || spent + j.estimated <= budget {
        plan := plan + [j];
        spent := spent + j.estimated;
      } else {
        WaitMore(costs, deferred, waits, now, j);
        deferred := deferred + [j];
        waits := waits + [now - costs[j.id].lastAttempt.value - j.estimated / EXPENSIVE_DUTY];
      }
    }
    assert order[..|order|] == order;
  }

  lemma FillNone(budget: real)
    ensures Fill([], budget) == Split([], [], 0.0)
    ensures forall js: seq<Job> :: js[..0] == []
  {
  }

  /** The waits computed so far are those of the decoders left out so far. */
  ghost predicate WaitFor(costs: Costs, left: seq<Job>, waits: seq<real>, now: real) {
    && |waits| == |left|
    && forall k :: 0 <= k < |left| ==>
      left[k].id in costs && costs[left[k].id].lastAttempt.Some? && waits[k] == Overdue(costs, left[k], now)
  }

  lemma WaitMore(costs: Costs, left: seq<Job>, waits: seq<real>, now: real, j: Job)
    requires WaitFor(costs, left, waits, now) && j.id in costs && costs[j.id].lastAttempt.Some?
    ensures var wait := now - costs[j.id].lastAttempt.value - j.estimated / EXPENSIVE_DUTY;
      WaitFor(costs, left + [j], waits + [wait], now)
  {
  }

  lemma ExtraOf(costs: Costs, left: seq<Job>, waits: seq<real>, now: real)
    requires WaitFor(costs, left, waits, now)
    ensures |waits| == |left| && forall j :: j in left ==> j.id in costs && costs[j.id].lastAttempt.Some?
    ensures Extra(costs, left, now)
         == if left != [] && waits[Largest(waits)] >= 0.0 then [left[Largest(waits)]] else []
  {
    assert waits == Waits(costs, left, now);
  }

  lemma FillStep(js: seq<Job>, i: nat, budget: real)
    requires i < |js|
    ensures var s, j := Fill(js[..i], budget), js[i];
      Fill(js[..i + 1], budget) == if j.recent || s.spent + j.estimated <= budget
                                   then Split(s.taken + [j], s.left, s.spent + j.estimated)
                                   else Split(s.taken, s.left + [j], s.spent)
    ensures var s, j := Fill(js[..i], budget), js[i];
      !(j.recent || s.spent + j.estimated <= budget) ==> j in Fill(js, budget).left
  {
    assert js[..i + 1][..i] == js[..i];
    FillPrefix(js, i + 1, budget);
  }

  lemma {:induction false} FillPrefix(js: seq<Job>, n: nat, budget: real)
    requires n <= |js|
    ensures forall j :: j in Fill(js[..n], budget).left ==> j in Fill(js, budget).left
    decreases |js|
  {
    if n < |js| {
      var init := js[..|js| - 1];
      FillPrefix(init, n, budget);
      assert init[..n] == js[..n];
    } else {
      assert js[..n] == js;
    }
  }

  // -- the budget ----------------------------------------------------------------------

  /** What the decoders that are in only because they fit cost together. */
  function Charged(js: seq<Job>): real {
    if js == [] then 0.0
    else Charged(js[..|js| - 1]) + (if js[|js| - 1].recent then 0.0 else js[|js| - 1].estimated)
  }

  /** They never exceed the budget; the one overdue pick comes on top. */
  lemma {:induction false} WithinBudget(js: seq<Job>, budget: real)
    requires budget >= 0.0 && forall j :: j in js ==> j.estimated >= 0.0
    ensures var s := Fill(js, budget); Charged(s.taken) <= budget && Charged(s.taken) <= s.spent
  {
    if js != [] {
      var init, j := js[..|js| - 1], js[|js| - 1];
      assert j.estimated >= 0.0;
      WithinBudget(init, budget);
      ChargedMore(Fill(init, budget).taken, j);
      hide Charged;
    }
  }

  lemma ChargedMore(js: seq<Job>, j: Job)
    ensures Charged(js + [j]) == Charged(js) + (if j.recent then 0.0 else j.estimated)
  {
    assert (js + [j])[..|js|] == js;
  }

  lemma ExtraIsOne(costs: Costs, left: seq<Job>, now: real)
    requires forall j :: j in left ==> j.id in costs && costs[j.id].lastAttempt.Some?
    ensures |Extra(costs, left, now)| <= 1 && forall j :: j in Extra(costs, left, now) ==> j in left
  {
  }

  // -- fairness ------------------------------------------------------------------------

  /** The moment from which a decoder is due. */
  function Due(last: map<nat, real>, j: Job): real
    requires j.id in last
  {
    last[j.id] + j.estimated / EXPENSIVE_DUTY
  }

  /** The one left-out decoder a poll runs, found among the due. */
  function Pick(last: map<nat, real>, left: seq<Job>, now: real): Option<nat>
    requires forall j :: j in left ==> j.id in last
  {
    if left == [] then None
    else
      var w := seq(|left|, i requires 0 <= i < |left| => assert left[i] in left; now - Due(last, left[i]));
      if w[Largest(w)] >= 0.0 then Some(left[Largest(w)].id) else None
  }

  /** A poll: when its plan was made, and when it ran the overdue decoder. */
  datatype Poll = Poll(now: real, ran: real)

  function Ran(last: map<nat, real>, left: seq<Job>, p: Poll): map<nat, real>
    requires forall j :: j in left ==> j.id in last
  {
    var k := Pick(last, left, p.now);
    if k.Some? then last[k.value := p.ran] else last
  }

  /** Whether some poll of a list runs decoder `id`. */
  ghost predicate Runs(last: map<nat, real>, left: seq<Job>, polls: seq<Poll>, id: nat)
    requires forall j :: j in left ==> j.id in last
    decreases |polls|
  {
    polls != [] && (Pick(last, left, polls[0].now) == Some(id) || Runs(Ran(last, left, polls[0]), left, polls[1..], id))
  }

  /** How many decoders are due no later than `when`. */
  function Ahead(last: map<nat, real>, left: seq<Job>, when: real): nat
    requires forall j :: j in left ==> j.id in last
  {
    if left == [] then 0
    else
      Ahead(last, left[..|left| - 1], when)
      + (assert left[|left| - 1] in left; if Due(last, left[|left| - 1]) <= when then 1 else 0)
  }

  ghost predicate InTime(polls: seq<Poll>) {
    && (forall i :: 0 <= i < |polls| ==> polls[i].now <= polls[i].ran)
    && (forall i, k :: 0 <= i < k < |polls| ==> polls[i].now <= polls[k].now)
  }

  ghost predicate Distinct(left: seq<Job>) {
    forall i, k :: 0 <= i < k < |left| ==> left[i].id != left[k].id
  }

  lemma {:induction false} AheadAtMost(last: map<nat, real>, left: seq<Job>, when: real)
    requires forall j :: j in left ==> j.id in last
    ensures Ahead(last, left, when) <= |left|
  {
    if left != [] { AheadAtMost(last, left[..|left| - 1], when); }
  }

  /** A decoder put off past `when` is no longer counted, and no other count changes. */
  lemma {:induction false} AheadDrops(last: map<nat, real>, left: seq<Job>, when: real, k: nat, at: real)
    requires (forall j :: j in left ==> j.id in last) && Distinct(left) && k < |left|
    requires Due(last, left[k]) <= when < at + left[k].estimated / EXPENSIVE_DUTY
    ensures forall j :: j in left ==> j.id in last[left[k].id := at]
    ensures Ahead(last[left[k].id := at], left, when) == Ahead(last, left, when) - 1
    decreases |left|
  {
    var last', init, j := last[left[k].id := at], left[..|left| - 1], left[|left| - 1];
    assert j in left;
    if k < |init| {
      AheadDrops(last, init, when, k, at);
      assert j.id != left[k].id;
    } else {
      AheadSame(last, last', init, when);
    }
  }

  lemma {:induction false} AheadSame(last: map<nat, real>, last': map<nat, real>, left: seq<Job>, when: real)
    requires forall j :: j in left ==> j.id in last && j.id in last' && last[j.id] == last'[j.id]
    ensures Ahead(last', left, when) == Ahead(last, left, when)
  {
    if left != [] {
      AheadSame(last, last', left[..|left| - 1], when);
      assert left[|left| - 1] in left;
    }
  }

  lemma {:induction false} AheadCounts(last: map<nat, real>, left: seq<Job>, when: real, i: nat)
    requires (forall j :: j in left ==> j.id in last) && i < |left| && Due(last, left[i]) <= when
    ensures Ahead(last, left, when) >= 1
    decreases |left|
  {
    if i < |left| - 1 { AheadCounts(last, left[..|left| - 1], when, i); }
  }

  /**
   While estimates and recent successes stand, so that every poll leaves out the same decoders, one
   that has become due is run within as many polls as there are decoders left out.
   */
  lemma Fair(last: map<nat, real>, left: seq<Job>, polls: seq<Poll>, i: nat)
    requires forall j :: j in left ==> j.id in last && j.estimated > 0.0
    requires Distinct(left) && i < |left| && InTime(polls) && |polls| >= |left|
    requires Due(last, left[i]) <= polls[0].now
    ensures Runs(last, left, polls, left[i].id)
  {
    AheadAtMost(last, left, Due(last, left[i]));
    FairWithin(last, left, polls, i);
  }

  lemma {:induction false} FairWithin(last: map<nat, real>, left: seq<Job>, polls: seq<Poll>, i: nat)
    requires forall j :: j in left ==> j.id in last && j.estimated > 0.0
    requires Distinct(left) && i < |left| && InTime(polls)
    requires |polls| >= Ahead(last, left, Due(last, left[i]))
    requires polls != [] ==> Due(last, left[i]) <= polls[0].now
    ensures Runs(last, left, polls, left[i].id)
    decreases |polls|
  {
    var when := Due(last, left[i]);
    AheadCounts(last, left, when, i);
    var p := polls[0];
    var k := PickedAt(last, left, p.now, i);
    if k != i {
      assert left[k] in left && left[i] in left;
      AheadDrops(last, left, when, k, p.ran);
      var last' := Ran(last, left, p);
      assert Due(last', left[i]) == when;
      FairWithin(last', left, polls[1..], i);
    }
  }

  /** Which of the due a poll picks: one due no later than any other. */
  lemma PickedAt(last: map<nat, real>, left: seq<Job>, now: real, i: nat) returns (k: nat)
    requires (forall j :: j in left ==> j.id in last) && i < |left| && Due(last, left[i]) <= now
    ensures k < |left| && Pick(last, left, now) == Some(left[k].id) && Due(last, left[k]) <= Due(last, left[i])
  {
    var w := seq(|left|, i requires 0 <= i < |left| => assert left[i] in left; now - Due(last, left[i]));
    k := Largest(w);
    assert w[i] <= w[k];
  }

  function LastOf(costs: Costs): map<nat, real> {
    map id | id in costs && costs[id].lastAttempt.Some? :: costs[id].lastAttempt.value
  }

  // -- fairness of the plans ---------------------------------------------------------------

  /** The costs, as `last` has them, of the decoders left out. */
  ghost predicate Records(last: map<nat, real>, costs: Costs, left: seq<Job>) {
    forall j :: j in left ==>
      j.id in last && j.id in costs && costs[j.id].lastAttempt == Some(last[j.id])
  }

  /** Costs at one poll after the other: of those left out, only the overdue decoder is attempted. */
  ghost predicate Polled(cs: seq<Costs>, left: seq<Job>, polls: seq<Poll>) {
    && |cs| == |polls|
    && (forall i, j :: 0 <= i < |cs| && j in left ==> j.id in cs[i] && cs[i][j.id].lastAttempt.Some?)
    && forall i, j :: 0 <= i < |cs| - 1 && j in left ==>
      cs[i + 1][j.id].lastAttempt == if j in Extra(cs[i], left, polls[i].now) then Some(polls[i].ran)
          else cs[i][j.id].lastAttempt
  }

  lemma PickRecorded(last: map<nat, real>, costs: Costs, left: seq<Job>, now: real)
    requires Records(last, costs, left)
    ensures Pick(last, left, now) == if Extra(costs, left, now) == [] then None else Some(Extra(costs, left, now)[0].id)
  {
    if left != [] {
      assert Waits(costs, left, now) == seq(|left|,
          i requires 0 <= i < |left| => assert left[i] in left; now - Due(last, left[i]));
    }
  }

  lemma RecordsNext(last: map<nat, real>, cs: seq<Costs>, left: seq<Job>, polls: seq<Poll>)
    requires Distinct(left) && Polled(cs, left, polls) && |polls| > 1 && Records(last, cs[0], left)
    ensures Records(Ran(last, left, polls[0]), cs[1], left)
    ensures Polled(cs[1..], left, polls[1..])
  {
    PickRecorded(last, cs[0], left, polls[0].now);
    var extra := Extra(cs[0], left, polls[0].now);
    ExtraIsOne(cs[0], left, polls[0].now);
    forall j | j in left ensures j in extra <==> extra != [] && extra[0].id == j.id {
      if extra != [] && extra[0].id == j.id { SameJob(left, extra[0], j); }
    }
    assert cs[0 + 1] == cs[1];
    PolledRest(cs, left, polls);
  }

  lemma SameJob(left: seq<Job>, a: Job, b: Job)
    requires Distinct(left) && a in left && b in left && a.id == b.id
    ensures a == b
  {
    var i :| 0 <= i < |left| && left[i] == a;
    var k :| 0 <= k < |left| && left[k] == b;
  }

  lemma PolledRest(cs: seq<Costs>, left: seq<Job>, polls: seq<Poll>)
    requires Polled(cs, left, polls) && |polls| > 1
    ensures Polled(cs[1..], left, polls[1..])
  {
    hide Extra;
    var ds: seq<Costs>, ps: seq<Poll> := cs[1..], polls[1..];
    forall i: int, j: Job | 0 <= i < |ds| - 1 && j in left
      ensures ds[i + 1][j.id].lastAttempt == if j in Extra(ds[i], left, ps[i].now) then Some(ps[i].ran)
          else ds[i][j.id].lastAttempt
    {
      assert ds[i] == cs[i + 1] && ds[i + 1] == cs[i + 1 + 1];
    }
  }

  /** A decoder that the fairness argument runs is the overdue decoder of some plan. */
  lemma {:induction false} RunsShow(last: map<nat, real>, cs: seq<Costs>, left: seq<Job>, polls: seq<Poll>, j: Job)
    returns (k: nat)
    requires Distinct(left) && Polled(cs, left, polls) && j in left && polls != [] && Records(last, cs[0], left)
    requires Runs(last, left, polls, j.id)
    ensures k < |polls| && j in Extra(cs[k], left, polls[k].now)
    decreases |polls|
  {
    PickRecorded(last, cs[0], left, polls[0].now);
    ExtraIsOne(cs[0], left, polls[0].now);
    if Pick(last, left, polls[0].now) == Some(j.id) {
      k := 0;
      SameJob(left, Extra(cs[0], left, polls[0].now)[0], j);
    } else {
      RecordsNext(last, cs, left, polls);
      k := RunsShow(Ran(last, left, polls[0]), cs[1..], left, polls[1..], j);
      k := k + 1;
    }
  }

  lemma {:induction false} InsertDistinct(j: Job, sorted: seq<Job>)
    requires Distinct(sorted) && forall k :: k in sorted ==> k.id != j.id
    ensures Distinct(Insert(j, sorted)) && forall k :: k in Insert(j, sorted) <==> k == j || k in sorted
    decreases |sorted|
  {
    if sorted == [] || j.estimated <= sorted[0].estimated {
      DistinctJoin([j], sorted);
    } else {
      InsertDistinct(j, sorted[1..]);
      assert sorted == [sorted[0]] + sorted[1..];
      DistinctJoin([sorted[0]], Insert(j, sorted[1..]));
    }
  }

  lemma DistinctJoin(a: seq<Job>, b: seq<Job>)
    requires Distinct(a) && Distinct(b) && forall j, k :: j in a && k in b ==> j.id != k.id
    ensures Distinct(a + b)
  {
    forall i, k | 0 <= i < k < |a + b| ensures (a + b)[i].id != (a + b)[k].id {
      if i < |a| <= k { assert a[i] in a && b[k - |a|] in b; }
    }
  }

  lemma {:induction false} SortedDistinct(js: seq<Job>)
    requires Distinct(js)
    ensures Distinct(Sorted(js)) && forall k :: k in Sorted(js) <==> k in js
    decreases |js|
  {
    if js != [] {
      SortedDistinct(js[1..]);
      assert js == [js[0]] + js[1..];
      InsertDistinct(js[0], Sorted(js[1..]));
    }
  }

  lemma {:induction false} LeftDistinct(js: seq<Job>, budget: real)
    requires Distinct(js)
    ensures Distinct(Fill(js, budget).left)
    decreases |js|
  {
    if js != [] {
      var init := js[..|js| - 1];
      LeftDistinct(init, budget);
      FillSplits(init, budget);
      forall k | k in init ensures k.id != js[|js| - 1].id {
        var i :| 0 <= i < |init| && init[i] == k;
        assert js[i] == k;
      }
      DistinctJoin(Fill(init, budget).left, [js[|js| - 1]]);
    }
  }

  /**
   While estimates and recent successes stand, a decoder that has become due is in one of the next
   plans: at the latest in the one whose number is that of the decoders that do not fit.
   */
  lemma PlansFair(profiles: seq<nat>, cs: seq<Costs>, seconds: real, budget: real, polls: seq<Poll>, j: Job)
    returns (k: nat)
    requires forall i, k :: 0 <= i < k < |profiles| ==> profiles[i] != profiles[k]
    requires seconds >= 0.0 && budget >= 0.0 && polls != [] && |cs| == |polls| && InTime(polls)
    requires forall i :: 0 <= i < |cs| ==>
      AllSound(cs[i]) && Jobs(profiles, cs[i], seconds, polls[i].now) == Jobs(profiles, cs[0], seconds, polls[0].now)
    requires var left := Fill(Sorted(Jobs(profiles, cs[0], seconds, polls[0].now)), budget).left;
      && j in left && |polls| >= |left| && Polled(cs, left, polls)
      && Overdue(cs[0], j, polls[0].now) >= 0.0
    ensures k < |polls|
    ensures var js := Jobs(profiles, cs[k], seconds, polls[k].now);
      && (forall i :: i in Fill(Sorted(js), budget).left ==> i.id in cs[k] && cs[k][i.id].lastAttempt.Some?)
      && j in Plan(js, cs[k], budget, polls[k].now)
  {
    var js := Jobs(profiles, cs[0], seconds, polls[0].now);
    var left := Fill(Sorted(js), budget).left;
    LeftHaveCosts(profiles, cs[0], seconds, budget, polls[0].now);
    SortedDistinct(js);
    LeftDistinct(Sorted(js), budget);
    var last := LastOf(cs[0]);
    var i :| 0 <= i < |left| && left[i] == j;
    hide Jobs, Sorted, Fill, Estimate, Extra, Runs, Pick;
    Fair(last, left, polls, i);
    k := RunsShow(last, cs, left, polls, j);
    hide Polled, InTime, LastOf;
    LeftHaveCosts(profiles, cs[k], seconds, budget, polls[k].now);
  }
}
