/**
 Allocation, gate and rotation as they run, on rows updated in place
 (jawnix/allocation.py). Each method is tied to the step it takes on the
 request machine; the rotation states what a whole pass promises.
 */
module RotationDesk {
  import opened Basics
  import opened Ordering
  import opened History
  import opened NichePolicy
  import opened Allocation
  import opened Billing
  import opened Requests
  import opened Rotation
  import NoRepeat

  /** All clock readings of a pass fall inside one day starting at `base`. */
  ghost predicate WithinADay(clocks: seq<Clock>, base: int) {
    forall i :: 0 <= i < |clocks| ==> base <= clocks[i].instant <= clocks[i].at < base + DAY
  }

  ghost predicate Ordered(clocks: seq<Clock>) {
    forall i :: 0 <= i < |clocks| ==> clocks[i].instant <= clocks[i].at
  }

  /** Requests that had no turn are as they were. */
  ghost predicate Untouched(w: World, v: World, attempts: seq<RequestId>) {
    && |v.books.requests| == |w.books.requests|
    && forall r :: 0 <= r < |w.books.requests| && r !in attempts ==> v.books.requests[r] == w.books.requests[r]
  }

  /** The first `k` groups each had exactly one of their own requests attempted. */
  ghost predicate OnePerGroup(w: World, order: seq<Group>, attempts: seq<RequestId>, k: nat) {
    && |attempts| == k <= |order|
    && forall i :: 0 <= i < k ==> attempts[i] in GroupItems(w, order[i])
  }

  /** No Lead of the events from `from` on is delivered twice. */
  ghost predicate FreshLeads(events: seq<Event>, from: nat) {
    forall i, j :: from <= i < j < |events| ==> events[i].lead != events[j].lead
  }

  /** Events from `from` on were delivered at or after `base`. */
  ghost predicate Since(events: seq<Event>, from: nat, base: int) {
    forall i :: from <= i < |events| ==> events[i].deliveredAt >= base
  }

  // ---------------------------------------------------------------------
  // A pass, turn by turn
  // ---------------------------------------------------------------------

  /** The floor after the first `k` groups of `order` had their turn. */
  ghost predicate PassSoFar(start: Floor, order: seq<Group>, f: Floor, attempts: seq<RequestId>, fulfilled: nat,
                            k: nat) {
    && WorldOk(f.world) && f.world.dist.roster == start.world.dist.roster
    && OnePerGroup(start.world, order, attempts, k)
    && Untouched(start.world, f.world, attempts)
    && OpenCount(f) == OpenCount(start) - fulfilled
    && start.world.dist.events <= f.world.dist.events
    && Forward(start.conflicts, f.conflicts)
  }

  /** What is delivered since the pass began is fresh. */
  ghost predicate FreshSoFar(start: Floor, f: Floor, base: int) {
    && FreshLeads(f.world.dist.events, |start.world.dist.events|)
    && Since(f.world.dist.events, |start.world.dist.events|, base)
  }

  /** Every group has a turn, once, and every group has a request to spend it on. */
  lemma TurnOrderFacts(f: Floor)
    ensures |TurnOrder(f)| == |Groups(f.world)|
    ensures forall i, j :: 0 <= i < j < |TurnOrder(f)| ==> TurnOrder(f)[i] != TurnOrder(f)[j]
    ensures forall i :: 0 <= i < |TurnOrder(f)| ==> GroupItems(f.world, TurnOrder(f)[i]) != {}
  {
    GroupFirstTotal(f, Groups(f.world));
    SortedIncreases(Groups(f.world), GroupFirst(f));
    forall i | 0 <= i < |TurnOrder(f)| ensures GroupItems(f.world, TurnOrder(f)[i]) != {} {
      assert TurnOrder(f)[i] in Groups(f.world);
      var r :| 0 <= r < |f.world.books.requests| && Rotating(f.world, r) && GroupOf(f.world, r) == TurnOrder(f)[i];
      assert r in GroupItems(f.world, TurnOrder(f)[i]);
    }
  }

  /** Groups without repeats, each with a request. */
  ghost predicate OrderOk(w: World, order: seq<Group>) {
    && (forall i, j :: 0 <= i < j < |order| ==> order[i] != order[j])
    && forall i :: 0 <= i < |order| ==> GroupItems(w, order[i]) != {}
  }

  lemma TurnOrderOk(f: Floor)
    ensures OrderOk(f.world, TurnOrder(f)) && |TurnOrder(f)| == |Groups(f.world)|
  {
    TurnOrderFacts(f);
  }

  lemma PassStarts(start: Floor, order: seq<Group>, base: int)
    requires WorldOk(start.world)
    ensures PassSoFar(start, order, start, [], 0, 0) && FreshSoFar(start, start, base)
  {
  }

  /** Everything the rotation relies on about one turn. */
  ghost predicate TurnDid(f: Floor, g: Floor, item: RequestId, clock: Clock, result: TurnResult) {
    && WorldOk(f.world) && WorldOk(g.world)
    && OnlyRow(f.world, g.world, item)
    && result in {Fulfilled, Waited}
    && OpenCount(g) == OpenCount(f) - (if result == Fulfilled then 1 else 0)
    && Forward(f.conflicts, g.conflicts)
    && (if result == Fulfilled then Drew(f.world.dist, g.world.dist, TurnDraw(f, item, clock))
        else g.world.dist == f.world.dist)
  }

  ghost predicate Drew(d: Dist, e: Dist, step: NoRepeat.Step) {
    NoRepeat.DistOk(d) && NoRepeat.Draws(d, step) && e == NoRepeat.Next(d, step)
  }

  lemma TurnDoes(f: Floor, item: RequestId, clock: Clock)
    requires WorldOk(f.world) && Rotating(f.world, item) && clock.instant <= clock.at
    ensures TurnDid(f, Turn(f, item, clock).floor, item, clock, Turn(f, item, clock).result)
  {
    TurnFacts(f, item, clock);
    TurnDropsOpen(f, item, clock);
    TurnMovesForward(f, item, clock);
  }

  lemma DrewAdds(d: Dist, e: Dist, step: NoRepeat.Step)
    requires Drew(d, e, step)
    ensures |e.events| == |d.events| + step.count && d.events <= e.events && e.roster == d.roster
    ensures forall j :: |d.events| <= j < |e.events| ==>
      e.events[j].lead in NoRepeat.Drawn(d, step) && e.events[j].deliveredAt == step.at
    ensures FreshLeads(e.events, |d.events|)
  {
    NoRepeat.DrawnFacts(d, step);
    var ls := NoRepeat.Drawn(d, step);
    forall j | |d.events| <= j < |e.events|
      ensures e.events[j].lead == ls[j - |d.events|] && e.events[j].deliveredAt == step.at
    {
      assert e.events[j] == NewEvent(d.roster, step.c, step.request, step.at, ls[j - |d.events|]);
    }
  }

  /** A request of a group whose turn is still to come is as the pass found it. */
  lemma ItemRotates(start: Floor, order: seq<Group>, f: Floor, attempts: seq<RequestId>, fulfilled: nat, k: nat,
                    item: RequestId)
    requires PassSoFar(start, order, f, attempts, fulfilled, k) && k < |order|
    requires forall i, j :: 0 <= i < j < |order| ==> order[i] != order[j]
    requires item in GroupItems(start.world, order[k])
    ensures Rotating(f.world, item)
  {
    assert item !in attempts;
  }

  /** Attempting one more request touches that one only. */
  lemma TouchesOne(start: World, v: World, w: World, attempts: seq<RequestId>, item: RequestId)
    requires Untouched(start, v, attempts) && OnlyRow(v, w, item)
    ensures Untouched(start, w, attempts + [item])
  {
    forall r | 0 <= r < |start.books.requests| && r !in attempts + [item]
      ensures w.books.requests[r] == start.books.requests[r]
    {
      assert r !in attempts && r != item;
    }
  }

  lemma TurnAddsEvents(f: Floor, g: Floor, item: RequestId, clock: Clock, result: TurnResult)
    requires TurnDid(f, g, item, clock, result)
    ensures f.world.dist.events <= g.world.dist.events && g.world.dist.roster == f.world.dist.roster
  {
    if result == Fulfilled {
      DrewAdds(f.world.dist, g.world.dist, TurnDraw(f, item, clock));
    }
  }

  lemma ForwardTransitive(a: Conflicts, b: Conflicts, c: Conflicts)
    requires Forward(a, b) && Forward(b, c)
    ensures Forward(a, c)
  {
  }

  lemma OneMoreGroup(w: World, order: seq<Group>, attempts: seq<RequestId>, k: nat, item: RequestId)
    requires OnePerGroup(w, order, attempts, k) && k < |order| && item in GroupItems(w, order[k])
    ensures OnePerGroup(w, order, attempts + [item], k + 1)
  {
    var more := attempts + [item];
    forall i | 0 <= i < k + 1 ensures more[i] in GroupItems(w, order[i]) {
    }
  }

  lemma PassContinues(start: Floor, order: seq<Group>, f: Floor, attempts: seq<RequestId>, fulfilled: nat, k: nat,
                      g: Floor, item: RequestId, clock: Clock, result: TurnResult)
    requires PassSoFar(start, order, f, attempts, fulfilled, k) && k < |order|
    requires item in GroupItems(start.world, order[k]) && TurnDid(f, g, item, clock, result)
    ensures PassSoFar(start, order, g, attempts + [item], fulfilled + (if result == Fulfilled then 1 else 0), k + 1)
  {
    TurnAddsEvents(f, g, item, clock, result);
    TouchesOne(start.world, f.world, g.world, attempts, item);
    OneMoreGroup(start.world, order, attempts, k, item);
    ForwardTransitive(start.conflicts, f.conflicts, g.conflicts);
  }

  /** A draw adds fresh Leads to fresh ones. */
  lemma DrawStaysFresh(d: Dist, e: Dist, step: NoRepeat.Step, from: nat, base: int)
    requires Drew(d, e, step) && from <= |d.events| && step.at < base + DAY
    requires FreshLeads(d.events, from) && Since(d.events, from, base)
    ensures FreshLeads(e.events, from)
  {
    DrewAdds(d, e, step);
    forall i, j | from <= i < j < |e.events| ensures e.events[i].lead != e.events[j].lead {
      if i < |d.events| <= j {
        assert d.events[i].deliveredAt >= base;
        FreshDraw(d, e, step, i, j);
      }
    }
  }

  lemma DrawStaysSince(d: Dist, e: Dist, step: NoRepeat.Step, from: nat, base: int)
    requires Drew(d, e, step) && from <= |d.events| && base <= step.at && Since(d.events, from, base)
    ensures Since(e.events, from, base)
  {
    DrewAdds(d, e, step);
  }

  lemma FreshContinues(start: Floor, f: Floor, g: Floor, item: RequestId, clock: Clock, result: TurnResult, base: int)
    requires start.world.dist.events <= f.world.dist.events && TurnDid(f, g, item, clock, result)
    requires base <= clock.instant <= clock.at < base + DAY
    requires FreshSoFar(start, f, base)
    ensures FreshSoFar(start, g, base)
  {
    if result == Fulfilled {
      var d, e, step, from := f.world.dist, g.world.dist, TurnDraw(f, item, clock), |start.world.dist.events|;
      DrawStaysFresh(d, e, step, from, base);
      DrawStaysSince(d, e, step, from, base);
    }
  }

  /** A Lead delivered less than a day ago is not drawn. */
  lemma FreshDraw(d: Dist, e: Dist, step: NoRepeat.Step, i: nat, j: nat)
    requires Drew(d, e, step) && i < |d.events| <= j < |e.events| == |d.events| + step.count
    requires step.at < d.events[i].deliveredAt + DAY
    ensures d.events[i].lead != e.events[j].lead
  {
    DrewAdds(d, e, step);
    if d.events[i].lead == e.events[j].lead {
      NoRepeat.DrawSpacing(d, step, d.events[i].lead, i);
    }
  }

  // ---------------------------------------------------------------------
  // The pass as a relation between floors
  // ---------------------------------------------------------------------

  /** A pass: the floor before each turn and after the last, and what each turn did. */
  datatype Pass = Pass(floors: seq<Floor>, attempts: seq<RequestId>, results: seq<TurnResult>, clocks: seq<Clock>)

  /** The `k`-th group's turn: its least recently served request, as things stand by then. */
  ghost predicate TurnMade(start: World, group: Group, f: Floor, clock: Clock, g: Floor, item: RequestId,
                           result: TurnResult) {
    && GroupItems(start, group) != {}
    && item == Chosen(f, GroupItems(start, group))
    && WorldOk(f.world) && Rotating(f.world, item) && clock.instant <= clock.at
    && TurnOutcome(g, result) == Turn(f, item, clock)
  }

  /** The first `k` groups of `order` have had their turns. */
  ghost predicate PassUpTo(p: Pass, order: seq<Group>, k: nat) {
    && k <= |order| && |p.floors| == k + 1 && |p.attempts| == |p.results| == k <= |p.clocks|
    && forall i :: 0 <= i < k ==> TurnAt(p, order, i)
  }

  ghost predicate TurnAt(p: Pass, order: seq<Group>, i: nat)
    requires i < |order| && i + 1 < |p.floors| && i < |p.attempts| && i < |p.results| && i < |p.clocks|
  {
    TurnMade(p.floors[0].world, order[i], p.floors[i], p.clocks[i], p.floors[i + 1], p.attempts[i], p.results[i])
  }

  /** A pass of `k` turns so far, from `start` to `here`. */
  ghost predicate PassMade(p: Pass, order: seq<Group>, k: nat, start: Floor, here: Floor, clocks: seq<Clock>) {
    PassUpTo(p, order, k) && p.floors[0] == start && p.floors[k] == here && p.clocks == clocks
  }

  /** Every group, in rotation order. */
  ghost predicate IsPass(p: Pass) {
    p.floors != [] && PassUpTo(p, TurnOrder(p.floors[0]), |TurnOrder(p.floors[0])|)
  }

  function IsFulfilled(): TurnResult -> bool {
    (t: TurnResult) => t == Fulfilled
  }

  predicate ApprovedLeft(w: World) {
    exists r :: 0 <= r < |w.books.requests| && w.books.requests[r].status == Status.Approved
  }

  /** `fulfill_round_robin` enqueues itself again. */
  ghost predicate Requeues(p: Pass)
    requires IsPass(p)
  {
    Fulfilled in p.results && ApprovedLeft(p.floors[|p.floors| - 1].world)
  }

  lemma RequeuesIff(p: Pass, fulfilled: nat)
    requires IsPass(p) && fulfilled == Count(p.results, IsFulfilled())
    ensures Requeues(p) <==> fulfilled > 0 && ApprovedLeft(p.floors[|p.floors| - 1].world)
  {
    CountPositive(p.results, IsFulfilled());
  }

  function Extended(p: Pass, g: Floor, item: RequestId, result: TurnResult): Pass {
    p.(floors := p.floors + [g], attempts := p.attempts + [item], results := p.results + [result])
  }

  /** A turn is the same turn in a longer or shorter record of the pass. */
  lemma SameTurn(p: Pass, q: Pass, order: seq<Group>, i: nat)
    requires i < |order| && i + 1 < |p.floors| && i < |p.attempts| && i < |p.results| && i < |p.clocks|
    requires i + 1 < |q.floors| && i < |q.attempts| && i < |q.results| && i < |q.clocks|
    requires p.floors[0] == q.floors[0] && p.floors[i] == q.floors[i] && p.floors[i + 1] == q.floors[i + 1]
    requires p.attempts[i] == q.attempts[i] && p.results[i] == q.results[i] && p.clocks[i] == q.clocks[i]
    requires TurnAt(p, order, i)
    ensures TurnAt(q, order, i)
  {
  }

  lemma PassExtends(p: Pass, order: seq<Group>, k: nat, g: Floor, item: RequestId, result: TurnResult)
    requires PassUpTo(p, order, k) && k < |order| && k < |p.clocks|
    requires TurnMade(p.floors[0].world, order[k], p.floors[k], p.clocks[k], g, item, result)
    ensures PassUpTo(Extended(p, g, item, result), order, k + 1)
    ensures Count(p.results + [result], IsFulfilled())
         == Count(p.results, IsFulfilled()) + (if result == Fulfilled then 1 else 0)
  {
    var q := Extended(p, g, item, result);
    CountExtends(p.results, result);
    LastIs(q, order, k, p.floors[0], p.floors[k], g, item, result, p.clocks[k]);
    forall i | 0 <= i < k ensures TurnAt(q, order, i) {
      SameTurn(p, q, order, i);
    }
  }

  lemma LastIs(q: Pass, order: seq<Group>, k: nat, start: Floor, f: Floor, g: Floor, item: RequestId,
               result: TurnResult, clock: Clock)
    requires k < |order| && |q.floors| == k + 2 && |q.attempts| == |q.results| == k + 1 <= |q.clocks|
    requires q.floors[0] == start && q.floors[k] == f && q.floors[k + 1] == g
    requires q.attempts[k] == item && q.results[k] == result && q.clocks[k] == clock
    requires TurnMade(start.world, order[k], f, clock, g, item, result)
    ensures TurnAt(q, order, k)
  {
  }

  lemma CountExtends(results: seq<TurnResult>, result: TurnResult)
    ensures Count(results + [result], IsFulfilled())
         == Count(results, IsFulfilled()) + (if result == Fulfilled then 1 else 0)
  {
    CountConcat(results, [result], IsFulfilled());
  }

  lemma MadeDid(start: World, group: Group, f: Floor, clock: Clock, g: Floor, item: RequestId, result: TurnResult)
    requires TurnMade(start, group, f, clock, g, item, result)
    ensures item in GroupItems(start, group) && TurnDid(f, g, item, clock, result)
  {
    TurnDoes(f, item, clock);
  }

  /** What turn `i` did, whatever made it do so. */
  ghost predicate DidAt(p: Pass, order: seq<Group>, i: nat)
    requires i < |order| && i + 1 < |p.floors| && i < |p.attempts| && i < |p.results| && i < |p.clocks|
  {
    && p.attempts[i] in GroupItems(p.floors[0].world, order[i])
    && TurnDid(p.floors[i], p.floors[i + 1], p.attempts[i], p.clocks[i], p.results[i])
  }

  ghost predicate DidUpTo(p: Pass, order: seq<Group>, k: nat) {
    && k <= |order| && |p.floors| == k + 1 && |p.attempts| == |p.results| == k <= |p.clocks|
    && forall i :: 0 <= i < k ==> DidAt(p, order, i)
  }

  lemma TurnAtDid(p: Pass, order: seq<Group>, i: nat)
    requires i < |order| && i + 1 < |p.floors| && i < |p.attempts| && i < |p.results| && i < |p.clocks|
    requires TurnAt(p, order, i)
    ensures DidAt(p, order, i)
  {
    MadeDid(p.floors[0].world, order[i], p.floors[i], p.clocks[i], p.floors[i + 1], p.attempts[i], p.results[i]);
  }

  lemma PassDid(p: Pass, order: seq<Group>, k: nat)
    requires PassUpTo(p, order, k)
    ensures DidUpTo(p, order, k)
  {
    forall i | 0 <= i < k ensures DidAt(p, order, i) {
      TurnAtDid(p, order, i);
    }
  }

  /** A pass one turn shorter. */
  function Shortened(p: Pass, n: nat): Pass
    requires n < |p.floors| && n <= |p.attempts| && n <= |p.results|
  {
    p.(floors := p.floors[..n + 1], attempts := p.attempts[..n], results := p.results[..n])
  }

  lemma SameDid(p: Pass, q: Pass, order: seq<Group>, i: nat)
    requires i < |order| && i + 1 < |p.floors| && i < |p.attempts| && i < |p.results| && i < |p.clocks|
    requires i + 1 < |q.floors| && i < |q.attempts| && i < |q.results| && i < |q.clocks|
    requires p.floors[0] == q.floors[0] && p.floors[i] == q.floors[i] && p.floors[i + 1] == q.floors[i + 1]
    requires p.attempts[i] == q.attempts[i] && p.results[i] == q.results[i] && p.clocks[i] == q.clocks[i]
    requires DidAt(p, order, i)
    ensures DidAt(q, order, i)
  {
  }

  lemma DidShortens(p: Pass, order: seq<Group>, k: nat)
    requires DidUpTo(p, order, k) && k > 0
    ensures DidUpTo(Shortened(p, k - 1), order, k - 1)
    ensures p.attempts == Shortened(p, k - 1).attempts + [p.attempts[k - 1]]
    ensures p.results == Shortened(p, k - 1).results + [p.results[k - 1]]
  {
    var init := Shortened(p, k - 1);
    forall i | 0 <= i < k - 1 ensures DidAt(init, order, i) {
      SameDid(p, init, order, i);
    }
  }

  lemma DidContinues(start: Floor, order: seq<Group>, f: Floor, attempts: seq<RequestId>, results: seq<TurnResult>,
                     k: nat, g: Floor, item: RequestId, clock: Clock, result: TurnResult)
    requires PassSoFar(start, order, f, attempts, Count(results, IsFulfilled()), k) && k < |order|
    requires item in GroupItems(start.world, order[k]) && TurnDid(f, g, item, clock, result)
    ensures PassSoFar(start, order, g, attempts + [item], Count(results + [result], IsFulfilled()), k + 1)
  {
    CountExtends(results, result);
    PassContinues(start, order, f, attempts, Count(results, IsFulfilled()), k, g, item, clock, result);
  }

  lemma {:induction false} DidStands(p: Pass, order: seq<Group>, k: nat)
    requires DidUpTo(p, order, k) && WorldOk(p.floors[0].world)
    ensures PassSoFar(p.floors[0], order, p.floors[k], p.attempts, Count(p.results, IsFulfilled()), k)
    decreases k
  {
    if k == 0 {
      PassStarts(p.floors[0], order, 0);
    } else {
      var n, init := k - 1, Shortened(p, k - 1);
      DidShortens(p, order, k);
      DidStands(init, order, n);
      assert DidAt(p, order, n);
      DidContinues(p.floors[0], order, p.floors[n], init.attempts, init.results, n,
                   p.floors[k], p.attempts[n], p.clocks[n], p.results[n]);
    }
  }

  /** Where a pass stands after `k` turns. */
  lemma PassStands(p: Pass, order: seq<Group>, k: nat)
    requires PassUpTo(p, order, k) && WorldOk(p.floors[0].world)
    ensures PassSoFar(p.floors[0], order, p.floors[k], p.attempts, Count(p.results, IsFulfilled()), k)
  {
    PassDid(p, order, k);
    DidStands(p, order, k);
  }

  lemma {:induction false} DidIsFresh(p: Pass, order: seq<Group>, k: nat, base: int)
    requires DidUpTo(p, order, k) && WorldOk(p.floors[0].world) && WithinADay(p.clocks, base)
    ensures FreshSoFar(p.floors[0], p.floors[k], base)
    decreases k
  {
    if k > 0 {
      var n, init := k - 1, Shortened(p, k - 1);
      DidShortens(p, order, k);
      DidIsFresh(init, order, n, base);
      DidStands(init, order, n);
      assert DidAt(p, order, n);
      assert base <= p.clocks[n].instant <= p.clocks[n].at < base + DAY;
      FreshContinues(p.floors[0], p.floors[n], p.floors[k], p.attempts[n], p.clocks[n], p.results[n], base);
    }
  }

  /** Made within a day, it has given out no Lead twice. */
  lemma PassIsFresh(p: Pass, order: seq<Group>, k: nat, base: int)
    requires PassUpTo(p, order, k) && WorldOk(p.floors[0].world) && WithinADay(p.clocks, base)
    ensures FreshSoFar(p.floors[0], p.floors[k], base)
  {
    PassDid(p, order, k);
    DidIsFresh(p, order, k, base);
  }

  /** What a whole pass keeps. */
  lemma PassKeeps(p: Pass, base: int)
    requires IsPass(p) && WorldOk(p.floors[0].world)
    ensures var start, last := p.floors[0], p.floors[|p.floors| - 1];
      && |p.attempts| == |Groups(start.world)|
      && PassSoFar(start, TurnOrder(start), last, p.attempts, Count(p.results, IsFulfilled()), |p.attempts|)
      && (WithinADay(p.clocks, base) ==> FreshSoFar(start, last, base))
  {
    var order := TurnOrder(p.floors[0]);
    TurnOrderFacts(p.floors[0]);
    PassStands(p, order, |order|);
    if WithinADay(p.clocks, base) {
      PassIsFresh(p, order, |order|, base);
    }
  }

  /**
   A pass keeps the machine in order and shortens the queue by the requests it fulfilled; one
   that re-queues fulfilled some.
   */
  lemma PassShortensQueue(p: Pass)
    requires IsPass(p) && WorldOk(p.floors[0].world)
    ensures var last := p.floors[|p.floors| - 1];
      && WorldOk(last.world)
      && OpenCount(last) == OpenCount(p.floors[0]) - Count(p.results, IsFulfilled())
      && (Requeues(p) ==> OpenCount(last) < OpenCount(p.floors[0]))
  {
    var order := TurnOrder(p.floors[0]);
    PassStands(p, order, |order|);
    CountPositive(p.results, IsFulfilled());
  }

  // ---------------------------------------------------------------------
  // The rows
  // ---------------------------------------------------------------------

  class Desk {
    var dist: Dist
    var requests: seq<Request>
    var ledger: seq<Entry>
    var terms: map<CustomerId, Terms>
    var conflicts: Conflicts
    var customerTurn: map<CustomerId, int>
    var agencyTurn: map<AgencyId, int>

    ghost function World(): World
      reads this
    {
      Requests.World(dist, Books(requests, ledger), terms)
    }

    ghost function Floor(): Floor
      reads this
    {
      Rotation.Floor(World(), conflicts, customerTurn, agencyTurn)
    }

    /** `capture_batch_hold`: charge once, then mark the hold. */
    method CaptureHold(r: RequestId) returns (raised: bool)
      requires r < |requests|
      modifies this`requests, this`ledger
      ensures raised <==> Capture(old(World()).books, r).Denied?
      ensures raised ==> unchanged(this)
      ensures !raised ==> World().books == Capture(old(World()).books, r).books
      ensures !raised && old(requests[r]).billed ==>
        requests[r] == old(requests[r]).(hold := Some(Hold(old(requests[r]).hold.value.amount, Captured)))
      ensures !raised && !Charged(old(World()).books, r) ==>
        forall c :: Available(World().books, c) == Available(old(World()).books, c)
    {
      ghost var before := World().books;
      var hold := requests[r].hold;
      if !Charged(before, r) && requests[r].billed && hold.Some? && hold.value.status == Active {
        forall c ensures Available(Capture(before, r).books, c) == Available(before, c) {
          CaptureKeepsAvailable(before, r, c);
        }
      }
      var q := requests[r];
      if !q.billed {
        return false;
      }
      if q.hold.None? {
        return true;
      }
      if q.hold.value.status == Captured {
        return false;
      }
      if q.hold.value.status != Active {
        return true;
      }
      if Count(ledger, ChargeOf(r)) == 0 {
        ledger := ledger + [Entry(q.customer, BatchCharge, 0 - q.hold.value.amount, Some(r))];
      }
      requests := requests[r := q.(hold := Some(q.hold.value.(status := Captured)))];
      return false;
    }

    /** `allocate_request`. An exception leaves the rows as they were. */
    method AllocateNow(r: RequestId, instant: int, at: int) returns (raised: bool)
      requires Placed(World())
      modifies this`dist, this`requests, this`ledger
      ensures raised <==> AllocateRequest(old(World()), r, instant, at).Raised?
      ensures raised ==> unchanged(this)
      ensures !raised ==> World() == AllocateRequest(old(World()), r, instant, at).w
    {
      if r >= |requests| {
        return true;
      }
      var q := requests[r];
      var existing := Count(dist.events, ForRequest(r));
      if existing > 0 {
        if existing != q.count {
          return true;
        }
        raised := FinishRow(r, q.(status := Generated, artifact := true), dist);
        return;
      }
      if q.status != Status.Approved && q.status != Processing {
        return false;
      }
      var candidates := Candidates(dist, q.customer, q.states, q.count, instant);
      if |candidates| < q.count {
        requests := requests[r := q.(status := WaitingInventory,
                                     available := Some(|EligibleSet(dist, q.customer, q.states, instant)|))];
        return false;
      }
      var rows := new Rows(dist);
      rows.Commit(dist.roster, q.customer, r, at, candidates);
      raised := FinishRow(r, q.(status := Generated, artifact := true, available := Some(|candidates|),
                                processedAt := Some(at)),
                          dist.(stock := dist.stock.(leads := rows.leads), events := rows.events));
    }

    /** Writes the row and captures its hold; a refused capture rolls everything back. */
    method FinishRow(r: RequestId, row: Request, next: Dist) returns (raised: bool)
      requires r < |requests|
      modifies this`dist, this`requests, this`ledger
      ensures var a := Finish(SetRequest(old(World()).(dist := next), r, row), r);
        && (raised <==> a.Raised?)
        && World() == (if raised then old(World()) else a.w)
    {
      var q := requests[r];
      requests := requests[r := row];
      raised := CaptureHold(r);
      if raised {
        requests := requests[r := q];
        assert requests == old(requests);
      } else {
        dist := next;
      }
    }

    /** `_inventory_conflict_blocks`: the loop over older waiting requests. */
    method ConflictBlocks(r: RequestId, instant: int) returns (blocked: bool)
      requires Placed(World()) && r < |requests|
      modifies this`requests, this`conflicts
      ensures var v := Gate(old(World()), old(conflicts), r, instant);
        && blocked == v.Block? && conflicts == v.conflicts
        && World() == (if blocked then Waiting(old(World()), r, instant) else old(World()))
    {
      var w := Requests.World(dist, Books(requests, ledger), terms);
      var newer := EligibleFor(w, r, instant);
      if |newer| < requests[r].count {
        return false;
      }
      blocked := AskOlder(w, r, instant, newer);
      if blocked {
        requests := requests[r := requests[r].(status := WaitingInventory, available := Some(|newer|))];
      }
    }

    /** The loop over older waiting requests: the first that contends decides. */
    method AskOlder(w: World, r: RequestId, instant: int, newer: set<LeadId>) returns (blocked: bool)
      requires Placed(w) && Known(w, r) && newer == EligibleFor(w, r, instant) && |newer| >= w.books.requests[r].count
      modifies this`conflicts
      ensures var v := Gate(w, old(conflicts), r, instant); blocked == v.Block? && conflicts == v.conflicts
    {
      var queue := Queue(w, r);
      assert forall i :: i in queue ==> i in OlderWaiting(w, r);
      for k := 0 to |queue|
        invariant conflicts == old(conflicts)
        invariant Gate(w, conflicts, r, instant) == GateFrom(w, conflicts, r, queue, k, instant)
      {
        var older := queue[k];
        assert older in OlderWaiting(w, r);
        if w.books.requests[older].states * w.books.requests[r].states == {} {
          continue;
        }
        if newer * EligibleFor(w, older, instant) == {} {
          continue;
        }
        var key := KeyFor(w, older, r, instant);
        if key in conflicts && conflicts[key] == Confirmed {
          conflicts := conflicts[key := Consumed];
          return false;
        }
        if key !in conflicts {
          conflicts := conflicts[key := PendingDecision];
        }
        return true;
      }
      return false;
    }

    /** One turn of `fulfill_round_robin` on its chosen request. */
    method TakeTurn(r: RequestId, clock: Clock) returns (result: TurnResult)
      requires WorldOk(World()) && Rotating(World(), r) && clock.instant <= clock.at
      modifies this
      ensures Floor() == Turn(old(Floor()), r, clock).floor
      ensures result == Turn(old(Floor()), r, clock).result
    {
      var blocked := ConflictBlocks(r, clock.gate);
      if blocked {
        return Waited;
      }
      result := TurnPastGate(r, clock);
    }

    /** A turn the gate let through. */
    method TurnPastGate(r: RequestId, clock: Clock) returns (result: TurnResult)
      requires WorldOk(World()) && Rotating(World(), r) && clock.instant <= clock.at
      modifies this
      ensures AllocateRequest(Reopened(old(World()), r), r, clock.instant, clock.at).Done?
      ensures var v := AllocateRequest(Reopened(old(World()), r), r, clock.instant, clock.at).w;
        && Placed(v) && Known(v, r)
        && Floor() == Settle(old(Floor()).(world := v), r, clock.at).floor
        && result == Settle(old(Floor()).(world := v), r, clock.at).result
    {
      ghost var before := World();
      if requests[r].status == WaitingInventory {
        requests := requests[r := requests[r].(status := Status.Approved)];
      }
      assert World() == Reopened(before, r);
      ReopenOk(before, r);
      AllocateNeverRaises(World(), r, clock.instant, clock.at);
      AllocateKeepsPlaced(World(), r, clock.instant, clock.at);
      var raised := AllocateNow(r, clock.instant, clock.at);
      result := Tally(r, clock.at);
    }

    /** The tally after an allocation: a generated batch counts as its Customer's and Agency's latest turn. */
    method Tally(r: RequestId, at: int) returns (result: TurnResult)
      requires Placed(World()) && Known(World(), r)
      modifies this`customerTurn, this`agencyTurn
      ensures Floor() == Settle(old(Floor()), r, at).floor && result == Settle(old(Floor()), r, at).result
    {
      if requests[r].status == Generated {
        var q := requests[r];
        var when := if q.processedAt.Some? then q.processedAt.value else at;
        customerTurn := customerTurn[q.customer := when];
        if dist.roster.customers[q.customer].agency.Some? {
          agencyTurn := agencyTurn[dist.roster.customers[q.customer].agency.value := when];
        }
        return Fulfilled;
      }
      return if requests[r].status == WaitingInventory then Waited else Neither;
    }

    /** One iteration of the rotation: choose the group's request and give it its turn. */
    method GroupTurn(items: set<RequestId>, clock: Clock,
                     ghost start: Floor, ghost order: seq<Group>, ghost attempts: seq<RequestId>,
                     ghost fulfilled: nat, ghost k: nat)
      returns (item: RequestId, result: TurnResult)
      requires PassSoFar(start, order, Floor(), attempts, fulfilled, k) && k < |order|
      requires forall i, j :: 0 <= i < j < |order| ==> order[i] != order[j]
      requires items == GroupItems(start.world, order[k]) && items != {} && clock.instant <= clock.at
      modifies this
      ensures TurnMade(start.world, order[k], old(Floor()), clock, Floor(), item, result)
      ensures result in {Fulfilled, Waited}
    {
      ghost var before := Floor();
      var w := Requests.World(dist, Books(requests, ledger), terms);
      item := Chosen(Rotation.Floor(w, conflicts, customerTurn, agencyTurn), items);
      ItemRotates(start, order, Floor(), attempts, fulfilled, k, item);
      TurnDoes(before, item, clock);
      result := TakeTurn(item, clock);
    }

    /** One iteration: the group's turn, added to the pass. */
    method NextTurn(items: set<RequestId>, clock: Clock, ghost p: Pass, ghost order: seq<Group>, ghost k: nat,
                    ghost start: Floor, ghost clocks: seq<Clock>)
      returns (result: TurnResult, ghost q: Pass)
      requires PassMade(p, order, k, start, Floor(), clocks) && k < |order| && k < |clocks| && clock == clocks[k]
      requires clock.instant <= clock.at && WorldOk(start.world)
      requires OrderOk(start.world, order) && items == GroupItems(start.world, order[k])
      modifies this
      ensures PassMade(q, order, k + 1, start, Floor(), clocks)
      ensures result in {Fulfilled, Waited}
      ensures Count(q.results, IsFulfilled())
           == Count(p.results, IsFulfilled()) + (if result == Fulfilled then 1 else 0)
    {
      PassStands(p, order, k);
      var item;
      item, result := GroupTurn(items, clock, p.floors[0], order, p.attempts, Count(p.results, IsFulfilled()), k);
      PassExtends(p, order, k, Floor(), item, result);
      q := Extended(p, Floor(), item, result);
    }

    /** The rotation itself, over the groups in the order of their turns. */
    method MakeTurns(loaded: World, order: seq<Group>, clocks: seq<Clock>)
      returns (visited: nat, fulfilled: nat, waiting: nat, ghost p: Pass)
      requires loaded == World() && WorldOk(loaded) && OrderOk(loaded, order) && Ordered(clocks) && |clocks| >= |order|
      modifies this
      ensures PassMade(p, order, |order|, old(Floor()), Floor(), clocks)
      ensures visited == |order| == fulfilled + waiting && fulfilled == Count(p.results, IsFulfilled())
    {
      visited, fulfilled, waiting := 0, 0, 0;
      ghost var start := Floor();
      p := Pass.Pass([start], [], [], clocks);
      for k := 0 to |order|
        invariant visited == k == fulfilled + waiting && fulfilled == Count(p.results, IsFulfilled())
        invariant PassMade(p, order, k, start, Floor(), clocks)
      {
        visited := visited + 1;
        var result;
        result, p := NextTurn(GroupItems(loaded, order[k]), clocks[k], p, order, k, start, clocks);
        if result == Fulfilled {
          fulfilled := fulfilled + 1;
        } else {
          waiting := waiting + 1;
        }
      }
    }

    method MakePass(clocks: seq<Clock>) returns (visited: nat, fulfilled: nat, waiting: nat, ghost p: Pass)
      requires WorldOk(World()) && Ordered(clocks) && |clocks| >= |Groups(World())|
      modifies this
      ensures IsPass(p) && p.floors[0] == old(Floor()) && p.floors[|p.floors| - 1] == Floor() && p.clocks == clocks
      ensures visited == |Groups(old(World()))| == fulfilled + waiting && fulfilled == Count(p.results, IsFulfilled())
    {
      var loaded := Requests.World(dist, Books(requests, ledger), terms);
      var order := TurnOrder(Rotation.Floor(loaded, conflicts, customerTurn, agencyTurn));
      TurnOrderOk(Floor());
      visited, fulfilled, waiting, p := MakeTurns(loaded, order, clocks);
    }

    /**
     `fulfill_round_robin` is a pass: each Agency, or Customer on its own, has
     its least recently served request attempted once, in rotation order. Every
     attempt ends fulfilled or waiting, the queue shrinks by exactly the
     fulfilled ones, and a pass made within a day gives no Lead out twice.
     */
    method FulfillRoundRobin(clocks: seq<Clock>, ghost base: int)
      returns (visited: nat, fulfilled: nat, waiting: nat, again: bool, ghost p: Pass)
      requires WorldOk(World()) && Ordered(clocks) && |clocks| >= |Groups(World())|
      modifies this
      ensures IsPass(p) && p.floors[0] == old(Floor()) && p.floors[|p.floors| - 1] == Floor()
      ensures again <==> Requeues(p)
      ensures visited == |Groups(old(World()))| == fulfilled + waiting && fulfilled == Count(p.results, IsFulfilled())
      ensures WorldOk(World())
      ensures OnePerGroup(old(World()), TurnOrder(old(Floor())), p.attempts, visited)
      ensures Untouched(old(World()), World(), p.attempts)
      ensures OpenCount(Floor()) == OpenCount(old(Floor())) - fulfilled
      ensures Forward(old(conflicts), conflicts)
      ensures old(dist.events) <= dist.events
      ensures WithinADay(clocks, base) ==> FreshLeads(dist.events, old(|dist.events|))
    {
      visited, fulfilled, waiting, p := MakePass(clocks);
      PassKeeps(p, base);
      again := LeftOver(fulfilled, p);
    }

    /** Whether to enqueue the job again. */
    method LeftOver(fulfilled: nat, ghost p: Pass) returns (again: bool)
      requires IsPass(p) && fulfilled == Count(p.results, IsFulfilled())
      requires p.floors[|p.floors| - 1].world.books.requests == requests
      ensures again <==> Requeues(p)
    {
      RequeuesIff(p, fulfilled);
      again := fulfilled > 0 && exists r :: 0 <= r < |requests| && requests[r].status == Status.Approved;
    }

    /**
     The chain the re-queuing makes when nothing else happens in between: pass
     after pass until one does not ask for another. It ends, after at most one
     pass more than there were requests in rotation.
     */
    method FulfillUntilQuiet(clock: (nat, nat) -> Clock) returns (passes: nat, ghost fulfilled: nat)
      requires WorldOk(World()) && forall i, k :: clock(i, k).instant <= clock(i, k).at
      modifies this
      ensures WorldOk(World())
      ensures 1 <= passes <= fulfilled + 1 && fulfilled == old(OpenCount(Floor())) - OpenCount(Floor())
    {
      passes, fulfilled := 0, 0;
      var again := true;
      while again
        invariant WorldOk(World())
        invariant fulfilled == old(OpenCount(Floor())) - OpenCount(Floor())
        invariant passes <= fulfilled + (if again then 0 else 1) && (!again ==> passes >= 1)
        decreases again, OpenCount(Floor())
      {
        var groups := |Groups(Requests.World(dist, Books(requests, ledger), terms))|;
        var clocks := seq(groups, k requires 0 <= k => clock(passes, k));
        ghost var p;
        var visited, done, waiting;
        visited, done, waiting, again, p := FulfillRoundRobin(clocks, 0);
        passes, fulfilled := passes + 1, fulfilled + done;
        if again {
          CountPositive(p.results, IsFulfilled());
        }
      }
    }
  }
}
