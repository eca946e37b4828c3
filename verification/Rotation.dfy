/**
 Fulfillment Rotation and the Inventory Conflict gate (jawnix/allocation.py,
 `_inventory_conflict_blocks`, `decide_inventory_conflict`, `fulfill_round_robin`).
 */
module Rotation {
  import opened Basics
  import opened Ordering
  import opened History
  import opened NichePolicy
  import opened Allocation
  import opened Billing
  import opened Requests
  import NoRepeat

  /** What an Inventory Conflict was raised about; its checksum stands for it. */
  datatype Snapshot = Snapshot(
    olderCount: nat, newerCount: nat,
    olderStates: set<State>, newerStates: set<State>,
    olderEligible: nat, newerEligible: nat,
    shared: set<LeadId>)

  datatype ConflictKey = ConflictKey(older: RequestId, newer: RequestId, snapshot: Snapshot)
  datatype ConflictStatus = PendingDecision | Confirmed | DeniedConflict | Consumed

  type Conflicts = map<ConflictKey, ConflictStatus>

  /** The request machine with its conflicts and the time of each party's last turn. */
  datatype Floor = Floor(
    world: World,
    conflicts: Conflicts,
    customerTurn: map<CustomerId, int>,
    agencyTurn: map<AgencyId, int>)

  // ---------------------------------------------------------------------
  // The gate
  // ---------------------------------------------------------------------

  function EligibleFor(w: World, r: RequestId, instant: int): set<LeadId>
    requires Placed(w) && Known(w, r)
  {
    EligibleSet(w.dist, w.books.requests[r].customer, w.books.requests[r].states, instant)
  }

  function OlderWaiting(w: World, r: RequestId): set<RequestId>
    requires Known(w, r)
  {
    set i | 0 <= i < |w.books.requests| && i != r
            && w.books.requests[i].status == WaitingInventory
            && w.books.requests[i].createdAt < w.books.requests[r].createdAt
  }

  function AgeKey(w: World, i: RequestId): seq<int> {
    [if Known(w, i) then w.books.requests[i].createdAt else 0, i]
  }

  /** ORDER BY created_at, id */
  function OlderFirst(w: World): (RequestId, RequestId) -> bool {
    (a: RequestId, b: RequestId) => LexLess(AgeKey(w, a), AgeKey(w, b))
  }

  lemma OlderFirstTotal(w: World, s: set<RequestId>)
    ensures TotalOn(s, OlderFirst(w))
  {
    forall a, b | a in s && b in s && AgeKey(w, a) == AgeKey(w, b) ensures a == b {
      assert AgeKey(w, a)[1] == AgeKey(w, b)[1];
    }
    KeyIsTotal(s, (i: RequestId) => AgeKey(w, i), OlderFirst(w));
  }

  function Queue(w: World, r: RequestId): seq<RequestId>
    requires Known(w, r)
  {
    OlderFirstTotal(w, OlderWaiting(w, r));
    Sorted(OlderWaiting(w, r), OlderFirst(w))
  }

  /** The state pre-check that skips an older request without looking at its inventory. */
  predicate StatesOverlap(w: World, a: RequestId, b: RequestId)
    requires Known(w, a) && Known(w, b)
  {
    w.books.requests[a].states * w.books.requests[b].states != {}
  }

  function SharedLeads(w: World, a: RequestId, b: RequestId, instant: int): set<LeadId>
    requires Placed(w) && Known(w, a) && Known(w, b)
  {
    EligibleFor(w, b, instant) * EligibleFor(w, a, instant)
  }

  /** An older request the gate has to ask about. */
  predicate Contends(w: World, older: RequestId, r: RequestId, instant: int)
    requires Placed(w) && Known(w, older) && Known(w, r)
  {
    StatesOverlap(w, older, r) && SharedLeads(w, older, r, instant) != {}
  }

  function KeyFor(w: World, older: RequestId, r: RequestId, instant: int): ConflictKey
    requires Placed(w) && Known(w, older) && Known(w, r)
  {
    var a, b := w.books.requests[older], w.books.requests[r];
    ConflictKey(older, r, Snapshot(a.count, b.count, a.states, b.states,
      |EligibleFor(w, older, instant)|, |EligibleFor(w, r, instant)|, SharedLeads(w, older, r, instant)))
  }

  datatype Verdict = Pass(conflicts: Conflicts) | Block(conflicts: Conflicts)

  /** The loop over older requests, from position `k` of the queue. */
  function GateFrom(w: World, m: Conflicts, r: RequestId, queue: seq<RequestId>, k: nat, instant: int): Verdict
    requires Placed(w) && Known(w, r) && k <= |queue| && forall i :: i in queue ==> Known(w, i)
    decreases |queue| - k
  {
    if k == |queue| then Pass(m)
    else if !Contends(w, queue[k], r, instant) then GateFrom(w, m, r, queue, k + 1, instant)
    else
      var key := KeyFor(w, queue[k], r, instant);
      if key in m && m[key] == Confirmed then Pass(m[key := Consumed])
      else if key !in m then Block(m[key := PendingDecision])
      else Block(m)
  }

  /** `_inventory_conflict_blocks`, before it marks the request. */
  function Gate(w: World, m: Conflicts, r: RequestId, instant: int): Verdict
    requires Placed(w) && Known(w, r)
  {
    if |EligibleFor(w, r, instant)| < w.books.requests[r].count then Pass(m)
    else GateFrom(w, m, r, Queue(w, r), 0, instant)
  }

  /** `decide_inventory_conflict` */
  function DecideConflict(m: Conflicts, key: ConflictKey, confirm: bool): Conflicts {
    if key !in m || m[key] != PendingDecision then m
    else m[key := if confirm then Confirmed else DeniedConflict]
  }

  /**
   Between requests on one inventory database the pre-check skips nobody it
   should ask about: a shared Lead lies in a shared state.
   */
  lemma PreCheckIsSafe(w: World, a: RequestId, b: RequestId, instant: int)
    requires Placed(w) && Known(w, a) && Known(w, b)
    requires w.dist.roster.customers[w.books.requests[a].customer].database
          == w.dist.roster.customers[w.books.requests[b].customer].database
    requires SharedLeads(w, a, b, instant) != {}
    ensures StatesOverlap(w, a, b)
  {
    var l :| l in SharedLeads(w, a, b, instant);
    var state := InventoryState(w.dist.stock, w.dist.roster.customers[w.books.requests[a].customer].database, l).value;
    assert state in w.books.requests[a].states * w.books.requests[b].states;
  }

  /** Across databases a shared Lead is skipped only when the two list it under different states. */
  lemma PreCheckAcrossDatabases(w: World, a: RequestId, b: RequestId, instant: int, l: LeadId)
    requires Placed(w) && Known(w, a) && Known(w, b)
    requires l in SharedLeads(w, a, b, instant) && !StatesOverlap(w, a, b)
    ensures var dbA := w.dist.roster.customers[w.books.requests[a].customer].database;
      var dbB := w.dist.roster.customers[w.books.requests[b].customer].database;
      dbA != dbB && InventoryState(w.dist.stock, dbA, l) != InventoryState(w.dist.stock, dbB, l)
  {
    var dbA := w.dist.roster.customers[w.books.requests[a].customer].database;
    var dbB := w.dist.roster.customers[w.books.requests[b].customer].database;
    var x, y := InventoryState(w.dist.stock, dbA, l), InventoryState(w.dist.stock, dbB, l);
    assert x.value in w.books.requests[a].states && y.value in w.books.requests[b].states;
    assert x.value !in w.books.requests[a].states * w.books.requests[b].states;
  }

  /** The state that `SplitListing` lists its Lead under. */
  function ListedIn(db: Database): State {
    match db case Db1 => "TX" case Db2 => "OK"
  }

  /** An older waiting request on one database, a newer one on the other, one Lead listed under two states. */
  function SplitListing(x: Database, y: Database): World {
    var lead := Lead(5, ListedIn(Db1), true, false, false, None, None, None);
    var older := Request(0, 1, {ListedIn(x)}, WaitingInventory, 0, None, None, None, false, false, 0, None, None);
    var a, b := Customer(None, Key(0), true, false, 7, x), Customer(None, Key(1), true, false, 7, y);
    var newer := older.(customer := 1, states := {ListedIn(y)}, createdAt := 1, status := Status.Approved);
    World(Dist(Roster(map[0 := a, 1 := b], map[]),
               Stock(map[0 := lead], map[0 := ListedIn(Db2)], {}, [], map[], SharpRules()), []),
          Books([older, newer], []), map[])
  }

  lemma SplitListingOk(x: Database, y: Database)
    ensures WorldOk(SplitListing(x, y))
  {
    var w := SplitListing(x, y);
    var b := w.books;
    forall r | 0 <= r < |b.requests| ensures RequestOk(b.requests[r], EventCount(w, r), ChargeCount(w, r)) {
    }
    forall c ensures WalletOk(w, c) && Conserved(w, c) {
      NoHolds(b.requests, c, Active);
      NoHolds(b.requests, c, Captured);
    }
  }

  lemma {:induction false} NoHolds(qs: seq<Request>, c: CustomerId, of: HoldStatus)
    requires forall i :: 0 <= i < |qs| ==> qs[i].hold.None?
    ensures Sum(qs, HoldFor(c, of)) == 0
  {
    if qs != [] {
      NoHolds(qs[..|qs| - 1], c, of);
    }
  }

  lemma SplitListingShares(x: Database, y: Database)
    ensures var w := SplitListing(x, y); Placed(w) && 0 in OlderWaiting(w, 1) && 0 in SharedLeads(w, 0, 1, 0)
  {
    var w := SplitListing(x, y);
    StoredMeansAllows(w.dist.stock.rules, [], "TX", None);
    StoredMeansAllows(w.dist.stock.rules, [], "OK", None);
    assert Eligible(w.dist, 0, {ListedIn(x)}, 0, 0);
    assert Eligible(w.dist, 1, {ListedIn(y)}, 0, 0);
  }

  /** A Lead listed in Texas in one database and in Oklahoma in the other slips past the pre-check. */
  lemma PreCheckCanSkip(x: Database, y: Database)
    requires x != y
    ensures var w := SplitListing(x, y);
      WorldOk(w) && 0 in OlderWaiting(w, 1) && 0 in SharedLeads(w, 0, 1, 0) && !StatesOverlap(w, 0, 1)
  {
    SplitListingOk(x, y);
    SplitListingShares(x, y);
    assert "TX"[0] != "OK"[0];
    assert {ListedIn(x)} * {ListedIn(y)} == {};
  }

  predicate DatabasesAre(w: World, a: RequestId, b: RequestId, x: Database, y: Database)
    requires Placed(w) && Known(w, a) && Known(w, b)
  {
    && w.dist.roster.customers[w.books.requests[a].customer].database == x
    && w.dist.roster.customers[w.books.requests[b].customer].database == y
  }

  /**
   In no state of the machine is a request on one of these databases skipped by one on the other
   while they share a Lead.
   */
  ghost predicate PreCheckSound(x: Database, y: Database) {
    forall w: World, a: RequestId, b: RequestId, instant: int ::
      WorldOk(w) && Known(w, a) && Known(w, b) && DatabasesAre(w, a, b, x, y) && SharedLeads(w, a, b, instant) != {} ==>
        StatesOverlap(w, a, b)
  }

  /** The pre-check is sound exactly between requests on one database. */
  lemma PreCheckSoundIff(x: Database, y: Database)
    ensures PreCheckSound(x, y) <==> x == y
  {
    if x == y {
      forall w: World, a: RequestId, b: RequestId, instant: int |
        WorldOk(w) && Known(w, a) && Known(w, b) && DatabasesAre(w, a, b, x, y) && SharedLeads(w, a, b, instant) != {}
        ensures StatesOverlap(w, a, b)
      {
        PreCheckIsSafe(w, a, b, instant);
      }
    } else {
      PreCheckCanSkip(x, y);
      assert SharedLeads(SplitListing(x, y), 0, 1, 0) != {};
    }
  }

  /** Nobody ahead contends for a Lead. */
  ghost predicate Uncontended(w: World, r: RequestId, instant: int)
    requires Placed(w) && Known(w, r)
  {
    forall i :: i in OlderWaiting(w, r) ==> !Contends(w, i, r, instant)
  }

  /** One confirmed conflict, about exactly the present situation, was used up. */
  ghost predicate UsedUp(w: World, m: Conflicts, n: Conflicts, older: RequestId, r: RequestId, instant: int)
    requires Placed(w) && Known(w, r)
  {
    && older in OlderWaiting(w, r) && Contends(w, older, r, instant)
    && var key := KeyFor(w, older, r, instant);
       key in m && m[key] == Confirmed && n == m[key := Consumed]
  }

  /** A block leaves a conflict on file about a contending older request that does not authorize a bypass. */
  ghost predicate HeldBack(w: World, m: Conflicts, n: Conflicts, older: RequestId, r: RequestId, instant: int)
    requires Placed(w) && Known(w, r)
  {
    && older in OlderWaiting(w, r) && Contends(w, older, r, instant)
    && var key := KeyFor(w, older, r, instant);
       if key in m then m[key] != Confirmed && n == m else n == m[key := PendingDecision]
  }

  lemma {:induction false} GateFromDecides(w: World, m: Conflicts, r: RequestId, queue: seq<RequestId>, k: nat,
                                           instant: int)
    requires Placed(w) && Known(w, r) && k <= |queue|
    requires forall i :: i in queue ==> Known(w, i)
    requires forall i :: i in queue <==> i in OlderWaiting(w, r)
    requires forall j :: 0 <= j < k ==> !Contends(w, queue[j], r, instant)
    ensures var v := GateFrom(w, m, r, queue, k, instant);
      && (v.Pass? ==>
            || (Uncontended(w, r, instant) && v.conflicts == m)
            || exists i :: UsedUp(w, m, v.conflicts, i, r, instant))
      && (v.Block? ==> exists i :: HeldBack(w, m, v.conflicts, i, r, instant))
    decreases |queue| - k
  {
    if k == |queue| {
      forall i | i in OlderWaiting(w, r) ensures !Contends(w, i, r, instant) {
        var j :| 0 <= j < |queue| && queue[j] == i;
      }
    } else if !Contends(w, queue[k], r, instant) {
      GateFromDecides(w, m, r, queue, k + 1, instant);
    } else {
      var v := GateFrom(w, m, r, queue, k, instant);
      assert queue[k] in OlderWaiting(w, r);
      if v.Pass? {
        assert UsedUp(w, m, v.conflicts, queue[k], r, instant);
      } else {
        assert HeldBack(w, m, v.conflicts, queue[k], r, instant);
      }
    }
  }

  /**
   A request with enough inventory passes the gate only when no older waiting
   request contends with it, or by using up one confirmed conflict for the
   present snapshot; and it is blocked only by a conflict that is on file.
   */
  lemma GateDecides(w: World, m: Conflicts, r: RequestId, instant: int)
    requires Placed(w) && Known(w, r)
    ensures var v := Gate(w, m, r, instant);
      && (v.Pass? ==>
            || (|EligibleFor(w, r, instant)| < w.books.requests[r].count && v.conflicts == m)
            || (Uncontended(w, r, instant) && v.conflicts == m)
            || exists i :: UsedUp(w, m, v.conflicts, i, r, instant))
      && (v.Block? ==>
            && |EligibleFor(w, r, instant)| >= w.books.requests[r].count
            && exists i :: HeldBack(w, m, v.conflicts, i, r, instant))
  {
    if |EligibleFor(w, r, instant)| >= w.books.requests[r].count {
      assert forall i :: i in Queue(w, r) ==> i in OlderWaiting(w, r);
      GateFromDecides(w, m, r, Queue(w, r), 0, instant);
    }
  }

  /** A conflict only ever moves forward, and a used one never moves again. */
  ghost predicate Forward(m: Conflicts, n: Conflicts) {
    forall key :: key in m ==>
      && key in n
      && (|| n[key] == m[key]
          || m[key] == PendingDecision
          || (m[key] == Confirmed && n[key] == Consumed))
  }

  ghost predicate Uses(m: Conflicts, n: Conflicts, key: ConflictKey) {
    key in m && m[key] == Confirmed && key in n && n[key] == Consumed
  }

  lemma GateMovesForward(w: World, m: Conflicts, r: RequestId, instant: int)
    requires Placed(w) && Known(w, r)
    ensures Forward(m, Gate(w, m, r, instant).conflicts)
  {
    GateDecides(w, m, r, instant);
    var v := Gate(w, m, r, instant);
    if v.Block? {
      var i :| HeldBack(w, m, v.conflicts, i, r, instant);
      AddedIsForward(m, KeyFor(w, i, r, instant));
    } else if v.conflicts != m {
      var i :| UsedUp(w, m, v.conflicts, i, r, instant);
      UsedIsForward(m, KeyFor(w, i, r, instant));
    }
  }

  lemma AddedIsForward(m: Conflicts, key: ConflictKey)
    ensures Forward(m, m) && (key !in m ==> Forward(m, m[key := PendingDecision]))
  {
  }

  lemma UsedIsForward(m: Conflicts, key: ConflictKey)
    requires key in m && m[key] == Confirmed
    ensures Forward(m, m[key := Consumed])
  {
  }

  lemma DecisionMovesForward(m: Conflicts, key: ConflictKey, confirm: bool)
    ensures Forward(m, DecideConflict(m, key, confirm))
  {
  }

  // ---------------------------------------------------------------------
  // Groups and turns
  // ---------------------------------------------------------------------

  /** An Agency, or a Customer on its own. */
  datatype Group = AgencyGroup(agency: AgencyId) | SoloGroup(customer: CustomerId)

  predicate IsQueued(q: Request) {
    q.status == Status.Approved || q.status == WaitingInventory
  }

  /** A request the rotation loads and whose party is active. */
  predicate Rotating(w: World, r: RequestId) {
    Known(w, r) && IsQueued(w.books.requests[r]) && PartyActive(w.dist.roster, w.books.requests[r].customer)
  }

  function GroupOf(w: World, r: RequestId): Group
    requires Rotating(w, r)
  {
    var c := w.books.requests[r].customer;
    if w.dist.roster.customers[c].agency.Some? then AgencyGroup(w.dist.roster.customers[c].agency.value)
      else SoloGroup(c)
  }

  function Groups(w: World): set<Group> {
    set r | 0 <= r < |w.books.requests| && Rotating(w, r) :: GroupOf(w, r)
  }

  function GroupItems(w: World, g: Group): set<RequestId> {
    set r | 0 <= r < |w.books.requests| && Rotating(w, r) && GroupOf(w, r) == g
  }

  /** None sorts first; the stand-in time never decides between two Nones. */
  function TurnKey(last: Option<int>): seq<int> {
    if last.None? then [0, 0] else [1, last.value]
  }

  function Lookup(m: map<nat, int>, id: nat): Option<int> {
    if id in m then Some(m[id]) else None
  }

  /** `group_order` */
  function GroupKey(f: Floor, g: Group): seq<int> {
    match g
    case AgencyGroup(a) => TurnKey(Lookup(f.agencyTurn, a)) + [0, a]
    case SoloGroup(c) => TurnKey(Lookup(f.customerTurn, c)) + [1, c]
  }

  function GroupFirst(f: Floor): (Group, Group) -> bool {
    (a: Group, b: Group) => LexLess(GroupKey(f, a), GroupKey(f, b))
  }

  lemma GroupFirstTotal(f: Floor, s: set<Group>)
    ensures TotalOn(s, GroupFirst(f))
  {
    forall a, b | a in s && b in s && GroupKey(f, a) == GroupKey(f, b) ensures a == b {
      assert GroupKey(f, a)[2] == GroupKey(f, b)[2] && GroupKey(f, a)[3] == GroupKey(f, b)[3];
    }
    KeyIsTotal(s, (g: Group) => GroupKey(f, g), GroupFirst(f));
  }

  /** The order of turns: least recently fulfilled first. */
  function TurnOrder(f: Floor): seq<Group> {
    GroupFirstTotal(f, Groups(f.world));
    Sorted(Groups(f.world), GroupFirst(f))
  }

  function ItemKey(f: Floor, r: RequestId): seq<int> {
    if !Known(f.world, r) then [0, 0, 0, 0, r]
    else
      var q := f.world.books.requests[r];
      TurnKey(Lookup(f.customerTurn, q.customer))
      + [q.customer, if q.approvedAt.Some? then q.approvedAt.value else q.createdAt, r]
  }

  function ItemFirst(f: Floor): (RequestId, RequestId) -> bool {
    (a: RequestId, b: RequestId) => LexLess(ItemKey(f, a), ItemKey(f, b))
  }

  lemma ItemFirstTotal(f: Floor, s: set<RequestId>)
    ensures TotalOn(s, ItemFirst(f))
  {
    forall a, b | a in s && b in s && ItemKey(f, a) == ItemKey(f, b) ensures a == b {
      assert ItemKey(f, a)[4] == ItemKey(f, b)[4];
    }
    KeyIsTotal(s, (r: RequestId) => ItemKey(f, r), ItemFirst(f));
  }

  /** The one request a group's turn is spent on. */
  function Chosen(f: Floor, items: set<RequestId>): (r: RequestId)
    requires items != {}
    ensures r in items
  {
    ItemFirstTotal(f, items);
    Least(items, ItemFirst(f))
  }

  /** The instants one turn reads the clock at. */
  datatype Clock = Clock(gate: int, instant: int, at: int)

  datatype TurnResult = Fulfilled | Waited | Neither | RolledBack
  datatype TurnOutcome = TurnOutcome(floor: Floor, result: TurnResult)

  /** A request the gate sends to wait, with what it could have drawn. */
  function Waiting(w: World, r: RequestId, instant: int): World
    requires Placed(w) && Known(w, r)
  {
    SetRequest(w, r, w.books.requests[r].(status := WaitingInventory, available := Some(|EligibleFor(w, r, instant)|)))
  }

  function Reopened(w: World, r: RequestId): World
    requires Known(w, r)
  {
    if w.books.requests[r].status == WaitingInventory then SetStatus(w, r, Status.Approved) else w
  }

  function MarkTurn(f: Floor, r: RequestId, at: int): Floor
    requires Placed(f.world) && Known(f.world, r)
  {
    var q := f.world.books.requests[r];
    var when := if q.processedAt.Some? then q.processedAt.value else at;
    var agency := f.world.dist.roster.customers[q.customer].agency;
    f.(customerTurn := f.customerTurn[q.customer := when],
       agencyTurn := if agency.Some? then f.agencyTurn[agency.value := when] else f.agencyTurn)
  }

  /** One turn of the rotation on its chosen request. */
  function Turn(f: Floor, r: RequestId, clock: Clock): TurnOutcome
    requires Placed(f.world) && Known(f.world, r)
  {
    var w := f.world;
    match Gate(w, f.conflicts, r, clock.gate)
    case Block(m) =>
      TurnOutcome(f.(conflicts := m, world := Waiting(w, r, clock.gate)), Waited)
    case Pass(m) =>
      match AllocateRequest(Reopened(w, r), r, clock.instant, clock.at)
      case Raised => TurnOutcome(f, RolledBack)
      case Done(v) =>
        AllocateKeepsPlaced(Reopened(w, r), r, clock.instant, clock.at);
        Settle(f.(conflicts := m, world := v), r, clock.at)
  }

  /** The tally after an allocation has returned. */
  function Settle(f: Floor, r: RequestId, at: int): (t: TurnOutcome)
    requires Placed(f.world) && Known(f.world, r)
    ensures t.floor.conflicts == f.conflicts && t.floor.world == f.world
  {
    if f.world.books.requests[r].status == Generated then TurnOutcome(MarkTurn(f, r, at), Fulfilled)
    else if f.world.books.requests[r].status == WaitingInventory then TurnOutcome(f, Waited)
    else TurnOutcome(f, Neither)
  }

  lemma AllocateKeepsPlaced(w: World, r: RequestId, instant: int, at: int)
    requires Placed(w) && AllocateRequest(w, r, instant, at).Done?
    ensures var v := AllocateRequest(w, r, instant, at).w;
      Placed(v) && |v.books.requests| == |w.books.requests|
  {
  }

  // ---------------------------------------------------------------------
  // What a turn does
  // ---------------------------------------------------------------------

  /** The distribution step of a fulfilled turn. */
  function TurnDraw(f: Floor, r: RequestId, clock: Clock): NoRepeat.Step
    requires Known(f.world, r)
  {
    DistAllocate(f.world, r, clock.instant, clock.at)
  }

  lemma ReopenOk(w: World, r: RequestId)
    requires WorldOk(w) && Rotating(w, r)
    ensures WorldOk(Reopened(w, r)) && EventCount(Reopened(w, r), r) == 0
    ensures Reopened(w, r) == SetStatus(w, r, Status.Approved)
  {
    assert RequestOk(w.books.requests[r], EventCount(w, r), ChargeCount(w, r));
    if w.books.requests[r].status == WaitingInventory {
      StatusOk(w, r, Status.Approved);
    } else {
      assert w.books.requests[r].(status := Status.Approved) == w.books.requests[r];
      SetSame(w, r);
    }
  }

  lemma BlockedTurn(f: Floor, r: RequestId, clock: Clock)
    requires WorldOk(f.world) && Rotating(f.world, r) && Gate(f.world, f.conflicts, r, clock.gate).Block?
    ensures var t := Turn(f, r, clock);
      && t.result == Waited && WorldOk(t.floor.world) && OnlyRow(f.world, t.floor.world, r)
      && t.floor.world.books.requests[r].status == WaitingInventory && t.floor.world.dist == f.world.dist
  {
    WaitOk(f.world, r, |EligibleFor(f.world, r, clock.gate)|);
  }

  /** Reopening and allocating: whole or not at all, and one row either way. */
  lemma ReopenedAllocates(f: Floor, r: RequestId, clock: Clock)
    requires WorldOk(f.world) && Rotating(f.world, r) && clock.instant <= clock.at
    ensures var a := AllocateRequest(Reopened(f.world, r), r, clock.instant, clock.at);
      && a.Done? && WorldOk(a.w) && OnlyRow(f.world, a.w, r)
      && (|| (&& a.w.books.requests[r].status == Generated && NoRepeat.Draws(f.world.dist, TurnDraw(f, r, clock))
              && a.w.dist == NoRepeat.Next(f.world.dist, TurnDraw(f, r, clock)))
          || (a.w.books.requests[r].status == WaitingInventory && a.w.dist == f.world.dist))
  {
    var w := f.world;
    ReopenOk(w, r);
    var v := Reopened(w, r);
    AllocateApproved(v, r, clock.instant, clock.at);
    assert DistAllocate(v, r, clock.instant, clock.at) == TurnDraw(f, r, clock);
    var u := AllocateRequest(v, r, clock.instant, clock.at).w;
    assert v.books.requests[r := u.books.requests[r]] == w.books.requests[r := u.books.requests[r]];
  }

  lemma PassedTurn(f: Floor, r: RequestId, clock: Clock)
    requires WorldOk(f.world) && Rotating(f.world, r) && clock.instant <= clock.at
    requires Gate(f.world, f.conflicts, r, clock.gate).Pass?
    ensures var t := Turn(f, r, clock);
      && t.result in {Fulfilled, Waited} && WorldOk(t.floor.world) && OnlyRow(f.world, t.floor.world, r)
      && (t.result == Fulfilled ==>
            && t.floor.world.books.requests[r].status == Generated
            && NoRepeat.Draws(f.world.dist, TurnDraw(f, r, clock))
            && t.floor.world.dist == NoRepeat.Next(f.world.dist, TurnDraw(f, r, clock)))
      && (t.result == Waited ==>
            t.floor.world.books.requests[r].status == WaitingInventory && t.floor.world.dist == f.world.dist)
  {
    ReopenedAllocates(f, r, clock);
  }

  /** A turn either fulfills its request or leaves it waiting, and touches no other. */
  lemma TurnFacts(f: Floor, r: RequestId, clock: Clock)
    requires WorldOk(f.world) && Rotating(f.world, r) && clock.instant <= clock.at
    ensures var t := Turn(f, r, clock);
      && t.result in {Fulfilled, Waited} && WorldOk(t.floor.world) && OnlyRow(f.world, t.floor.world, r)
      && (t.result == Fulfilled ==>
            && t.floor.world.books.requests[r].status == Generated
            && NoRepeat.Draws(f.world.dist, TurnDraw(f, r, clock))
            && t.floor.world.dist == NoRepeat.Next(f.world.dist, TurnDraw(f, r, clock)))
      && (t.result == Waited ==>
            t.floor.world.books.requests[r].status == WaitingInventory && t.floor.world.dist == f.world.dist)
  {
    if Gate(f.world, f.conflicts, r, clock.gate).Block? {
      BlockedTurn(f, r, clock);
    } else {
      PassedTurn(f, r, clock);
    }
  }

  lemma TurnMovesForward(f: Floor, r: RequestId, clock: Clock)
    requires Placed(f.world) && Known(f.world, r)
    ensures Forward(f.conflicts, Turn(f, r, clock).floor.conflicts)
  {
    var m := Turn(f, r, clock).floor.conflicts;
    assert m == f.conflicts || m == Gate(f.world, f.conflicts, r, clock.gate).conflicts;
    GateMovesForward(f.world, f.conflicts, r, clock.gate);
  }

  function QueuedRow(): Request -> bool {
    (q: Request) => IsQueued(q)
  }

  /** How many requests are still in rotation, active party or not. */
  function OpenCount(f: Floor): nat {
    Count(f.world.books.requests, QueuedRow())
  }

  lemma TurnDropsOpen(f: Floor, r: RequestId, clock: Clock)
    requires WorldOk(f.world) && Rotating(f.world, r) && clock.instant <= clock.at
    ensures var t := Turn(f, r, clock);
      OpenCount(t.floor) == OpenCount(f) - (if t.result == Fulfilled then 1 else 0)
  {
    TurnFacts(f, r, clock);
    var t := Turn(f, r, clock);
    CountUpdate(f.world.books.requests, r, t.floor.world.books.requests[r], QueuedRow());
  }
}
