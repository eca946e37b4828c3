/**
 Which Leads a request may draw, and what drawing them leaves behind
 (jawnix/allocation.py).
 */
module Allocation {
  import opened Basics
  import opened History
  import opened NichePolicy
  import opened SqlLogic

  type LeadId = nat
  type RequestId = nat
  type Phone = nat

  /** Time is counted in seconds. */
  const DAY := 86_400
  const DEACTIVATED_RECIPIENT_HOLD_DAYS := 3

  datatype Lead = Lead(
    phone: Phone,
    state: State,
    inDb1: bool,
    corrected: bool,
    suppressed: bool,
    mappedNiche: Option<string>,
    assignedNiche: Option<string>,
    lastDistributed: Option<int>)

  datatype Exclusion = Exclusion(phones: set<Phone>, everyone: bool, customer: Option<CustomerId>)

  /** One immutable delivery. Legacy rows may lack a Customer, an Agency or both. */
  datatype Event = Event(
    lead: LeadId,
    customer: Option<CustomerId>,
    agency: Option<AgencyId>,
    request: Option<RequestId>,
    deliveredAt: int)

  /** Everything about Leads that is not a delivery. `db2` is the DB2 membership table. */
  datatype Stock = Stock(
    leads: map<LeadId, Lead>,
    db2: map<LeadId, State>,
    held: set<LeadId>,
    exclusions: seq<Exclusion>,
    policies: map<CustomerId, seq<Row>>,
    rules: Rules)

  datatype Dist = Dist(roster: Roster, stock: Stock, events: seq<Event>)

  // ---------------------------------------------------------------------
  // Recipient clauses
  // ---------------------------------------------------------------------

  function ActiveCustomers(r: Roster): set<CustomerId> {
    set c | c in r.customers && r.CustomerActive(c)
  }

  function ActiveAgencies(r: Roster): set<AgencyId> {
    set a | a in r.agencies && r.AgencyActive(a)
  }

  /** `x IN (SELECT id ...)`; the ids are never NULL, `x` may be. */
  function InQuery(x: Option<nat>, ids: set<nat>): Tri {
    if ids == {} then No else if x.None? then Null else Is(x.value in ids)
  }

  /** The `active` clause of `_recipient_status_clauses`. */
  function ActiveClause(r: Roster, e: Event): Tri {
    Or(InQuery(e.customer, ActiveCustomers(r)),
       And(Is(e.customer.None?), InQuery(e.agency, ActiveAgencies(r))))
  }

  /** The `inactive` clause of `_recipient_status_clauses`. */
  function InactiveClause(r: Roster, e: Event): Tri {
    Or(And(Is(e.customer.Some?), Not(InQuery(e.customer, ActiveCustomers(r)))),
       And(Is(e.customer.None?),
           Or(Is(e.agency.None?), Not(InQuery(e.agency, ActiveAgencies(r))))))
  }

  /** Who an event's recipient is, and whether that recipient is active now. */
  predicate RecipientActive(r: Roster, e: Event) {
    if e.customer.Some? then r.CustomerActive(e.customer.value)
    else e.agency.Some? && r.AgencyActive(e.agency.value)
  }

  /** Under NULL logic the two clauses still split every event between them. */
  lemma StatusClausesSplit(r: Roster, e: Event)
    ensures Keeps(ActiveClause(r, e)) <==> RecipientActive(r, e)
    ensures Keeps(InactiveClause(r, e)) <==> !RecipientActive(r, e)
  {
    if e.customer.Some? {
      assert e.customer.value in ActiveCustomers(r) <==> r.CustomerActive(e.customer.value);
    }
    if e.agency.Some? {
      assert e.agency.value in ActiveAgencies(r) <==> r.AgencyActive(e.agency.value);
    }
  }

  /** The negation the comment in the source warns about: NULL, not true. */
  lemma NegatedActiveIsNotInactive(r: Roster, e: Event)
    requires e.customer.None? && e.agency.None? && ActiveCustomers(r) != {}
    ensures Keeps(InactiveClause(r, e)) && !Keeps(Not(ActiveClause(r, e)))
  {
  }

  function MembersOf(r: Roster, a: AgencyId): set<CustomerId> {
    set c | c in r.customers && r.customers[c].agency == Some(a)
  }

  /** `same_recipient` of `_same_recipient_clause`, before the active conjunct. */
  function SameRecipientClause(r: Roster, c: CustomerId, e: Event): Tri
    requires c in r.customers
  {
    var key := r.customers[c].key;
    var permanent := Or(InQuery(e.customer, CustomersHolding(r, {key})), InQuery(e.agency, AgenciesHolding(r, {key})));
    var own := Equals(e.customer, Some(c));
    if r.customers[c].agency.None? then Or(own, permanent)
    else
      var agency := r.customers[c].agency.value;
      Or(Or(Or(own, Equals(e.agency, Some(agency))),
            And(Is(e.agency.None?), InQuery(e.customer, MembersOf(r, agency)))),
         permanent)
  }

  predicate SameRecipient(r: Roster, c: CustomerId, e: Event)
    requires c in r.customers
  {
    var x := r.customers[c];
    || e.customer == Some(c)
    || (e.customer.Some? && e.customer.value in r.customers && r.customers[e.customer.value].key == x.key)
    || (e.agency.Some? && e.agency.value in r.agencies && r.agencies[e.agency.value].key == x.key)
    || (x.agency.Some? && (e.agency == x.agency
                           || (e.agency.None? && e.customer.Some? && e.customer.value in r.customers
                               && r.customers[e.customer.value].agency == x.agency)))
  }

  lemma SameRecipientMeaning(r: Roster, c: CustomerId, e: Event)
    requires c in r.customers
    ensures Keeps(SameRecipientClause(r, c, e)) <==> SameRecipient(r, c, e)
  {
    var key := r.customers[c].key;
    if e.customer.Some? {
      assert e.customer.value in CustomersHolding(r, {key}) <==>
        e.customer.value in r.customers && r.customers[e.customer.value].key == key;
      if r.customers[c].agency.Some? {
        assert e.customer.value in MembersOf(r, r.customers[c].agency.value) <==>
          e.customer.value in r.customers && r.customers[e.customer.value].agency == r.customers[c].agency;
      }
    }
    if e.agency.Some? {
      assert e.agency.value in AgenciesHolding(r, {key}) <==>
        e.agency.value in r.agencies && r.agencies[e.agency.value].key == key;
    }
  }

  // ---------------------------------------------------------------------
  // eligible_query
  // ---------------------------------------------------------------------

  /** `max(1, int(cooldown_window_days or 7))` */
  function CooldownDays(x: Customer): (days: int)
    ensures days >= 1
  {
    var d := if x.cooldownDays == 0 then 7 else x.cooldownDays;
    if d < 1 then 1 else d
  }

  /** The database and state expression a Customer's inventory is read through. */
  function InventoryState(s: Stock, db: Database, l: LeadId): Option<State>
    requires l in s.leads
  {
    match db
    case Db1 => if s.leads[l].inDb1 then Some(s.leads[l].state) else None
    case Db2 =>
      if l !in s.db2 then None
      else if s.leads[l].corrected then Some(s.leads[l].state) else Some(s.db2[l])
  }

  /** Segment mapping wins over a manual assignment, and only DB1 joins the mapping. */
  function EffectiveNiche(lead: Lead, db: Database): Option<string> {
    if db == Db1 && lead.mappedNiche.Some? then lead.mappedNiche else lead.assignedNiche
  }

  predicate Excluded(s: Stock, c: CustomerId, phone: Phone) {
    exists i :: 0 <= i < |s.exclusions| && phone in s.exclusions[i].phones
                && (s.exclusions[i].everyone || s.exclusions[i].customer == Some(c))
  }

  function PolicyOf(s: Stock, c: CustomerId): seq<Row> {
    if c in s.policies then s.policies[c] else []
  }

  /** An event still holds its Lead back from a draw by `x` at `instant`. */
  predicate Holds(r: Roster, x: Customer, e: Event, instant: int) {
    if RecipientActive(r, e) then e.deliveredAt > instant - CooldownDays(x) * DAY
    else e.deliveredAt > instant - DEACTIVATED_RECIPIENT_HOLD_DAYS * DAY
  }

  /** The event scan inside `cooling_down`. */
  predicate EventHolds(d: Dist, c: CustomerId, l: LeadId, instant: int)
    requires c in d.roster.customers
  {
    exists i :: 0 <= i < |d.events| && d.events[i].lead == l
                && Holds(d.roster, d.roster.customers[c], d.events[i], instant)
  }

  function OldestCutoff(x: Customer, instant: int): int {
    var cutoff := instant - CooldownDays(x) * DAY;
    var inactiveCutoff := instant - DEACTIVATED_RECIPIENT_HOLD_DAYS * DAY;
    if cutoff < inactiveCutoff then cutoff else inactiveCutoff
  }

  /** `cooling_down`: the `last_distributed_at` shortcut guards the scan. */
  predicate CoolingDown(d: Dist, c: CustomerId, l: LeadId, instant: int)
    requires c in d.roster.customers && l in d.stock.leads
  {
    && d.stock.leads[l].lastDistributed.Some?
    && d.stock.leads[l].lastDistributed.value > OldestCutoff(d.roster.customers[c], instant)
    && EventHolds(d, c, l, instant)
  }

  predicate PreviouslySent(d: Dist, c: CustomerId, l: LeadId)
    requires c in d.roster.customers
  {
    exists i :: 0 <= i < |d.events| && d.events[i].lead == l
                && RecipientActive(d.roster, d.events[i]) && SameRecipient(d.roster, c, d.events[i])
  }

  /** What the query reads off the Lead itself, deliveries aside. */
  predicate Listed(s: Stock, x: Customer, c: CustomerId, states: set<State>, l: LeadId)
    requires l in s.leads
  {
    var lead := s.leads[l];
    var state := InventoryState(s, x.database, l);
    && state.Some? && state.value in states
    && !lead.suppressed
    && l !in s.held
    && !Excluded(s, c, lead.phone)
    && Keeps(StoredClause(s.rules, PolicyOf(s, c), state.value, EffectiveNiche(lead, x.database)))
  }

  predicate Eligible(d: Dist, c: CustomerId, states: set<State>, instant: int, l: LeadId)
    requires c in d.roster.customers && l in d.stock.leads
  {
    && Listed(d.stock, d.roster.customers[c], c, states, l)
    && !CoolingDown(d, c, l, instant)
    && !PreviouslySent(d, c, l)
  }

  function EligibleSet(d: Dist, c: CustomerId, states: set<State>, instant: int): set<LeadId>
    requires c in d.roster.customers
  {
    set l | l in d.stock.leads && Eligible(d, c, states, instant, l)
  }

  // ---------------------------------------------------------------------
  // Selection: never distributed first, then longest ago, then id
  // ---------------------------------------------------------------------

  predicate Before(leads: map<LeadId, Lead>, a: LeadId, b: LeadId)
    requires a in leads && b in leads
  {
    var x, y := leads[a].lastDistributed, leads[b].lastDistributed;
    if x.None? && y.None? then a < b
    else if x.None? then true
    else if y.None? then false
    else x.value < y.value || (x.value == y.value && a < b)
  }

  ghost predicate IsFirst(leads: map<LeadId, Lead>, s: set<LeadId>, l: LeadId)
    requires s <= leads.Keys
  {
    l in s && forall m :: m in s && m != l ==> Before(leads, l, m)
  }

  lemma {:induction false} FirstExists(leads: map<LeadId, Lead>, s: set<LeadId>)
    requires s != {} && s <= leads.Keys
    ensures exists l :: IsFirst(leads, s, l)
  {
    var l :| l in s;
    var rest := s - {l};
    if rest == {} {
      assert s == {l};
      assert IsFirst(leads, s, l);
    } else {
      FirstExists(leads, rest);
      var m :| IsFirst(leads, rest, m);
      var first := if Before(leads, l, m) then l else m;
      forall x | x in s && x != first ensures Before(leads, first, x) {
        assert x == l || x in rest;
      }
      assert IsFirst(leads, s, first);
    }
  }

  function First(leads: map<LeadId, Lead>, s: set<LeadId>): (l: LeadId)
    requires s != {} && s <= leads.Keys
    ensures IsFirst(leads, s, l)
  {
    FirstExists(leads, s);
    var l :| l in s && forall m :: m in s && m != l ==> Before(leads, l, m);
    l
  }

  /** ORDER BY ... LIMIT n over the eligible Leads. */
  function Pick(leads: map<LeadId, Lead>, s: set<LeadId>, n: nat): (ls: seq<LeadId>)
    requires s <= leads.Keys
    ensures forall l :: l in ls ==> l in s
    decreases n
  {
    if n == 0 || s == {} then []
    else [First(leads, s)] + Pick(leads, s - {First(leads, s)}, n - 1)
  }

  ghost predicate NoDuplicates(ls: seq<LeadId>) {
    forall i, j :: 0 <= i < j < |ls| ==> ls[i] != ls[j]
  }

  /** The limit is met when enough Leads qualify, without repeats, oldest first, nothing older skipped. */
  lemma {:induction false} PickFacts(leads: map<LeadId, Lead>, s: set<LeadId>, n: nat)
    requires s <= leads.Keys
    ensures var ls := Pick(leads, s, n);
      && |ls| == (if n <= |s| then n else |s|)
      && NoDuplicates(ls)
      && (forall i, j :: 0 <= i < j < |ls| ==> Before(leads, ls[i], ls[j]))
      && (forall l, m :: l in ls && m in s && m !in ls ==> Before(leads, l, m))
    decreases n
  {
    if n > 0 && s != {} {
      var first := First(leads, s);
      var rest := s - {first};
      PickFacts(leads, rest, n - 1);
      var tail := Pick(leads, rest, n - 1);
      var ls := [first] + tail;
      assert |s| == |rest| + 1;
      forall i, j | 0 <= i < j < |ls| ensures ls[i] != ls[j] && Before(leads, ls[i], ls[j]) {
        assert ls[j] == tail[j - 1] && tail[j - 1] in tail;
        if i > 0 {
          assert ls[i] == tail[i - 1];
        }
      }
    }
  }

  // ---------------------------------------------------------------------
  // Committing a batch
  // ---------------------------------------------------------------------

  function NewEvent(r: Roster, c: CustomerId, req: RequestId, at: int, l: LeadId): Event
    requires c in r.customers
  {
    Event(l, Some(c), r.customers[c].agency, Some(req), at)
  }

  function Batch(r: Roster, c: CustomerId, req: RequestId, at: int, ls: seq<LeadId>): (es: seq<Event>)
    requires c in r.customers
    ensures |es| == |ls|
    ensures forall i :: 0 <= i < |ls| ==> es[i] == NewEvent(r, c, req, at, ls[i])
  {
    seq(|ls|, i requires 0 <= i < |ls| => NewEvent(r, c, req, at, ls[i]))
  }

  function Stamped(leads: map<LeadId, Lead>, ls: seq<LeadId>, at: int): map<LeadId, Lead> {
    map l | l in leads :: if l in ls then leads[l].(lastDistributed := Some(at)) else leads[l]
  }

  function Delivered(d: Dist, c: CustomerId, req: RequestId, at: int, ls: seq<LeadId>): Dist
    requires c in d.roster.customers
  {
    d.(stock := d.stock.(leads := Stamped(d.stock.leads, ls, at)),
       events := d.events + Batch(d.roster, c, req, at, ls))
  }

  /** The Leads an allocation selects, or fewer than `n` of them when inventory is short. */
  function Candidates(d: Dist, c: CustomerId, states: set<State>, n: nat, instant: int): seq<LeadId>
    requires c in d.roster.customers
  {
    Pick(d.stock.leads, EligibleSet(d, c, states, instant), n)
  }

  /** All or nothing: a short selection leaves everything as it was. */
  function Allocated(d: Dist, c: CustomerId, states: set<State>, n: nat, req: RequestId, instant: int, at: int): Dist
    requires c in d.roster.customers
  {
    var ls := Candidates(d, c, states, n, instant);
    if |ls| < n then d else Delivered(d, c, req, at, ls)
  }

  /** The Lead and event rows as the allocator's loop writes them. */
  class Rows {
    var leads: map<LeadId, Lead>
    var events: seq<Event>

    constructor (d: Dist)
      ensures leads == d.stock.leads && events == d.events
    {
      leads, events := d.stock.leads, d.events;
    }

    method Commit(r: Roster, c: CustomerId, req: RequestId, at: int, ls: seq<LeadId>)
      requires c in r.customers && (forall l :: l in ls ==> l in leads)
      modifies this
      ensures leads == Stamped(old(leads), ls, at)
      ensures events == old(events) + Batch(r, c, req, at, ls)
    {
      ghost var before := leads;
      assert events == old(events) + Batch(r, c, req, at, ls)[..0];
      for i := 0 to |ls|
        invariant leads == Stamped(before, ls[..i], at)
        invariant events == old(events) + Batch(r, c, req, at, ls)[..i]
      {
        var l := ls[i];
        assert ls[..i + 1] == ls[..i] + [l];
        leads := leads[l := leads[l].(lastDistributed := Some(at))];
        events := events + [NewEvent(r, c, req, at, l)];
      }
      assert ls[..|ls|] == ls;
    }
  }
}
