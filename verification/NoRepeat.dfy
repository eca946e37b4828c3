/**
 The distribution state over whole runs: roster changes, stock changes and
 allocations in any order (jawnix/allocation.py with jawnix/agency_management.py).
 */
module NoRepeat {
  import opened Basics
  import opened History
  import opened NichePolicy
  import opened Allocation

  datatype Step =
    | NewCustomer(c: CustomerId, customer: Customer)
    | NewAgency(a: AgencyId, agency: Agency)
    | Assign(c: CustomerId, dest: Option<AgencyId>)
    | SetCustomer(c: CustomerId, active: bool, deleted: bool, cooldownDays: int, database: Database)
    | SetAgency(a: AgencyId, active: bool, deleted: bool)
    | Restock(stock: Stock)
    | Allocate(c: CustomerId, states: set<State>, count: nat, request: RequestId, instant: int, at: int)

  /** Inventory work adds and edits Leads; it neither deletes one nor touches its last delivery. */
  ghost predicate KeepsLeads(s: Stock, t: Stock) {
    && (forall l :: l in s.leads ==> l in t.leads && t.leads[l].lastDistributed == s.leads[l].lastDistributed)
    && (forall l :: l in t.leads && l !in s.leads ==> t.leads[l].lastDistributed.None?)
  }

  /** What the database and the callers guarantee of a step. */
  ghost predicate Enabled(d: Dist, step: Step) {
    match step
    case NewCustomer(c, x) => c !in d.roster.customers && x.agency.None?
    case NewAgency(a, x) => a !in d.roster.agencies
    case Assign(c, dest) => c in d.roster.customers && (dest.Some? ==> dest.value in d.roster.agencies)
    case SetCustomer(c, _, _, _, _) => c in d.roster.customers
    case SetAgency(a, _, _) => a in d.roster.agencies
    case Restock(t) => KeepsLeads(d.stock, t)
    case Allocate(c, _, _, _, instant, at) => c in d.roster.customers && instant <= at
  }

  ghost function Next(d: Dist, step: Step): Dist
    requires d.roster.Valid() && Enabled(d, step)
  {
    match step
    case NewCustomer(c, x) => d.(roster := d.roster.(customers := d.roster.customers[c := x]))
    case NewAgency(a, x) => d.(roster := d.roster.(agencies := d.roster.agencies[a := x]))
    case Assign(c, dest) =>
      if dest.Some? && !d.roster.AgencyActive(dest.value) then d
      else d.(roster := Assigned(d.roster, c, dest))
    case SetCustomer(c, active, deleted, days, db) =>
      d.(roster := d.roster.(customers := d.roster.customers[
        c := d.roster.customers[c].(active := active, deleted := deleted, cooldownDays := days, database := db)]))
    case SetAgency(a, active, deleted) =>
      d.(roster := d.roster.(agencies := d.roster.agencies[
        a := d.roster.agencies[a].(active := active, deleted := deleted)]))
    case Restock(t) => d.(stock := t)
    case Allocate(c, states, n, req, instant, at) => Allocated(d, c, states, n, req, instant, at)
  }

  // ---------------------------------------------------------------------
  // The invariant
  // ---------------------------------------------------------------------

  /** `last_distributed_at` bounds the time of every delivery of its Lead. */
  ghost predicate LastBounds(d: Dist) {
    forall i :: 0 <= i < |d.events| ==>
      && d.events[i].lead in d.stock.leads
      && d.stock.leads[d.events[i].lead].lastDistributed.Some?
      && d.events[i].deliveredAt <= d.stock.leads[d.events[i].lead].lastDistributed.value
  }

  /** An event names existing parties, and if both then ones that share history. */
  ghost predicate EventAligned(r: Roster, e: Event) {
    && (e.customer.Some? ==> e.customer.value in r.customers)
    && (e.agency.Some? ==> e.agency.value in r.agencies)
    && (e.customer.Some? && e.agency.Some? ==>
          SameHistory(r, OfCustomer(e.customer.value), OfAgency(e.agency.value)))
  }

  ghost predicate EventsAligned(d: Dist) {
    forall i :: 0 <= i < |d.events| ==> EventAligned(d.roster, d.events[i])
  }

  ghost predicate DistOk(d: Dist) {
    d.roster.Valid() && Aligned(d.roster) && EventsAligned(d) && LastBounds(d)
  }

  lemma EmptyOk(rules: Rules)
    ensures DistOk(Dist(Roster(map[], map[]), Stock(map[], map[], {}, [], map[], rules), []))
  {
  }

  /** No step takes shared history away from two holders. */
  lemma StepNeverSplits(d: Dist, step: Step, x: Holder, y: Holder)
    requires d.roster.Valid() && Enabled(d, step) && SameHistory(d.roster, x, y)
    ensures SameHistory(Next(d, step).roster, x, y)
  {
    if step.Assign? {
      AssignNeverSplits(d.roster, step.c, step.dest, x, y);
    }
  }

  lemma StepKeepsRoster(d: Dist, step: Step)
    requires d.roster.Valid() && Aligned(d.roster) && Enabled(d, step)
    ensures Next(d, step).roster.Valid() && Aligned(Next(d, step).roster)
    ensures d.roster.customers.Keys <= Next(d, step).roster.customers.Keys
    ensures d.roster.agencies.Keys <= Next(d, step).roster.agencies.Keys
  {
    if step.Assign? {
      AssignKeepsAligned(d.roster, step.c, step.dest);
    }
  }

  lemma StepKeepsEventAligned(d: Dist, step: Step, e: Event)
    requires d.roster.Valid() && Aligned(d.roster) && Enabled(d, step) && EventAligned(d.roster, e)
    ensures EventAligned(Next(d, step).roster, e)
  {
    StepKeepsRoster(d, step);
    if e.customer.Some? && e.agency.Some? {
      StepNeverSplits(d, step, OfCustomer(e.customer.value), OfAgency(e.agency.value));
    }
  }

  // ---------------------------------------------------------------------
  // What an allocation draws
  // ---------------------------------------------------------------------

  /** The step is an allocation that found enough inventory. */
  ghost predicate Draws(d: Dist, step: Step) {
    step.Allocate? && Enabled(d, step)
    && |Candidates(d, step.c, step.states, step.count, step.instant)| >= step.count
  }

  ghost function Drawn(d: Dist, step: Step): seq<LeadId>
    requires Draws(d, step)
  {
    Candidates(d, step.c, step.states, step.count, step.instant)
  }

  lemma DrawnFacts(d: Dist, step: Step)
    requires Draws(d, step)
    ensures |Drawn(d, step)| == step.count && NoDuplicates(Drawn(d, step))
    ensures forall l :: l in Drawn(d, step) ==> l in d.stock.leads && Eligible(d, step.c, step.states, step.instant, l)
  {
    PickFacts(d.stock.leads, EligibleSet(d, step.c, step.states, step.instant), step.count);
  }

  /** The shortcut never changes the answer of the event scan. */
  lemma ShortcutExact(d: Dist, c: CustomerId, l: LeadId, instant: int)
    requires LastBounds(d) && c in d.roster.customers && l in d.stock.leads
    ensures CoolingDown(d, c, l, instant) <==> EventHolds(d, c, l, instant)
  {
  }

  /**
   A delivery of a Lead comes at least the drawing Customer's cooldown after an
   earlier one whose recipient is active now, and three days after any other.
   */
  lemma DrawSpacing(d: Dist, step: Step, l: LeadId, i: nat)
    requires DistOk(d) && Draws(d, step) && l in Drawn(d, step)
    requires i < |d.events| && d.events[i].lead == l
    ensures RecipientActive(d.roster, d.events[i]) ==>
      step.at - d.events[i].deliveredAt >= CooldownDays(d.roster.customers[step.c]) * DAY
    ensures !RecipientActive(d.roster, d.events[i]) ==>
      step.at - d.events[i].deliveredAt >= DEACTIVATED_RECIPIENT_HOLD_DAYS * DAY
    ensures step.at - d.events[i].deliveredAt >= DAY
  {
    DrawnFacts(d, step);
    ShortcutExact(d, step.c, l, step.instant);
    assert !Holds(d.roster, d.roster.customers[step.c], d.events[i], step.instant);
  }

  lemma StepKeepsLastBounds(d: Dist, step: Step)
    requires DistOk(d) && Enabled(d, step)
    ensures LastBounds(Next(d, step))
  {
    if Draws(d, step) {
      var ls, t := Drawn(d, step), Next(d, step);
      DrawnFacts(d, step);
      forall i | 0 <= i < |t.events|
        ensures t.events[i].lead in t.stock.leads
             && t.stock.leads[t.events[i].lead].lastDistributed.Some?
             && t.events[i].deliveredAt <= t.stock.leads[t.events[i].lead].lastDistributed.value
      {
        if i < |d.events| {
          assert t.events[i] == d.events[i];
          if d.events[i].lead in ls {
            DrawSpacing(d, step, d.events[i].lead, i);
          }
        } else {
          assert t.events[i] == NewEvent(d.roster, step.c, step.request, step.at, ls[i - |d.events|]);
          assert ls[i - |d.events|] in ls;
        }
      }
    }
  }

  lemma StepKeepsEventsAligned(d: Dist, step: Step)
    requires DistOk(d) && Enabled(d, step)
    ensures EventsAligned(Next(d, step))
  {
    var t := Next(d, step);
    forall i | 0 <= i < |t.events| ensures EventAligned(t.roster, t.events[i]) {
      if i < |d.events| {
        assert t.events[i] == d.events[i];
        StepKeepsEventAligned(d, step, d.events[i]);
      } else {
        assert Draws(d, step);
        assert t.events[i] == NewEvent(d.roster, step.c, step.request, step.at, Drawn(d, step)[i - |d.events|]);
      }
    }
  }

  lemma StepKeepsOk(d: Dist, step: Step)
    requires DistOk(d) && Enabled(d, step)
    ensures DistOk(Next(d, step))
  {
    StepKeepsRoster(d, step);
    StepKeepsLastBounds(d, step);
    StepKeepsEventsAligned(d, step);
  }

  // ---------------------------------------------------------------------
  // One-step recipient test and transitive history
  // ---------------------------------------------------------------------

  /** In an aligned roster the allocator's one-step test is the transitive closure. */
  lemma OneStepIsClosure(d: Dist, c: CustomerId, i: nat)
    requires DistOk(d) && c in d.roster.customers && i < |d.events| && d.events[i].customer.Some?
    ensures SameRecipient(d.roster, c, d.events[i]) <==>
      d.events[i].customer.value in CustomersHolding(d.roster, Closure(d.roster, SourceKeys(d.roster, c)))
  {
    var r, e := d.roster, d.events[i];
    assert EventAligned(r, e);
    AlignedClosure(r, SourceKeys(r, c));
    assert SourceKeys(r, c) == {r.customers[c].key};
  }

  /** The requester's own deliveries block it exactly while it is active. */
  lemma OwnDeliveryBlocks(d: Dist, c: CustomerId, e: Event)
    requires c in d.roster.customers && e.customer == Some(c)
    ensures RecipientActive(d.roster, e) && SameRecipient(d.roster, c, e) <==> d.roster.CustomerActive(c)
  {
  }

  /** A Lead an active party to the requester's history has received is not drawn. */
  lemma DrawAvoidsHistory(d: Dist, step: Step, l: LeadId, o: CustomerId, i: nat)
    requires DistOk(d) && Draws(d, step) && l in Drawn(d, step)
    requires SameHistory(d.roster, OfCustomer(step.c), OfCustomer(o))
    requires i < |d.events| && d.events[i].lead == l && d.events[i].customer == Some(o)
    ensures !d.roster.CustomerActive(o)
  {
    DrawnFacts(d, step);
    assert !PreviouslySent(d, step.c, l);
    assert SameRecipient(d.roster, step.c, d.events[i]);
  }

  // ---------------------------------------------------------------------
  // Whole runs
  // ---------------------------------------------------------------------

  datatype Run = Run(states: seq<Dist>, steps: seq<Step>)

  ghost predicate IsRun(run: Run) {
    && |run.states| == |run.steps| + 1
    && DistOk(run.states[0])
    && forall i :: 0 <= i < |run.steps| ==> IsStep(run, i)
  }

  ghost predicate IsStep(run: Run, i: int)
    requires |run.states| == |run.steps| + 1 && 0 <= i < |run.steps|
  {
    && run.states[i].roster.Valid()
    && Enabled(run.states[i], run.steps[i])
    && run.states[i + 1] == Next(run.states[i], run.steps[i])
  }

  lemma {:induction false} RunKeepsOk(run: Run, i: nat)
    requires IsRun(run) && i < |run.states|
    ensures DistOk(run.states[i])
  {
    if i > 0 {
      RunKeepsOk(run, i - 1);
      assert IsStep(run, i - 1);
      StepKeepsOk(run.states[i - 1], run.steps[i - 1]);
    }
  }

  lemma {:induction false} RunNeverSplits(run: Run, i: nat, j: nat, x: Holder, y: Holder)
    requires IsRun(run) && i <= j < |run.states| && SameHistory(run.states[i].roster, x, y)
    ensures SameHistory(run.states[j].roster, x, y)
    decreases j - i
  {
    if i < j {
      RunNeverSplits(run, i, j - 1, x, y);
      assert IsStep(run, j - 1);
      StepNeverSplits(run.states[j - 1], run.steps[j - 1], x, y);
    }
  }

  /**
   Once two Customers have shared a history key, at whatever point of the run,
   no later allocation gives one a Lead the other holds while the other is active.
   */
  lemma SharedHistoryNeverRepeats(run: Run, i: nat, j: nat, c: CustomerId, o: CustomerId, l: LeadId, k: nat)
    requires IsRun(run) && i <= j < |run.steps|
    requires SameHistory(run.states[i].roster, OfCustomer(c), OfCustomer(o))
    requires Draws(run.states[j], run.steps[j]) && run.steps[j].c == c && l in Drawn(run.states[j], run.steps[j])
    requires k < |run.states[j].events| && run.states[j].events[k].lead == l
    requires run.states[j].events[k].customer == Some(o)
    ensures !run.states[j].roster.CustomerActive(o)
  {
    RunKeepsOk(run, j);
    RunNeverSplits(run, i, j, OfCustomer(c), OfCustomer(o));
    DrawAvoidsHistory(run.states[j], run.steps[j], l, o, k);
  }

  /** No two events give one Lead to one Customer. */
  ghost predicate NoLeadTwice(events: seq<Event>) {
    forall i, j :: 0 <= i < j < |events| && events[i].lead == events[j].lead && events[i].customer.Some? ==>
      events[i].customer != events[j].customer
  }

  /** Deliveries of one Lead are at least a day apart, in the order they were made. */
  ghost predicate DaysApart(events: seq<Event>) {
    forall i, j :: 0 <= i < j < |events| && events[i].lead == events[j].lead ==>
      events[j].deliveredAt - events[i].deliveredAt >= DAY
  }

  lemma StepKeepsNoLeadTwice(d: Dist, step: Step)
    requires DistOk(d) && Enabled(d, step) && NoLeadTwice(d.events)
    requires step.Allocate? ==> d.roster.CustomerActive(step.c)
    ensures NoLeadTwice(Next(d, step).events)
  {
    if Draws(d, step) {
      var ls, t := Drawn(d, step), Next(d, step);
      DrawnFacts(d, step);
      forall i, j | 0 <= i < j < |t.events| && t.events[i].lead == t.events[j].lead && t.events[i].customer.Some?
        ensures t.events[i].customer != t.events[j].customer
      {
        if j >= |d.events| {
          var l := ls[j - |d.events|];
          assert t.events[j] == NewEvent(d.roster, step.c, step.request, step.at, l);
          if i < |d.events| {
            if t.events[i].customer == Some(step.c) {
              DrawAvoidsHistory(d, step, l, step.c, i);
            }
          }
        }
      }
    }
  }

  lemma NewIsLater(d: Dist, step: Step, i: nat, j: nat)
    requires DistOk(d) && Enabled(d, step) && Draws(d, step) && i < j && |d.events| <= j < |Next(d, step).events|
    requires Next(d, step).events[i].lead == Next(d, step).events[j].lead
    ensures Next(d, step).events[j].deliveredAt - Next(d, step).events[i].deliveredAt >= DAY
  {
    DrawnFacts(d, step);
    var ls, t := Drawn(d, step), Next(d, step);
    var l := ls[j - |d.events|];
    assert t.events[j] == NewEvent(d.roster, step.c, step.request, step.at, l);
    if i < |d.events| {
      DrawSpacing(d, step, l, i);
    }
  }

  lemma StepKeepsDaysApart(d: Dist, step: Step)
    requires DistOk(d) && Enabled(d, step) && DaysApart(d.events)
    ensures DaysApart(Next(d, step).events)
  {
    if Draws(d, step) {
      var ls, t := Drawn(d, step), Next(d, step);
      DrawnFacts(d, step);
      forall i, j | 0 <= i < j < |t.events| && t.events[i].lead == t.events[j].lead
        ensures t.events[j].deliveredAt - t.events[i].deliveredAt >= DAY
      {
        if j >= |d.events| {
          NewIsLater(d, step, i, j);
        } else {
          assert t.events[i] == d.events[i] && t.events[j] == d.events[j];
        }
      }
    }
  }

  /** Over every run, deliveries of one Lead to anyone are at least a day apart. */
  lemma {:induction false} RunKeepsDaysApart(run: Run, i: nat)
    requires IsRun(run) && i < |run.states| && DaysApart(run.states[0].events)
    ensures DaysApart(run.states[i].events)
  {
    if i > 0 {
      RunKeepsDaysApart(run, i - 1);
      RunKeepsOk(run, i - 1);
      assert IsStep(run, i - 1);
      StepKeepsDaysApart(run.states[i - 1], run.steps[i - 1]);
    }
  }

  /** Every allocation of the run is to a Customer active at that moment. */
  ghost predicate OnlyActiveDraws(run: Run)
    requires IsRun(run)
  {
    forall i :: 0 <= i < |run.steps| && run.steps[i].Allocate? ==>
      run.states[i].roster.CustomerActive(run.steps[i].c)
  }

  /** Over every such run no Customer receives the same Lead twice. */
  lemma {:induction false} RunKeepsNoLeadTwice(run: Run, i: nat)
    requires IsRun(run) && i < |run.states| && OnlyActiveDraws(run)
    requires NoLeadTwice(run.states[0].events)
    ensures NoLeadTwice(run.states[i].events)
  {
    if i > 0 {
      RunKeepsNoLeadTwice(run, i - 1);
      RunKeepsOk(run, i - 1);
      assert IsStep(run, i - 1);
      StepKeepsNoLeadTwice(run.states[i - 1], run.steps[i - 1]);
    }
  }

  // ---------------------------------------------------------------------
  // An allocation that does not check its Customer can repeat
  // ---------------------------------------------------------------------

  /** One Lead, listed in Texas in both databases, that the Customer received at time 0. */
  function ReceivedOnce(r: Roster, c: CustomerId): Dist {
    var lead := Lead(5, "TX", true, false, false, None, None, Some(0));
    Dist(r, Stock(map[0 := lead], map[0 := "TX"], {}, [], map[], SharpRules()), [Event(0, Some(c), None, Some(0), 0)])
  }

  function DrawAgain(c: CustomerId): Step {
    Allocate(c, {"TX"}, 1, 1, 3 * DAY, 3 * DAY)
  }

  lemma ReceivedOnceEligible(r: Roster, c: CustomerId)
    requires c in r.customers && !r.CustomerActive(c)
    ensures Candidates(ReceivedOnce(r, c), c, {"TX"}, 1, 3 * DAY) == [0]
  {
    var d := ReceivedOnce(r, c);
    assert !RecipientActive(r, d.events[0]);
    StoredMeansAllows(d.stock.rules, [], "TX", None);
    assert Eligible(d, c, {"TX"}, 3 * DAY, 0);
    assert EligibleSet(d, c, {"TX"}, 3 * DAY) == {0};
    PickFacts(d.stock.leads, {0}, 1);
    var ls := Candidates(d, c, {"TX"}, 1, 3 * DAY);
    assert |ls| == 1 && ls[0] in ls;
  }

  /**
   `allocate_request` itself does not look at the Customer's status: drawing for
   an inactive Customer, whichever it is, delivers a Lead it already has.
   */
  lemma InactiveDrawRepeats(r: Roster, c: CustomerId)
    requires r.Valid() && Aligned(r) && c in r.customers && !r.CustomerActive(c)
    ensures var d := ReceivedOnce(r, c);
      && DistOk(d) && Enabled(d, DrawAgain(c)) && NoLeadTwice(d.events)
      && !NoLeadTwice(Next(d, DrawAgain(c)).events)
  {
    var d := ReceivedOnce(r, c);
    ReceivedOnceEligible(r, c);
    var t := Next(d, DrawAgain(c));
    assert t == Delivered(d, c, 1, 3 * DAY, [0]);
    assert t.events[0] == d.events[0] && t.events[1] == NewEvent(r, c, 1, 3 * DAY, 0);
    assert t.events[0].lead == t.events[1].lead && t.events[0].customer == t.events[1].customer;
  }

  /** Whatever the inventory and the deliveries so far, no draw for `c` repeats a Lead to a Customer. */
  ghost predicate NeverRepeats(r: Roster, c: CustomerId) {
    forall d: Dist, step: Step ::
      d.roster == r && DistOk(d) && Enabled(d, step) && step.Allocate? && step.c == c && NoLeadTwice(d.events) ==>
        NoLeadTwice(Next(d, step).events)
  }

  /** Exactly the draws for active Customers are free of repeats. */
  lemma DrawsAreFreshIff(r: Roster, c: CustomerId)
    requires r.Valid() && Aligned(r) && c in r.customers
    ensures NeverRepeats(r, c) <==> r.CustomerActive(c)
  {
    if r.CustomerActive(c) {
      forall d: Dist, step: Step |
        d.roster == r && DistOk(d) && Enabled(d, step) && step.Allocate? && step.c == c && NoLeadTwice(d.events)
        ensures NoLeadTwice(Next(d, step).events)
      {
        StepKeepsNoLeadTwice(d, step);
      }
    } else {
      InactiveDrawRepeats(r, c);
    }
  }
}
