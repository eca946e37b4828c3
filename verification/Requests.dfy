/**
 The Batch Request machine: submission, decisions, allocation, failure and
 delivery (jawnix/customer_requests.py, transitions.py, fulfillment.py,
 allocation.py, worker.py), with the wallet and the distribution history
 moving in the same transactions.
 */
module Requests {
  import opened Basics
  import opened History
  import opened NichePolicy
  import opened Allocation
  import opened Billing
  import NoRepeat

  datatype World = World(dist: Dist, books: Books, terms: map<CustomerId, Terms>)

  const MINIMUM_LEAD_COUNT := 1
  const MAXIMUM_LEAD_COUNT := 100_000

  function EventCount(w: World, r: RequestId): nat {
    Count(w.dist.events, ForRequest(r))
  }

  function ChargeCount(w: World, r: RequestId): nat {
    Count(w.books.ledger, ChargeOf(r))
  }

  function SetRequest(w: World, r: RequestId, q: Request): World
    requires r < |w.books.requests|
  {
    w.(books := w.books.(requests := w.books.requests[r := q]))
  }

  function SetStatus(w: World, r: RequestId, status: Status): World
    requires r < |w.books.requests|
  {
    SetRequest(w, r, w.books.requests[r].(status := status))
  }

  function ReleaseHold(w: World, r: RequestId): World
    requires r < |w.books.requests|
  {
    w.(books := Release(w.books, r))
  }

  // ---------------------------------------------------------------------
  // The action table (fulfillment.py)
  // ---------------------------------------------------------------------

  datatype Action = Approve | Retry | RetryDelivery | Regenerate | Reject | Cancel

  datatype Context = Context(
    status: Status, hasArtifact: bool, artifactAvailable: bool, committed: nat, complete: bool)

  function FromStatuses(a: Action): set<Status> {
    match a
    case Approve => {Pending}
    case Retry => {WaitingInventory, Failed}
    case RetryDelivery => {Failed}
    case Regenerate => {}
    case Reject => {Pending, WaitingInventory}
    case Cancel => {Pending, Approved, WaitingInventory}
  }

  predicate Precondition(a: Action, ctx: Context) {
    match a
    case Approve => true
    case Retry => !ctx.hasArtifact
    case RetryDelivery => ctx.hasArtifact
    case Regenerate => ctx.hasArtifact && !ctx.artifactAvailable && ctx.complete
    case Reject => true
    case Cancel => ctx.committed == 0
  }

  /** `_is_offered` */
  predicate Offered(a: Action, ctx: Context) {
    (FromStatuses(a) != {} ==> ctx.status in FromStatuses(a)) && Precondition(a, ctx)
  }

  /** The context `transition_request` judges by. */
  function TransitionContext(w: World, r: RequestId): Context
    requires r < |w.books.requests|
  {
    Context(w.books.requests[r].status, w.books.requests[r].artifact, false, EventCount(w, r), false)
  }

  /**
   What any surface may know of a request: `transition_request` leaves the file and completeness
   at their defaults, the screens fill them in.
   */
  ghost predicate ContextOf(w: World, r: RequestId, ctx: Context)
    requires r < |w.books.requests|
  {
    && ctx.status == w.books.requests[r].status && ctx.hasArtifact == w.books.requests[r].artifact
    && ctx.committed == EventCount(w, r)
    && (ctx.complete ==> EventCount(w, r) == w.books.requests[r].count)
  }

  const CANCELABLE: set<Status> := {Pending, Approved, WaitingInventory}

  // ---------------------------------------------------------------------
  // Steps. A refusal leaves the world as it was.
  // ---------------------------------------------------------------------

  datatype Step =
    | DistStep(step: NoRepeat.Step)
    | SetTerms(c: CustomerId, terms: Terms)
    | Submit(c: CustomerId, count: nat, states: set<State>, licensed: set<State>, expected: Option<nat>, at: int,
             key: Option<nat>)
    | Decide(r: RequestId, action: Action, at: int)
    | Withdraw(r: RequestId)
    | NarrowStates(r: RequestId, proposed: set<State>)
    | Allocate(r: RequestId, instant: int, at: int)
    | AllocationFailed(r: RequestId)
    | DeliverySent(r: RequestId)
    | DeliveryFailed(r: RequestId)
    | GateBlocked(r: RequestId, available: nat)
    | Reopen(r: RequestId)
    | AdjustWallet(c: CustomerId, amount: int, reasonGiven: bool)
    | CreditPurchase(c: CustomerId, amount: int)

  predicate Known(w: World, r: RequestId) {
    r < |w.books.requests|
  }

  function SubmissionIndex(requests: seq<Request>, key: Option<nat>): Option<nat> {
    if key.None? || requests == [] then None
    else if requests[|requests| - 1].submission == key then Some(|requests| - 1)
    else SubmissionIndex(requests[..|requests| - 1], key)
  }

  predicate PartyActive(r: Roster, c: CustomerId) {
    r.CustomerActive(c)
    && (r.customers[c].agency.Some? ==> r.AgencyActive(r.customers[c].agency.value))
  }

  function NewRequest(c: CustomerId, count: nat, states: set<State>, at: int, key: Option<nat>, quote: Quote): Request
    requires !quote.Unquoted?
  {
    var amount := if quote.Billed? then quote.amount else 0;
    Request(c, count, states, Pending, at, None, None, None, false, quote.Billed?, amount,
            if quote.Billed? then Some(Hold(amount, Active)) else None, key)
  }

  /** `submit_request` */
  function Submitted(w: World, c: CustomerId, count: nat, states: set<State>, licensed: set<State>,
                     expected: Option<nat>, at: int, key: Option<nat>): World
  {
    if SubmissionIndex(w.books.requests, key).Some? then w
    else if !(MINIMUM_LEAD_COUNT <= count <= MAXIMUM_LEAD_COUNT) || licensed == {} || !(states <= licensed) then w
    else if !PartyActive(w.dist.roster, c) then w
    else
      var quote := Prepare(w.books, w.dist.roster, w.terms, c, count, expected);
      if quote.Unquoted? then w
      else w.(books := w.books.(requests := w.books.requests + [NewRequest(c, count, states, at, key, quote)]))
  }

  /** `transition_request` */
  function Decided(w: World, r: RequestId, action: Action, at: int): World {
    if !Known(w, r) || !Offered(action, TransitionContext(w, r)) then w
    else
      var q := w.books.requests[r];
      match action
      case Approve => SetRequest(w, r, q.(status := Status.Approved, approvedAt := Some(at)))
      case Retry =>
        (match Reinstate(w.books, r)
         case Denied(_) => w
         case Posted(b) => SetStatus(w.(books := b), r, Status.Approved))
      case RetryDelivery => SetStatus(w, r, Generated)
      case Regenerate => w
      case Reject => ReleaseHold(SetStatus(w, r, Rejected), r)
      case Cancel => ReleaseHold(SetStatus(w, r, Canceled), r)
  }

  /** `cancel_request` */
  function Withdrawn(w: World, r: RequestId): World {
    if !Known(w, r) || w.books.requests[r].status !in CANCELABLE then w
    else ReleaseHold(SetStatus(w, r, Canceled), r)
  }

  /** A Licensed State change on one open request (licensed_states.py). */
  function Narrowed(w: World, r: RequestId, proposed: set<State>): World {
    if !Known(w, r) || w.books.requests[r].status !in CANCELABLE || w.books.requests[r].states <= proposed then w
    else
      var left := w.books.requests[r].states * proposed;
      var narrowed := SetRequest(w, r, w.books.requests[r].(states := left));
      if left != {} then narrowed else ReleaseHold(SetStatus(narrowed, r, Canceled), r)
  }

  datatype Attempt = Raised | Done(w: World)

  function Finish(w: World, r: RequestId): Attempt
    requires r < |w.books.requests|
  {
    match Capture(w.books, r)
    case Denied(_) => Raised
    case Posted(b) => Done(w.(books := b))
  }

  /** The foreign key from a request to its Customer. */
  ghost predicate Placed(w: World) {
    forall i :: 0 <= i < |w.books.requests| ==> w.books.requests[i].customer in w.dist.roster.customers
  }

  /** `allocate_request`: an exception rolls the whole transaction back. */
  function AllocateRequest(w: World, r: RequestId, instant: int, at: int): Attempt
    requires Placed(w)
  {
    if !Known(w, r) then Raised
    else
      var q := w.books.requests[r];
      if EventCount(w, r) > 0 then
        if EventCount(w, r) != q.count then Raised
        else Finish(SetRequest(w, r, q.(status := Generated, artifact := true)), r)
      else if q.status !in {Status.Approved, Processing} then Done(w)
      else
        var ls := Candidates(w.dist, q.customer, q.states, q.count, instant);
        if |ls| < q.count then
          Done(SetRequest(w, r, q.(status := WaitingInventory,
                                   available := Some(|EligibleSet(w.dist, q.customer, q.states, instant)|))))
        else
          var dist := Allocation.Delivered(w.dist, q.customer, r, at, ls);
          Finish(SetRequest(w.(dist := dist), r,
                            q.(status := Generated, artifact := true, available := Some(|ls|),
                               processedAt := Some(at))), r)
  }

  ghost predicate Enabled(w: World, step: Step) {
    match step
    case DistStep(s) => !s.Allocate? && NoRepeat.Enabled(w.dist, s)
    case Allocate(_, instant, at) => instant <= at
    // A delivery job is queued only by the transaction that wrote the artifact.
    case DeliverySent(r) => Known(w, r) && w.books.requests[r].artifact
    case DeliveryFailed(r) => Known(w, r) && w.books.requests[r].artifact
    // Both run inside a rotation, on a request it selected.
    case GateBlocked(r, _) => Known(w, r) && w.books.requests[r].status in {Status.Approved, WaitingInventory}
    case Reopen(r) => Known(w, r) && w.books.requests[r].status == WaitingInventory
    case CreditPurchase(_, amount) => amount > 0
    case _ => true
  }

  ghost function Next(w: World, step: Step): World
    requires WorldOk(w) && Enabled(w, step)
  {
    match step
    case DistStep(s) => w.(dist := NoRepeat.Next(w.dist, s))
    case SetTerms(c, t) => w.(terms := w.terms[c := t])
    case Submit(c, count, states, licensed, expected, at, key) =>
      Submitted(w, c, count, states, licensed, expected, at, key)
    case Decide(r, action, at) => Decided(w, r, action, at)
    case Withdraw(r) => Withdrawn(w, r)
    case NarrowStates(r, proposed) => Narrowed(w, r, proposed)
    case Allocate(r, instant, at) =>
      (match AllocateRequest(w, r, instant, at) case Raised => w case Done(t) => t)
    case AllocationFailed(r) => if !Known(w, r) then w else ReleaseHold(SetStatus(w, r, Failed), r)
    case DeliverySent(r) => SetStatus(w, r, Status.Delivered)
    case DeliveryFailed(r) => SetStatus(w, r, Failed)
    case GateBlocked(r, n) => SetRequest(w, r, w.books.requests[r].(status := WaitingInventory, available := Some(n)))
    case Reopen(r) => SetStatus(w, r, Status.Approved)
    case AdjustWallet(c, amount, reasonGiven) =>
      (match Adjust(w.books, c, amount, reasonGiven) case Denied(_) => w case Posted(b) => w.(books := b))
    case CreditPurchase(c, amount) => w.(books := Post(w.books, Entry(c, Purchased, amount, None)))
  }

  // ---------------------------------------------------------------------
  // The invariant
  // ---------------------------------------------------------------------

  /** Statuses in which a request may still be allocated. */
  predicate Open(s: Status) {
    s in {Pending, Status.Approved, Processing, WaitingInventory}
  }

  /** One request against the number of its events and of its ledger charges. */
  ghost predicate RequestOk(q: Request, events: nat, charges: nat) {
    && q.count >= 1
    && (events == 0 || events == q.count)
    && (q.artifact <==> events > 0)
    && (events > 0 ==> q.status in {Generated, Status.Delivered, Failed})
    && (!q.billed ==> q.hold.None? && charges == 0)
    && (q.billed ==>
          && q.hold.Some? && q.hold.value.amount == q.amount
          && q.hold.value.status == (if events > 0 then Captured else if Open(q.status) then Active else Released)
          && charges == (if events > 0 then 1 else 0))
  }

  ghost predicate RequestsOk(w: World) {
    forall r :: 0 <= r < |w.books.requests| ==>
      RequestOk(w.books.requests[r], EventCount(w, r), ChargeCount(w, r))
      && w.books.requests[r].customer in w.dist.roster.customers
  }

  /** Events and charges point at requests, and a charge is its request's frozen amount. */
  ghost predicate LinksOk(w: World) {
    && (forall i :: 0 <= i < |w.dist.events| && w.dist.events[i].request.Some? ==>
          w.dist.events[i].request.value < |w.books.requests|)
    && (forall i :: 0 <= i < |w.books.ledger| ==> EntryOk(w.books.requests, w.books.ledger[i]))
  }

  ghost predicate EntryOk(requests: seq<Request>, e: Entry) {
    && (e.request.Some? <==> e.kind == BatchCharge)
    && (e.kind == Purchased ==> e.amount > 0)
    && (e.request.Some? ==>
          && e.request.value < |requests|
          && e.customer == requests[e.request.value].customer
          && e.amount == 0 - requests[e.request.value].amount)
  }

  /** The available balance never falls below what administrators took out. */
  ghost predicate WalletOk(w: World, c: CustomerId) {
    Available(w.books, c) >= Debits(w.books, c)
  }

  /** Balance is what came in, less what captured holds spent. */
  ghost predicate Conserved(w: World, c: CustomerId) {
    Balance(w.books, c) == KindTotal(w.books, c, Purchased) + KindTotal(w.books, c, AdminAdjustment)
                         - HoldTotal(w.books, c, Captured)
  }

  ghost predicate WorldOk(w: World) {
    && NoRepeat.DistOk(w.dist)
    && RequestsOk(w)
    && LinksOk(w)
    && (forall c :: WalletOk(w, c))
    && (forall c :: Conserved(w, c))
  }

  lemma EmptyOk(rules: Rules)
    ensures var dist := Dist(Roster(map[], map[]), Stock(map[], map[], {}, [], map[], rules), []);
      WorldOk(World(dist, Books([], []), map[]))
  {
    NoRepeat.EmptyOk(rules);
  }

  // ---------------------------------------------------------------------
  // Every step keeps it
  // ---------------------------------------------------------------------

  /** The hold moved at most between active and released, and a new reservation was covered. */
  ghost predicate HoldMove(w: World, q: Request, t: Request) {
    || t.hold == q.hold
    || (&& q.hold.Some? && t.hold.Some? && q.hold.value.amount == t.hold.value.amount
        && q.hold.value.status != Captured && t.hold.value.status != Captured
        && (t.hold.value.status == Active ==> Available(w.books, q.customer) >= q.hold.value.amount))
  }

  lemma ReplaceTotals(w: World, r: RequestId, q: Request, c: CustomerId, of: HoldStatus)
    requires Known(w, r)
    ensures HoldTotal(SetRequest(w, r, q).books, c, of)
         == HoldTotal(w.books, c, of) - HoldFor(c, of)(w.books.requests[r]) + HoldFor(c, of)(q)
  {
    SumUpdate(w.books.requests, r, q, HoldFor(c, of));
  }

  lemma DebitsNonPositive(b: Books, c: CustomerId)
    ensures Debits(b, c) <= 0
  {
    SumNonPositive(b.ledger, DebitFor(c));
  }

  lemma {:induction false} SumNonPositive<T>(s: seq<T>, f: T -> int)
    requires forall x :: f(x) <= 0
    ensures Sum(s, f) <= 0
  {
    if s != [] {
      SumNonPositive(s[..|s| - 1], f);
    }
  }

  /** Replacing one request by another that fits its events and charges keeps the books right. */
  lemma ReplaceOk(w: World, r: RequestId, t: Request)
    requires WorldOk(w) && Known(w, r)
    requires t.customer == w.books.requests[r].customer && t.amount == w.books.requests[r].amount
    requires HoldMove(w, w.books.requests[r], t)
    requires RequestOk(t, EventCount(w, r), ChargeCount(w, r))
    ensures WorldOk(SetRequest(w, r, t))
  {
    var v := SetRequest(w, r, t);
    forall c ensures WalletOk(v, c) && Conserved(v, c) {
      assert WalletOk(w, c) && Conserved(w, c);
      ReplaceTotals(w, r, t, c, Active);
      ReplaceTotals(w, r, t, c, Captured);
      DebitsNonPositive(w.books, c);
    }
    forall i | 0 <= i < |v.books.requests|
      ensures RequestOk(v.books.requests[i], EventCount(v, i), ChargeCount(v, i))
           && v.books.requests[i].customer in v.dist.roster.customers
    {
      assert RequestOk(w.books.requests[i], EventCount(w, i), ChargeCount(w, i));
    }
    forall i | 0 <= i < |v.books.ledger| ensures EntryOk(v.books.requests, v.books.ledger[i]) {
      assert EntryOk(w.books.requests, w.books.ledger[i]);
    }
  }

  lemma StatusOk(w: World, r: RequestId, s: Status)
    requires WorldOk(w) && Known(w, r)
    requires RequestOk(w.books.requests[r].(status := s), EventCount(w, r), ChargeCount(w, r))
    ensures WorldOk(SetStatus(w, r, s))
  {
    ReplaceOk(w, r, w.books.requests[r].(status := s));
  }

  /** Closing a request and releasing its hold, in one transaction. */
  lemma CloseOk(w: World, r: RequestId, q: Request, s: Status)
    requires WorldOk(w) && Known(w, r) && s in {Rejected, Canceled, Failed}
    requires q == w.books.requests[r].(states := q.states)
    requires EventCount(w, r) > 0 ==> s == Failed
    ensures WorldOk(ReleaseHold(SetStatus(SetRequest(w, r, q), r, s), r))
  {
    assert RequestOk(w.books.requests[r], EventCount(w, r), ChargeCount(w, r));
    var closed := q.(status := s);
    var t := if q.billed && q.hold.value.status == Active
      then closed.(hold := Some(q.hold.value.(status := Released))) else closed;
    ReplaceOk(w, r, t);
    assert ReleaseHold(SetStatus(SetRequest(w, r, q), r, s), r) == SetRequest(w, r, t);
  }

  lemma SetSame(w: World, r: RequestId)
    requires Known(w, r)
    ensures SetRequest(w, r, w.books.requests[r]) == w
  {
    assert w.books.requests[r := w.books.requests[r]] == w.books.requests;
  }

  lemma DecideOk(w: World, r: RequestId, action: Action, at: int)
    requires WorldOk(w)
    ensures WorldOk(Decided(w, r, action, at))
  {
    if Known(w, r) && Offered(action, TransitionContext(w, r)) {
      var q := w.books.requests[r];
      assert RequestOk(q, EventCount(w, r), ChargeCount(w, r));
      SetSame(w, r);
      match action {
        case Approve => ReplaceOk(w, r, q.(status := Status.Approved, approvedAt := Some(at)));
        case Retry =>
          if Reinstate(w.books, r).Posted? {
            var t := if q.billed then q.(status := Status.Approved, hold := Some(q.hold.value.(status := Active)))
                     else q.(status := Status.Approved);
            ReplaceOk(w, r, t);
            assert Decided(w, r, action, at) == SetRequest(w, r, t);
          }
        case RetryDelivery => StatusOk(w, r, Generated);
        case Regenerate =>
        case Reject => CloseOk(w, r, q, Rejected);
        case Cancel => CloseOk(w, r, q, Canceled);
      }
    }
  }

  lemma WithdrawOk(w: World, r: RequestId)
    requires WorldOk(w)
    ensures WorldOk(Withdrawn(w, r))
  {
    if Known(w, r) && w.books.requests[r].status in CANCELABLE {
      assert RequestOk(w.books.requests[r], EventCount(w, r), ChargeCount(w, r));
      SetSame(w, r);
      CloseOk(w, r, w.books.requests[r], Canceled);
    }
  }

  lemma NarrowOk(w: World, r: RequestId, proposed: set<State>)
    requires WorldOk(w)
    ensures WorldOk(Narrowed(w, r, proposed))
  {
    if Known(w, r) && w.books.requests[r].status in CANCELABLE {
      assert RequestOk(w.books.requests[r], EventCount(w, r), ChargeCount(w, r));
      var q := w.books.requests[r].(states := w.books.requests[r].states * proposed);
      if q.states != {} {
        ReplaceOk(w, r, q);
      } else {
        CloseOk(w, r, q, Canceled);
      }
    }
  }

  lemma PostOk(w: World, e: Entry)
    requires WorldOk(w) && e.request.None?
    requires (e.kind == Purchased && e.amount > 0) || e.kind == AdminAdjustment
    ensures WorldOk(w.(books := Post(w.books, e)))
  {
    var v := w.(books := Post(w.books, e));
    forall c ensures WalletOk(v, c) && Conserved(v, c) {
      assert WalletOk(w, c) && Conserved(w, c);
      PostMoves(w.books, e, c, Purchased);
      PostMoves(w.books, e, c, AdminAdjustment);
    }
    forall i | 0 <= i < |v.books.requests|
      ensures RequestOk(v.books.requests[i], EventCount(v, i), ChargeCount(v, i))
    {
      assert RequestOk(w.books.requests[i], EventCount(w, i), ChargeCount(w, i));
      CountConcat(w.books.ledger, [e], ChargeOf(i));
      CountAll([e], ChargeOf(i));
    }
    forall i | 0 <= i < |v.books.ledger| ensures EntryOk(v.books.requests, v.books.ledger[i]) {
      assert i < |w.books.ledger| ==> EntryOk(w.books.requests, w.books.ledger[i]);
    }
  }

  lemma SubmitOk(w: World, c: CustomerId, count: nat, states: set<State>, licensed: set<State>, expected: Option<nat>,
                 at: int, key: Option<nat>)
    requires WorldOk(w)
    ensures WorldOk(Submitted(w, c, count, states, licensed, expected, at, key))
  {
    var v := Submitted(w, c, count, states, licensed, expected, at, key);
    if v != w {
      var n := |w.books.requests|;
      var q := v.books.requests[n];
      forall x ensures WalletOk(v, x) && Conserved(v, x) {
        assert WalletOk(w, x) && Conserved(w, x);
        SumAppend(w.books.requests, q, HoldFor(x, Active));
        SumAppend(w.books.requests, q, HoldFor(x, Captured));
        DebitsNonPositive(w.books, x);
      }
      NothingYet(w, n);
      forall i | 0 <= i < |v.books.requests|
        ensures RequestOk(v.books.requests[i], EventCount(v, i), ChargeCount(v, i))
             && v.books.requests[i].customer in v.dist.roster.customers
      {
        if i < n {
          assert RequestOk(w.books.requests[i], EventCount(w, i), ChargeCount(w, i));
        }
      }
      forall i | 0 <= i < |v.books.ledger| ensures EntryOk(v.books.requests, v.books.ledger[i]) {
        assert EntryOk(w.books.requests, w.books.ledger[i]);
      }
    }
  }

  /** A request that does not exist yet has neither events nor charges. */
  lemma NothingYet(w: World, n: nat)
    requires LinksOk(w) && n == |w.books.requests|
    ensures EventCount(w, n) == 0 && ChargeCount(w, n) == 0
  {
    CountAll(w.dist.events, ForRequest(n));
    forall e | e in w.books.ledger ensures !ChargeOf(n)(e) {
      var i :| 0 <= i < |w.books.ledger| && w.books.ledger[i] == e;
      assert EntryOk(w.books.requests, w.books.ledger[i]);
    }
    CountAll(w.books.ledger, ChargeOf(n));
  }

  // ---------------------------------------------------------------------
  // Allocation
  // ---------------------------------------------------------------------

  /** The distribution step an allocation of `r` takes. */
  function DistAllocate(w: World, r: RequestId, instant: int, at: int): NoRepeat.Step
    requires Known(w, r)
  {
    var q := w.books.requests[r];
    NoRepeat.Allocate(q.customer, q.states, q.count, r, instant, at)
  }

  /** The allocation of `r` finds enough inventory and commits. */
  ghost predicate Commits(w: World, r: RequestId, instant: int, at: int)
    requires RequestsOk(w)
  {
    && Known(w, r) && instant <= at && EventCount(w, r) == 0
    && w.books.requests[r].status in {Status.Approved, Processing}
    && NoRepeat.Draws(w.dist, DistAllocate(w, r, instant, at))
  }

  /** The request row a committed allocation leaves, its hold captured. */
  function CommittedRow(q: Request, count: nat, at: int): Request {
    q.(status := Generated, artifact := true, available := Some(count), processedAt := Some(at),
       hold := if q.billed && q.hold.Some? then Some(q.hold.value.(status := Captured)) else q.hold)
  }

  function ChargeEntry(q: Request, r: RequestId): Entry
    requires q.hold.Some?
  {
    Entry(q.customer, BatchCharge, 0 - q.hold.value.amount, Some(r))
  }

  /** A committed allocation: distribution, request row and charge in one transaction. */
  lemma CommitShape(w: World, r: RequestId, instant: int, at: int)
    requires WorldOk(w) && Commits(w, r, instant, at)
    ensures var q := w.books.requests[r];
      AllocateRequest(w, r, instant, at) == Done(World(
        NoRepeat.Next(w.dist, DistAllocate(w, r, instant, at)),
        Books(w.books.requests[r := CommittedRow(q, q.count, at)],
              w.books.ledger + if q.billed then [ChargeEntry(q, r)] else []),
        w.terms))
  {
    var q := w.books.requests[r];
    assert RequestOk(q, EventCount(w, r), ChargeCount(w, r));
    NoRepeat.DrawnFacts(w.dist, DistAllocate(w, r, instant, at));
    var row := q.(status := Generated, artifact := true, available := Some(q.count), processedAt := Some(at));
    var committed := CommittedRow(q, q.count, at);
    assert w.books.requests[r := row][r := committed] == w.books.requests[r := committed];
    assert w.books.ledger + [] == w.books.ledger;
  }

  lemma CommitCounts(w: World, r: RequestId, instant: int, at: int, i: RequestId)
    requires WorldOk(w) && Commits(w, r, instant, at)
    ensures var v := AllocateRequest(w, r, instant, at).w; var q := w.books.requests[r];
      && EventCount(v, i) == EventCount(w, i) + (if i == r then q.count else 0)
      && ChargeCount(v, i) == ChargeCount(w, i) + (if i == r && q.billed then 1 else 0)
  {
    CommitShape(w, r, instant, at);
    var q := w.books.requests[r];
    var step := DistAllocate(w, r, instant, at);
    NoRepeat.DrawnFacts(w.dist, step);
    var batch := Batch(w.dist.roster, q.customer, r, at, NoRepeat.Drawn(w.dist, step));
    CountConcat(w.dist.events, batch, ForRequest(i));
    CountAll(batch, ForRequest(i));
    if q.billed {
      CountConcat(w.books.ledger, [ChargeEntry(q, r)], ChargeOf(i));
      CountAll([ChargeEntry(q, r)], ChargeOf(i));
    }
  }

  /** What a charge and a captured row do to a Customer's totals. */
  lemma ChargeTotals(b: Books, q: Request, r: RequestId, c: CustomerId)
    requires q.hold.Some?
    ensures var e := ChargeEntry(q, r);
      && Balance(Post(b, e), c) == Balance(b, c) + AmountFor(c)(e) && Debits(Post(b, e), c) == Debits(b, c)
      && KindTotal(Post(b, e), c, Purchased) == KindTotal(b, c, Purchased)
      && KindTotal(Post(b, e), c, AdminAdjustment) == KindTotal(b, c, AdminAdjustment)
  {
    PostMoves(b, ChargeEntry(q, r), c, Purchased);
    PostMoves(b, ChargeEntry(q, r), c, AdminAdjustment);
  }

  lemma CommitTotals(w: World, r: RequestId, instant: int, at: int, c: CustomerId)
    requires WorldOk(w) && Commits(w, r, instant, at)
    ensures var v := AllocateRequest(w, r, instant, at).w;
      && Available(v.books, c) == Available(w.books, c) && Debits(v.books, c) == Debits(w.books, c)
      && Conserved(v, c)
  {
    CommitShape(w, r, instant, at);
    var q := w.books.requests[r];
    assert RequestOk(q, EventCount(w, r), ChargeCount(w, r));
    assert Conserved(w, c);
    var row := CommittedRow(q, q.count, at);
    ReplaceTotals(w, r, row, c, Active);
    ReplaceTotals(w, r, row, c, Captured);
    if q.billed {
      ChargeTotals(w.books, q, r, c);
    } else {
      assert w.books.ledger + [] == w.books.ledger;
    }
  }

  lemma CommitLinks(w: World, r: RequestId, instant: int, at: int)
    requires WorldOk(w) && Commits(w, r, instant, at)
    ensures LinksOk(AllocateRequest(w, r, instant, at).w)
  {
    CommitShape(w, r, instant, at);
    var v := AllocateRequest(w, r, instant, at).w;
    var q := w.books.requests[r];
    assert RequestOk(q, EventCount(w, r), ChargeCount(w, r));
    forall i | 0 <= i < |v.books.ledger| ensures EntryOk(v.books.requests, v.books.ledger[i]) {
      assert i < |w.books.ledger| ==> EntryOk(w.books.requests, w.books.ledger[i]);
    }
  }

  lemma CommitOk(w: World, r: RequestId, instant: int, at: int)
    requires WorldOk(w) && Commits(w, r, instant, at)
    ensures WorldOk(AllocateRequest(w, r, instant, at).w)
  {
    CommitShape(w, r, instant, at);
    var v := AllocateRequest(w, r, instant, at).w;
    NoRepeat.StepKeepsOk(w.dist, DistAllocate(w, r, instant, at));
    CommitLinks(w, r, instant, at);
    forall c ensures WalletOk(v, c) && Conserved(v, c) {
      assert WalletOk(w, c);
      CommitTotals(w, r, instant, at, c);
    }
    forall i | 0 <= i < |v.books.requests|
      ensures RequestOk(v.books.requests[i], EventCount(v, i), ChargeCount(v, i))
           && v.books.requests[i].customer in v.dist.roster.customers
    {
      assert RequestOk(w.books.requests[i], EventCount(w, i), ChargeCount(w, i));
      CommitCounts(w, r, instant, at, i);
    }
  }

  /**
   Running the allocator again on a committed batch rebuilds its file: no event,
   no charge and no hold changes.
   */
  lemma CommittedAllocationRepeats(w: World, r: RequestId, instant: int, at: int)
    requires WorldOk(w) && Known(w, r) && EventCount(w, r) > 0
    ensures AllocateRequest(w, r, instant, at) == Done(SetStatus(w, r, Generated))
  {
    var q := w.books.requests[r];
    assert RequestOk(q, EventCount(w, r), ChargeCount(w, r));
    assert q.(status := Generated, artifact := true) == q.(status := Generated);
  }

  /** On a request of the machine the allocator raises neither the row-count error nor a billing error. */
  lemma AllocateNeverRaises(w: World, r: RequestId, instant: int, at: int)
    requires WorldOk(w) && Known(w, r) && instant <= at
    ensures AllocateRequest(w, r, instant, at).Done?
  {
    if EventCount(w, r) > 0 {
      CommittedAllocationRepeats(w, r, instant, at);
    } else if Commits(w, r, instant, at) {
      CommitShape(w, r, instant, at);
    }
  }

  lemma AllocateOk(w: World, r: RequestId, instant: int, at: int)
    requires WorldOk(w) && instant <= at
    ensures AllocateRequest(w, r, instant, at).Done? ==> WorldOk(AllocateRequest(w, r, instant, at).w)
  {
    if Known(w, r) {
      var q := w.books.requests[r];
      assert RequestOk(q, EventCount(w, r), ChargeCount(w, r));
      if EventCount(w, r) > 0 {
        CommittedAllocationRepeats(w, r, instant, at);
        StatusOk(w, r, Generated);
      } else if Commits(w, r, instant, at) {
        CommitOk(w, r, instant, at);
      } else if q.status in {Status.Approved, Processing} {
        ReplaceOk(w, r, q.(status := WaitingInventory,
                           available := Some(|EligibleSet(w.dist, q.customer, q.states, instant)|)));
      }
    }
  }

  /** Only the row of the allocated request changes, apart from the ledger and the distribution. */
  ghost predicate OnlyRow(w: World, v: World, r: RequestId) {
    && Known(w, r)
    && |v.books.requests| == |w.books.requests|
    && v.books.requests == w.books.requests[r := v.books.requests[r]]
    && v.books.requests[r].customer == w.books.requests[r].customer
    && v.dist.roster == w.dist.roster && v.terms == w.terms
  }

  /** Allocating an approved request commits it whole or leaves it waiting. */
  lemma AllocateApproved(w: World, r: RequestId, instant: int, at: int)
    requires WorldOk(w) && Known(w, r) && instant <= at
    requires w.books.requests[r].status == Status.Approved
    ensures var a := AllocateRequest(w, r, instant, at);
      && a.Done? && WorldOk(a.w) && OnlyRow(w, a.w, r)
      && (if Commits(w, r, instant, at)
          then a.w.books.requests[r].status == Generated
               && a.w.dist == NoRepeat.Next(w.dist, DistAllocate(w, r, instant, at))
          else a.w.books.requests[r].status == WaitingInventory && a.w.dist == w.dist)
  {
    assert RequestOk(w.books.requests[r], EventCount(w, r), ChargeCount(w, r));
    AllocateNeverRaises(w, r, instant, at);
    AllocateOk(w, r, instant, at);
    if Commits(w, r, instant, at) {
      CommitShape(w, r, instant, at);
    }
  }

  lemma DistStepOk(w: World, s: NoRepeat.Step)
    requires WorldOk(w) && !s.Allocate? && NoRepeat.Enabled(w.dist, s)
    ensures WorldOk(w.(dist := NoRepeat.Next(w.dist, s)))
  {
    var v := w.(dist := NoRepeat.Next(w.dist, s));
    NoRepeat.StepKeepsOk(w.dist, s);
    NoRepeat.StepKeepsRoster(w.dist, s);
    forall c ensures WalletOk(v, c) && Conserved(v, c) {
      assert WalletOk(w, c) && Conserved(w, c);
    }
    forall i | 0 <= i < |v.books.requests|
      ensures RequestOk(v.books.requests[i], EventCount(v, i), ChargeCount(v, i))
           && v.books.requests[i].customer in v.dist.roster.customers
    {
      assert RequestOk(w.books.requests[i], EventCount(w, i), ChargeCount(w, i));
    }
  }

  lemma StepKeepsOk(w: World, step: Step)
    requires WorldOk(w) && Enabled(w, step)
    ensures WorldOk(Next(w, step))
  {
    match step {
      case DistStep(s) => DistStepOk(w, s);
      case SetTerms(c, t) => TermsOk(w, w.terms[c := t]);
      case Submit(c, count, states, licensed, expected, at, key) =>
        SubmitOk(w, c, count, states, licensed, expected, at, key);
      case Decide(r, action, at) => DecideOk(w, r, action, at);
      case Withdraw(r) => WithdrawOk(w, r);
      case NarrowStates(r, proposed) => NarrowOk(w, r, proposed);
      case Allocate(r, instant, at) => AllocateOk(w, r, instant, at);
      case AllocationFailed(r) => JobStepOk(w, step);
      case DeliverySent(r) => JobStepOk(w, step);
      case DeliveryFailed(r) => JobStepOk(w, step);
      case GateBlocked(r, n) => WaitOk(w, r, n);
      case Reopen(r) => JobStepOk(w, step);
      case AdjustWallet(c, amount, reasonGiven) =>
        if Adjust(w.books, c, amount, reasonGiven).Posted? {
          PostOk(w, Entry(c, AdminAdjustment, amount, None));
        }
      case CreditPurchase(c, amount) => PostOk(w, Entry(c, Purchased, amount, None));
    }
  }

  /** A queued request may be sent back to wait. */
  lemma WaitOk(w: World, r: RequestId, available: nat)
    requires WorldOk(w) && Known(w, r) && w.books.requests[r].status in {Status.Approved, WaitingInventory}
    ensures WorldOk(SetRequest(w, r, w.books.requests[r].(status := WaitingInventory, available := Some(available))))
  {
    assert RequestOk(w.books.requests[r], EventCount(w, r), ChargeCount(w, r));
    ReplaceOk(w, r, w.books.requests[r].(status := WaitingInventory, available := Some(available)));
  }

  /** What the jobs do to a request's status. */
  lemma JobStepOk(w: World, step: Step)
    requires WorldOk(w) && Enabled(w, step)
    requires step.AllocationFailed? || step.DeliverySent? || step.DeliveryFailed? || step.Reopen?
    ensures WorldOk(Next(w, step))
  {
    if Known(w, step.r) {
      var r := step.r;
      assert RequestOk(w.books.requests[r], EventCount(w, r), ChargeCount(w, r));
      match step {
        case AllocationFailed(_) =>
          SetSame(w, r);
          CloseOk(w, r, w.books.requests[r], Failed);
        case DeliverySent(_) => StatusOk(w, r, Status.Delivered);
        case DeliveryFailed(_) => StatusOk(w, r, Failed);
        case Reopen(_) => StatusOk(w, r, Status.Approved);
      }
    }
  }

  lemma TermsOk(w: World, terms: map<CustomerId, Terms>)
    requires WorldOk(w)
    ensures WorldOk(w.(terms := terms))
  {
    var v := w.(terms := terms);
    forall c ensures WalletOk(v, c) && Conserved(v, c) {
      assert WalletOk(w, c) && Conserved(w, c);
    }
    forall i | 0 <= i < |v.books.requests|
      ensures RequestOk(v.books.requests[i], EventCount(v, i), ChargeCount(v, i))
           && v.books.requests[i].customer in v.dist.roster.customers
    {
      assert RequestOk(w.books.requests[i], EventCount(w, i), ChargeCount(w, i));
    }
  }

  // ---------------------------------------------------------------------
  // Whole runs
  // ---------------------------------------------------------------------

  datatype Run = Run(states: seq<World>, steps: seq<Step>)

  ghost predicate IsRun(run: Run) {
    && |run.states| == |run.steps| + 1
    && WorldOk(run.states[0])
    && forall i :: 0 <= i < |run.steps| ==> IsStep(run, i)
  }

  /** `Next` is defined on states that are in order; that they all are is `RunKeepsOk`. */
  ghost predicate IsStep(run: Run, i: int)
    requires |run.states| == |run.steps| + 1 && 0 <= i < |run.steps|
  {
    WorldOk(run.states[i]) ==>
      Enabled(run.states[i], run.steps[i]) && run.states[i + 1] == Next(run.states[i], run.steps[i])
  }

  lemma {:induction false} RunKeepsOk(run: Run, i: nat)
    requires IsRun(run) && i < |run.states|
    ensures WorldOk(run.states[i])
  {
    if i > 0 {
      RunKeepsOk(run, i - 1);
      assert IsStep(run, i - 1);
      StepKeepsOk(run.states[i - 1], run.steps[i - 1]);
    }
  }

  /**
   In every state of every run a billed request has its full quantity of events
   exactly when its hold is captured, and exactly then one charge, of the frozen
   amount, against its own Customer.
   */
  lemma BilledExactlyWhenDelivered(run: Run, i: nat, r: RequestId)
    requires IsRun(run) && i < |run.states| && Known(run.states[i], r) && run.states[i].books.requests[r].billed
    ensures var w := run.states[i]; var q := w.books.requests[r];
      && q.hold.Some? && q.hold.value.amount == q.amount
      && (EventCount(w, r) == q.count <==> q.hold.value.status == Captured)
      && (EventCount(w, r) == 0 <==> q.hold.value.status != Captured)
      && ChargeCount(w, r) == (if q.hold.value.status == Captured then 1 else 0)
      && (forall e :: e in w.books.ledger && e.request == Some(r) ==>
            e.kind == BatchCharge && e.customer == q.customer && e.amount == 0 - q.amount)
  {
    RunKeepsOk(run, i);
    var w := run.states[i];
    assert RequestOk(w.books.requests[r], EventCount(w, r), ChargeCount(w, r));
    forall e | e in w.books.ledger && e.request == Some(r)
      ensures e.kind == BatchCharge && e.customer == w.books.requests[r].customer
      ensures e.amount == 0 - w.books.requests[r].amount
    {
      var k :| 0 <= k < |w.books.ledger| && w.books.ledger[k] == e;
      assert EntryOk(w.books.requests, w.books.ledger[k]);
    }
  }

  /** In every state of every run: wallet safety, and conservation as the ledger tells it. */
  lemma LedgerSafeInEveryRun(run: Run, i: nat, c: CustomerId)
    requires IsRun(run) && i < |run.states|
    ensures Available(run.states[i].books, c) >= Debits(run.states[i].books, c)
    ensures Balance(run.states[i].books, c) ==
      KindTotal(run.states[i].books, c, Purchased) + KindTotal(run.states[i].books, c, AdminAdjustment)
      - HoldTotal(run.states[i].books, c, Captured)
  {
    RunKeepsOk(run, i);
    assert WalletOk(run.states[i], c) && Conserved(run.states[i], c);
  }

  /**
   Once a batch is committed no surface offers anything but resending its
   notification and, when its file has expired, rebuilding it; and no action,
   withdrawal, narrowing or release changes more than its status.
   */
  lemma CommittedBatchIsSafe(w: World, r: RequestId, ctx: Context, action: Action, at: int)
    requires WorldOk(w) && Known(w, r) && EventCount(w, r) > 0 && ContextOf(w, r, ctx)
    ensures Offered(action, ctx) <==>
      || (action.RetryDelivery? && ctx.status == Failed)
      || (action.Regenerate? && !ctx.artifactAvailable && ctx.complete)
    ensures ContextOf(w, r, TransitionContext(w, r))
    ensures Withdrawn(w, r) == w
    ensures forall proposed :: Narrowed(w, r, proposed) == w
    ensures Release(w.books, r) == w.books
    ensures Decided(w, r, action, at) ==
      if action.RetryDelivery? && w.books.requests[r].status == Failed then SetStatus(w, r, Generated) else w
  {
    assert RequestOk(w.books.requests[r], EventCount(w, r), ChargeCount(w, r));
  }

  /** Whatever can be withdrawn has no committed Lead, although withdrawal checks the status only. */
  lemma CancelableIsUncommitted(run: Run, i: nat, r: RequestId)
    requires IsRun(run) && i < |run.states| && Known(run.states[i], r)
    requires run.states[i].books.requests[r].status in CANCELABLE
    ensures EventCount(run.states[i], r) == 0
  {
    RunKeepsOk(run, i);
    assert RequestOk(run.states[i].books.requests[r], EventCount(run.states[i], r), ChargeCount(run.states[i], r));
  }

  /** Only a committed allocation touches the distribution history of a request machine. */
  lemma DistOnlyMovesByCommit(w: World, step: Step)
    requires WorldOk(w) && Enabled(w, step) && !step.DistStep?
    ensures Next(w, step).dist == w.dist ||
      (step.Allocate? && Commits(w, step.r, step.instant, step.at)
       && Next(w, step).dist == NoRepeat.Next(w.dist, DistAllocate(w, step.r, step.instant, step.at)))
  {
    if step.Allocate? {
      AllocateMovesDist(w, step.r, step.instant, step.at);
    } else {
      OtherStepsKeepDist(w, step);
    }
  }

  lemma AllocateMovesDist(w: World, r: RequestId, instant: int, at: int)
    requires WorldOk(w) && instant <= at
    ensures var a := AllocateRequest(w, r, instant, at);
      a.Raised? || a.w.dist == w.dist ||
      (Commits(w, r, instant, at) && a.w.dist == NoRepeat.Next(w.dist, DistAllocate(w, r, instant, at)))
  {
    if Known(w, r) {
      if EventCount(w, r) > 0 {
        CommittedAllocationRepeats(w, r, instant, at);
      } else if Commits(w, r, instant, at) {
        CommitShape(w, r, instant, at);
      }
    }
  }

  lemma OtherStepsKeepDist(w: World, step: Step)
    requires WorldOk(w) && Enabled(w, step) && !step.DistStep? && !step.Allocate?
    ensures Next(w, step).dist == w.dist
  {
  }

  /** The requests of `w` are still there in `v`, on the terms they were submitted with. */
  ghost predicate TermsFrozen(w: World, v: World) {
    && |w.books.requests| <= |v.books.requests|
    && forall r :: 0 <= r < |w.books.requests| ==> SameTerms(w.books.requests[r], v.books.requests[r])
  }

  ghost predicate SameTerms(q: Request, t: Request) {
    t.customer == q.customer && t.count == q.count && t.billed == q.billed && t.amount == q.amount
  }

  lemma AllocateFreezesTerms(w: World, r: RequestId, instant: int, at: int)
    requires WorldOk(w) && instant <= at && AllocateRequest(w, r, instant, at).Done?
    ensures TermsFrozen(w, AllocateRequest(w, r, instant, at).w)
  {
    if EventCount(w, r) > 0 {
      CommittedAllocationRepeats(w, r, instant, at);
    } else if Commits(w, r, instant, at) {
      CommitShape(w, r, instant, at);
    }
  }

  lemma DecideFreezesTerms(w: World, r: RequestId, action: Action, at: int)
    ensures TermsFrozen(w, Decided(w, r, action, at))
  {
  }

  lemma CustomerFreezesTerms(w: World, r: RequestId, proposed: set<State>)
    ensures TermsFrozen(w, Withdrawn(w, r)) && TermsFrozen(w, Narrowed(w, r, proposed))
  {
  }

  lemma SubmitFreezesTerms(w: World, c: CustomerId, count: nat, states: set<State>, licensed: set<State>,
                           expected: Option<nat>, at: int, key: Option<nat>)
    ensures TermsFrozen(w, Submitted(w, c, count, states, licensed, expected, at, key))
  {
  }

  lemma CloseFreezesTerms(w: World, r: RequestId, s: Status)
    requires Known(w, r)
    ensures TermsFrozen(w, SetStatus(w, r, s)) && TermsFrozen(w, ReleaseHold(SetStatus(w, r, s), r))
  {
  }

  /** Terms are frozen at submission and requests are never removed. */
  lemma StepFreezesTerms(w: World, step: Step)
    requires WorldOk(w) && Enabled(w, step)
    ensures TermsFrozen(w, Next(w, step))
  {
    match step {
      case DistStep(s) =>
      case SetTerms(c, t) =>
      case Submit(c, count, states, licensed, expected, at, key) =>
        SubmitFreezesTerms(w, c, count, states, licensed, expected, at, key);
      case Decide(r, action, at) => DecideFreezesTerms(w, r, action, at);
      case Withdraw(r) => CustomerFreezesTerms(w, r, {});
      case NarrowStates(r, proposed) => CustomerFreezesTerms(w, r, proposed);
      case Allocate(r, instant, at) =>
        if AllocateRequest(w, r, instant, at).Done? {
          AllocateFreezesTerms(w, r, instant, at);
        }
      case AllocationFailed(r) =>
        if Known(w, r) {
          CloseFreezesTerms(w, r, Failed);
        }
      case DeliverySent(r) => CloseFreezesTerms(w, r, Status.Delivered);
      case DeliveryFailed(r) => CloseFreezesTerms(w, r, Failed);
      case GateBlocked(r, n) =>
      case Reopen(r) => CloseFreezesTerms(w, r, Status.Approved);
      case AdjustWallet(c, amount, reasonGiven) =>
      case CreditPurchase(c, amount) =>
    }
  }

  /** Events are never taken back. */
  lemma StepOnlyAddsEvents(w: World, step: Step)
    requires WorldOk(w) && Enabled(w, step)
    ensures w.dist.events <= Next(w, step).dist.events
  {
    if !step.DistStep? {
      DistOnlyMovesByCommit(w, step);
    }
  }

  /** One step keeps a request's terms and its batch. */
  lemma CommittedNext(v: World, step: Step, r: RequestId)
    requires WorldOk(v) && Enabled(v, step) && Known(v, r) && EventCount(v, r) > 0
    ensures var w := Next(v, step);
      && Known(w, r) && v.dist.events <= w.dist.events && EventCount(w, r) >= EventCount(v, r)
      && SameTerms(v.books.requests[r], w.books.requests[r])
  {
    var w := Next(v, step);
    StepFreezesTerms(v, step);
    StepOnlyAddsEvents(v, step);
    assert w.dist.events == v.dist.events + w.dist.events[|v.dist.events|..];
    CountConcat(v.dist.events, w.dist.events[|v.dist.events|..], ForRequest(r));
  }

  /** A request with events has exactly the batch it asked for, paid if it is billed. */
  lemma BatchIsWhole(w: World, r: RequestId)
    requires WorldOk(w) && Known(w, r) && EventCount(w, r) > 0
    ensures var q := w.books.requests[r];
      EventCount(w, r) == q.count && (q.billed ==> q.hold == Some(Hold(q.amount, Captured)))
  {
    assert RequestOk(w.books.requests[r], EventCount(w, r), ChargeCount(w, r));
  }

  /** A committed batch stays committed and paid for, whatever the rest of the run does. */
  lemma {:induction false} CommittedForever(run: Run, i: nat, j: nat, r: RequestId)
    requires IsRun(run) && i <= j < |run.states| && Known(run.states[i], r) && EventCount(run.states[i], r) > 0
    ensures Known(run.states[j], r) && run.states[i].dist.events <= run.states[j].dist.events
    ensures EventCount(run.states[j], r) == EventCount(run.states[i], r) == run.states[j].books.requests[r].count
    ensures run.states[j].books.requests[r].billed ==>
      run.states[j].books.requests[r].hold == Some(Hold(run.states[i].books.requests[r].amount, Captured))
    ensures run.states[j].books.requests[r].amount == run.states[i].books.requests[r].amount
    ensures run.states[j].books.requests[r].count == run.states[i].books.requests[r].count
    decreases j
  {
    RunKeepsOk(run, j);
    if i < j {
      CommittedForever(run, i, j - 1, r);
      RunKeepsOk(run, j - 1);
      assert IsStep(run, j - 1);
      CommittedNext(run.states[j - 1], run.steps[j - 1], r);
    }
    BatchIsWhole(run.states[j], r);
  }
}
