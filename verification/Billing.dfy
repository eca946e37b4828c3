/**
 The Credit Wallet (jawnix/billing.py): holds, captures, releases and the
 append-only ledger, with the requests they belong to.
 */
module Billing {
  import opened Basics
  import opened History
  import opened NichePolicy
  import opened Allocation

  datatype HoldStatus = Active | Captured | Released
  datatype Hold = Hold(amount: nat, status: HoldStatus)

  datatype Status =
    Pending | Approved | Processing | WaitingInventory | Generated | Delivered | Rejected | Canceled | Failed

  /** A Batch Request with its frozen billing terms; its id is its position. */
  datatype Request = Request(
    customer: CustomerId,
    count: nat,
    states: set<State>,
    status: Status,
    createdAt: int,
    approvedAt: Option<int>,
    processedAt: Option<int>,
    available: Option<nat>,
    artifact: bool,
    billed: bool,
    amount: nat,
    hold: Option<Hold>,
    submission: Option<nat>)

  datatype Kind = Purchased | BatchCharge | AdminAdjustment
  datatype Entry = Entry(customer: CustomerId, kind: Kind, amount: int, request: Option<RequestId>)

  datatype Books = Books(requests: seq<Request>, ledger: seq<Entry>)

  datatype BillingError =
    | CustomerMissing | PriceChanged | NoLeadRate | InsufficientBalance
    | NoHold | HoldReleased | HoldCaptured | ZeroAdjustment | ReasonMissing
  datatype Outcome = Posted(books: Books) | Denied(error: BillingError)

  // ---------------------------------------------------------------------
  // Price
  // ---------------------------------------------------------------------

  /** `batch_cost_cents`: half-up rounding with a one-cent floor. */
  function BatchCost(count: nat, rate: nat): (cents: nat) {
    var rounded := (count * rate + 500) / 1_000;
    if count > 0 then (if rounded < 1 then 1 else rounded) else 0
  }

  /** The price is the nearest cent, a half rounded up, and a batch is never free. */
  lemma BatchCostRounds(count: nat, rate: nat)
    ensures count > 0 ==> BatchCost(count, rate) >= 1
    ensures BatchCost(count, rate) == 0 <==> count == 0
    ensures var exact := count * rate; var cents := BatchCost(count, rate);
      && 1_000 * cents <= (if count > 0 && exact < 500 then 1_000 else exact + 500)
      && exact < 1_000 * cents + 500
  {
    var exact := count * rate;
    if count > 0 && exact < 500 {
      assert (exact + 500) / 1_000 == 0;
    }
  }

  /** Asking for more Leads never costs less. */
  lemma BatchCostMonotone(a: nat, b: nat, rate: nat)
    requires a <= b
    ensures BatchCost(a, rate) <= BatchCost(b, rate)
  {
    assert a * rate <= b * rate by {
      assert (b - a) * rate >= 0;
      assert b * rate == a * rate + (b - a) * rate;
    }
  }

  // ---------------------------------------------------------------------
  // Totals
  // ---------------------------------------------------------------------

  function AmountFor(c: CustomerId): Entry -> int {
    (e: Entry) => if e.customer == c then e.amount else 0
  }

  function KindAmountFor(c: CustomerId, kind: Kind): Entry -> int {
    (e: Entry) => if e.customer == c && e.kind == kind then e.amount else 0
  }

  function DebitFor(c: CustomerId): Entry -> int {
    (e: Entry) => if e.customer == c && e.kind == AdminAdjustment && e.amount < 0 then e.amount else 0
  }

  function HoldFor(c: CustomerId, status: HoldStatus): Request -> int {
    (q: Request) => if q.customer == c && q.hold.Some? && q.hold.value.status == status then q.hold.value.amount else 0
  }

  function ChargeOf(r: RequestId): Entry -> bool {
    (e: Entry) => e.request == Some(r)
  }

  function ForRequest(r: RequestId): Event -> bool {
    (e: Event) => e.request == Some(r)
  }

  function Balance(b: Books, c: CustomerId): int {
    Sum(b.ledger, AmountFor(c))
  }

  function HoldTotal(b: Books, c: CustomerId, status: HoldStatus): int {
    Sum(b.requests, HoldFor(c, status))
  }

  /** `_wallet_totals`: what a new hold may draw on. */
  function Available(b: Books, c: CustomerId): int {
    Balance(b, c) - HoldTotal(b, c, Active)
  }

  function KindTotal(b: Books, c: CustomerId, kind: Kind): int {
    Sum(b.ledger, KindAmountFor(c, kind))
  }

  /** The sum of negative administrator adjustments. */
  function Debits(b: Books, c: CustomerId): int {
    Sum(b.ledger, DebitFor(c))
  }

  // ---------------------------------------------------------------------
  // Holds
  // ---------------------------------------------------------------------

  function WithHold(b: Books, r: RequestId, status: HoldStatus): Books
    requires r < |b.requests| && b.requests[r].hold.Some?
  {
    b.(requests := b.requests[r := b.requests[r].(hold := Some(b.requests[r].hold.value.(status := status)))])
  }

  function Post(b: Books, e: Entry): Books {
    b.(ledger := b.ledger + [e])
  }

  function Charged(b: Books, r: RequestId): bool {
    Count(b.ledger, ChargeOf(r)) > 0
  }

  /** `capture_batch_hold` */
  function Capture(b: Books, r: RequestId): Outcome
    requires r < |b.requests|
  {
    var q := b.requests[r];
    if !q.billed then Posted(b)
    else if q.hold.None? then Denied(NoHold)
    else if q.hold.value.status == Captured then Posted(b)
    else if q.hold.value.status != Active then Denied(HoldReleased)
    else
      var charged := if Charged(b, r) then b
                     else Post(b, Entry(q.customer, BatchCharge, 0 - q.hold.value.amount, Some(r)));
      Posted(WithHold(charged, r, Captured))
  }

  /** `release_batch_hold` */
  function Release(b: Books, r: RequestId): Books
    requires r < |b.requests|
  {
    var q := b.requests[r];
    if q.billed && q.hold.Some? && q.hold.value.status == Active then WithHold(b, r, Released) else b
  }

  /** `reinstate_batch_hold` */
  function Reinstate(b: Books, r: RequestId): Outcome
    requires r < |b.requests|
  {
    var q := b.requests[r];
    if !q.billed then Posted(b)
    else if q.hold.None? then Denied(NoHold)
    else if q.hold.value.status == Captured then Denied(HoldCaptured)
    else if q.hold.value.status == Active then Posted(b)
    else if Available(b, q.customer) < q.hold.value.amount then Denied(InsufficientBalance)
    else Posted(WithHold(b, r, Active))
  }

  /** `post_admin_adjustment` */
  function Adjust(b: Books, c: CustomerId, amount: int, reasonGiven: bool): Outcome {
    if amount == 0 then Denied(ZeroAdjustment)
    else if !reasonGiven then Denied(ReasonMissing)
    else Posted(Post(b, Entry(c, AdminAdjustment, amount, None)))
  }

  /** A Customer's saved billing settings. */
  datatype Terms = Terms(enabled: bool, rate: Option<nat>)
  datatype Quote = Unbilled | Billed(amount: nat) | Unquoted(error: BillingError)

  /** `prepare_submission`: freeze the terms and check the wallet covers them. */
  function Prepare(b: Books, r: Roster, terms: map<CustomerId, Terms>, c: CustomerId, count: nat,
                   expected: Option<nat>): Quote {
    if c !in r.customers || c !in terms then Unquoted(CustomerMissing)
    else
      var billed := terms[c].enabled && r.customers[c].database == Db1;
      var current := if billed then terms[c].rate else None;
      if current != expected then Unquoted(PriceChanged)
      else if !billed then Unbilled
      else if current.None? then Unquoted(NoLeadRate)
      else
        var amount := BatchCost(count, current.value);
        if Available(b, c) < amount then Unquoted(InsufficientBalance) else Billed(amount)
  }

  // ---------------------------------------------------------------------
  // What each movement does to the totals
  // ---------------------------------------------------------------------

  lemma HoldMoves(b: Books, r: RequestId, status: HoldStatus, c: CustomerId, of: HoldStatus)
    requires r < |b.requests| && b.requests[r].hold.Some?
    ensures var q := b.requests[r]; var h := q.hold.value;
      HoldTotal(WithHold(b, r, status), c, of) == HoldTotal(b, c, of)
        - (if q.customer == c && h.status == of then h.amount else 0)
        + (if q.customer == c && status == of then h.amount else 0)
  {
    SumUpdate(b.requests, r, b.requests[r].(hold := Some(b.requests[r].hold.value.(status := status))), HoldFor(c, of));
  }

  lemma PostMoves(b: Books, e: Entry, c: CustomerId, kind: Kind)
    ensures Balance(Post(b, e), c) == Balance(b, c) + AmountFor(c)(e)
    ensures KindTotal(Post(b, e), c, kind) == KindTotal(b, c, kind) + KindAmountFor(c, kind)(e)
    ensures Debits(Post(b, e), c) == Debits(b, c) + DebitFor(c)(e)
    ensures HoldTotal(Post(b, e), c, Active) == HoldTotal(b, c, Active)
  {
    SumAppend(b.ledger, e, AmountFor(c));
    SumAppend(b.ledger, e, KindAmountFor(c, kind));
    SumAppend(b.ledger, e, DebitFor(c));
  }

  /** A first capture moves the hold from reserved to spent: the available balance does not move. */
  lemma CaptureKeepsAvailable(b: Books, r: RequestId, c: CustomerId)
    requires r < |b.requests| && b.requests[r].billed
    requires b.requests[r].hold.Some? && b.requests[r].hold.value.status == Active && !Charged(b, r)
    ensures var q := b.requests[r]; var after := Capture(b, r).books;
      && Available(after, c) == Available(b, c)
      && Balance(after, c) == Balance(b, c) - (if q.customer == c then q.hold.value.amount else 0)
      && Debits(after, c) == Debits(b, c)
  {
    var q := b.requests[r];
    var e := Entry(q.customer, BatchCharge, 0 - q.hold.value.amount, Some(r));
    PostMoves(b, e, c, BatchCharge);
    HoldMoves(Post(b, e), r, Captured, c, Active);
  }

  /** A captured request stays captured: capturing again changes nothing. */
  lemma CaptureIsIdempotent(b: Books, r: RequestId)
    requires r < |b.requests| && Capture(b, r).Posted?
    ensures |Capture(b, r).books.requests| == |b.requests| && Capture(Capture(b, r).books, r) == Capture(b, r)
  {
  }

  /** Releasing an active hold returns exactly the hold. */
  lemma ReleaseReturnsHold(b: Books, r: RequestId, c: CustomerId)
    requires r < |b.requests| && b.requests[r].billed
    requires b.requests[r].hold.Some? && b.requests[r].hold.value.status == Active
    ensures var q := b.requests[r];
      Available(Release(b, r), c) == Available(b, c) + (if q.customer == c then q.hold.value.amount else 0)
    ensures Balance(Release(b, r), c) == Balance(b, c)
  {
    HoldMoves(b, r, Released, c, Active);
  }

  /** Reinstating undoes a release, and only when the wallet still covers it. */
  lemma ReinstateUndoesRelease(b: Books, r: RequestId)
    requires r < |b.requests| && b.requests[r].billed
    requires b.requests[r].hold.Some? && b.requests[r].hold.value.status == Active
    ensures Reinstate(Release(b, r), r) ==
      (if Available(b, b.requests[r].customer) >= 0 then Posted(b) else Denied(InsufficientBalance))
  {
    var q := b.requests[r];
    ReleaseReturnsHold(b, r, q.customer);
    assert q.(hold := Some(q.hold.value.(status := Active))) == q;
    assert b.requests[r := q] == b.requests;
  }
}
