/**
 Whole runs with money coming in: every market move, every Checkout session
 started and every Stripe delivery, in any order, on one ledger
 (jawnix/billing.py, jawnix/api.py). The wallet law is stated in terms of
 completed Credit Purchases, not of the ledger's own entries.
 */
module WalletRuns {
  import opened Basics
  import opened History
  import opened NichePolicy
  import opened Allocation
  import opened Billing
  import opened CreditPurchases
  import opened Requests
  import opened Rotation
  import RotationRuns

  datatype Store = Store(floor: Floor, purchases: seq<Purchase>, receipts: set<nat>)

  function BooksOf(s: Store): Books {
    s.floor.world.books
  }

  function TillOf(s: Store): Till {
    Till(s.purchases, s.receipts, BooksOf(s).ledger)
  }

  function WithLedger(w: World, ledger: seq<Entry>): World {
    w.(books := w.books.(ledger := ledger))
  }

  function WithTill(s: Store, t: Till): Store {
    Store(s.floor.(world := WithLedger(s.floor.world, t.ledger)), t.purchases, t.receipts)
  }

  /** Credit reaches the ledger through Stripe alone. */
  datatype Event =
    | Market(move: RotationRuns.Move)
    | StartPurchase(c: CustomerId, dollars: int)
    | StripeDelivery(event: StripeEvent)

  ghost predicate CanHappen(s: Store, e: Event) {
    e.Market? ==> RotationRuns.CanMove(s.floor, e.move) && !(e.move.Other? && e.move.step.CreditPurchase?)
  }

  ghost function After(s: Store, e: Event): Store
    requires WorldOk(s.floor.world) && CanHappen(s, e)
  {
    match e
    case Market(move) => s.(floor := RotationRuns.After(s.floor, move))
    case StartPurchase(c, dollars) => WithTill(s, Started(TillOf(s), c, dollars))
    case StripeDelivery(event) => WithTill(s, Handle(TillOf(s), event).till)
  }

  // ---------------------------------------------------------------------
  // Completed purchases are what the ledger's purchase entries say
  // ---------------------------------------------------------------------

  function CompletedFor(c: CustomerId): Purchase -> int {
    (p: Purchase) => if p.customer == c && p.status == Completed then p.amount else 0
  }

  function CompletedTotal(purchases: seq<Purchase>, c: CustomerId): int {
    Sum(purchases, CompletedFor(c))
  }

  function CreditTotal(ledger: seq<Entry>, c: CustomerId): int {
    Sum(ledger, KindAmountFor(c, Purchased))
  }

  ghost predicate Matched(t: Till) {
    forall c :: CompletedTotal(t.purchases, c) == CreditTotal(t.ledger, c)
  }

  lemma CreditMatches(t: Till, s: nat, c: CustomerId)
    requires s < |t.purchases| && t.purchases[s].status != Completed
    ensures CompletedTotal(Credited(t, s).purchases, c) - CompletedTotal(t.purchases, c)
         == CreditTotal(Credited(t, s).ledger, c) - CreditTotal(t.ledger, c)
  {
    SumUpdate(t.purchases, s, Credited(t, s).purchases[s], CompletedFor(c));
    SumAppend(t.ledger, CreditEntry(t.purchases[s]), KindAmountFor(c, Purchased));
  }

  lemma CloseMatches(t: Till, s: nat, status: PurchaseStatus, c: CustomerId)
    requires s < |t.purchases| && status != Completed
    ensures CompletedTotal(Closed(t, s, status).purchases, c) == CompletedTotal(t.purchases, c)
  {
    if t.purchases[s].status == InProcess {
      SumUpdate(t.purchases, s, t.purchases[s].(status := status), CompletedFor(c));
    }
  }

  /** One delivery moves both totals together. */
  lemma HandleMatches(t: Till, e: StripeEvent)
    requires Matched(t)
    ensures Matched(Handle(t, e).till)
  {
    var u := t.(receipts := t.receipts + {e.id});
    forall c ensures CompletedTotal(Handle(t, e).till.purchases, c) == CreditTotal(Handle(t, e).till.ledger, c) {
      assert CompletedTotal(t.purchases, c) == CreditTotal(t.ledger, c);
      if e.session.Some? && e.session.value < |t.purchases| {
        var s := e.session.value;
        if t.purchases[s].status != Completed {
          CreditMatches(u, s, c);
        }
        CloseMatches(u, s, FailedPayment, c);
        CloseMatches(u, s, Expired, c);
      }
    }
  }

  lemma StartMatches(t: Till, c: CustomerId, dollars: int)
    requires Matched(t)
    ensures Matched(Started(t, c, dollars))
  {
    if dollars >= 1 {
      forall d ensures CompletedTotal(Started(t, c, dollars).purchases, d) == CreditTotal(t.ledger, d) {
        assert CompletedTotal(t.purchases, d) == CreditTotal(t.ledger, d);
        SumAppend(t.purchases, Purchase(c, dollars * 100, InProcess, None), CompletedFor(d));
      }
    }
  }

  // ---------------------------------------------------------------------
  // Other entries on the same ledger
  // ---------------------------------------------------------------------

  /** At most one entry was added, and not a purchase. */
  ghost predicate NoPurchase(before: seq<Entry>, after: seq<Entry>) {
    after == before || (|after| == |before| + 1 && after[..|before|] == before && after[|before|].kind != Purchased)
  }

  lemma EntryKeepsTill(t: Till, ledger: seq<Entry>)
    requires TillOk(t) && Matched(t) && NoPurchase(t.ledger, ledger)
    ensures TillOk(t.(ledger := ledger)) && Matched(t.(ledger := ledger))
  {
    if ledger != t.ledger {
      var e := ledger[|t.ledger|];
      assert ledger == t.ledger + [e];
      OtherEntryKeepsTill(t, e);
      forall c ensures CompletedTotal(t.purchases, c) == CreditTotal(ledger, c) {
        assert CompletedTotal(t.purchases, c) == CreditTotal(t.ledger, c);
        SumAppend(t.ledger, e, KindAmountFor(c, Purchased));
      }
    }
  }

  lemma OtherEntryKeepsTill(t: Till, e: Entry)
    requires TillOk(t) && e.kind != Purchased
    ensures TillOk(t.(ledger := t.ledger + [e]))
  {
    var u := t.(ledger := t.ledger + [e]);
    forall s | 0 <= s < |u.purchases| ensures PurchaseOk(u, s) {
      assert PurchaseOk(t, s);
    }
    forall a, b, i | CreditedBy(u, a, i) && CreditedBy(u, b, i) ensures a == b {
      assert CreditedBy(t, a, i) && CreditedBy(t, b, i);
    }
    forall i | 0 <= i < |u.ledger| && u.ledger[i].kind == Purchased ensures exists s :: CreditedBy(u, s, i) {
      var s :| CreditedBy(t, s, i);
      assert CreditedBy(u, s, i);
    }
  }

  lemma StepPostsNoPurchase(w: World, step: Requests.Step)
    requires WorldOk(w) && Requests.Enabled(w, step) && !step.Allocate? && !step.CreditPurchase?
    ensures NoPurchase(w.books.ledger, Requests.Next(w, step).books.ledger)
  {
    match step {
      case Decide(r, action, at) => DecidePostsNothing(w, r, action, at);
      case Withdraw(r) =>
      case NarrowStates(r, proposed) => NarrowPostsNothing(w, r, proposed);
      case _ =>
    }
  }

  lemma DecidePostsNothing(w: World, r: RequestId, action: Action, at: int)
    ensures Decided(w, r, action, at).books.ledger == w.books.ledger
  {
  }

  lemma NarrowPostsNothing(w: World, r: RequestId, proposed: set<State>)
    ensures Narrowed(w, r, proposed).books.ledger == w.books.ledger
  {
  }

  lemma AllocatePostsNoPurchase(w: World, r: RequestId, instant: int, at: int)
    requires Placed(w)
    ensures var a := AllocateRequest(w, r, instant, at); a.Done? ==> NoPurchase(w.books.ledger, a.w.books.ledger)
  {
  }

  lemma TurnPostsNoPurchase(f: Floor, r: RequestId, clock: Clock)
    requires WorldOk(f.world) && Rotating(f.world, r)
    ensures NoPurchase(f.world.books.ledger, Turn(f, r, clock).floor.world.books.ledger)
  {
    AllocatePostsNoPurchase(Reopened(f.world, r), r, clock.instant, clock.at);
  }

  lemma MovePostsNoPurchase(f: Floor, move: RotationRuns.Move)
    requires WorldOk(f.world) && RotationRuns.CanMove(f, move) && !(move.Other? && move.step.CreditPurchase?)
    ensures NoPurchase(f.world.books.ledger, RotationRuns.After(f, move).world.books.ledger)
  {
    match move {
      case Other(step) => StepPostsNoPurchase(f.world, step);
      case TurnOn(r, clock) => TurnPostsNoPurchase(f, r, clock);
      case DecideOn(key, confirm) =>
    }
  }

  // ---------------------------------------------------------------------
  // Every run
  // ---------------------------------------------------------------------

  ghost predicate StoreOk(s: Store) {
    WorldOk(s.floor.world) && TillOk(TillOf(s)) && Matched(TillOf(s))
  }

  /** A delivery is, for the request machine, a credit of the purchase's amount or nothing. */
  lemma DeliveryKeepsWorld(w: World, t: Till, e: StripeEvent)
    requires WorldOk(w) && t.ledger == w.books.ledger
    ensures WorldOk(WithLedger(w, Handle(t, e).till.ledger))
  {
    var ledger := Handle(t, e).till.ledger;
    if ledger == t.ledger {
      assert WithLedger(w, ledger) == w;
    } else {
      var p := t.purchases[e.session.value];
      assert ledger == t.ledger + [CreditEntry(p)] && p.amount >= MIN_PURCHASE_CENTS;
      var step := CreditPurchase(p.customer, p.amount);
      Requests.StepKeepsOk(w, step);
      assert WithLedger(w, ledger) == Requests.Next(w, step);
    }
  }

  lemma EventKeepsOk(s: Store, e: Event)
    requires StoreOk(s) && CanHappen(s, e)
    ensures StoreOk(After(s, e))
  {
    match e {
      case Market(move) =>
        RotationRuns.MoveKeepsOk(s.floor, move);
        MovePostsNoPurchase(s.floor, move);
        EntryKeepsTill(TillOf(s), BooksOf(After(s, e)).ledger);
        assert TillOf(After(s, e)) == TillOf(s).(ledger := BooksOf(After(s, e)).ledger);
      case StartPurchase(c, dollars) =>
        StartKeepsOk(TillOf(s), c, dollars);
        StartMatches(TillOf(s), c, dollars);
        assert WithLedger(s.floor.world, BooksOf(s).ledger) == s.floor.world;
      case StripeDelivery(event) =>
        DeliveryKeepsWorld(s.floor.world, TillOf(s), event);
        HandleKeepsOk(TillOf(s), event);
        HandleMatches(TillOf(s), event);
    }
  }

  datatype Run = Run(stores: seq<Store>, events: seq<Event>)

  ghost predicate EventAt(run: Run, i: nat)
    requires i < |run.events| && i + 1 < |run.stores|
  {
    StoreOk(run.stores[i]) ==>
      CanHappen(run.stores[i], run.events[i]) && run.stores[i + 1] == After(run.stores[i], run.events[i])
  }

  ghost predicate IsRun(run: Run) {
    && |run.stores| == |run.events| + 1
    && StoreOk(run.stores[0])
    && forall i :: 0 <= i < |run.events| ==> EventAt(run, i)
  }

  lemma {:induction false} RunKeepsOk(run: Run, i: nat)
    requires IsRun(run) && i < |run.stores|
    ensures StoreOk(run.stores[i])
  {
    if i > 0 {
      RunKeepsOk(run, i - 1);
      assert EventAt(run, i - 1);
      EventKeepsOk(run.stores[i - 1], run.events[i - 1]);
    }
  }

  /**
   In every state of every run a wallet's balance is its completed purchases
   plus its adjustments less its captured holds, and what is available never
   falls below what administrators took out.
   */
  lemma WalletSafeInEveryRun(run: Run, i: nat, c: CustomerId)
    requires IsRun(run) && i < |run.stores|
    ensures var s := run.stores[i]; var b := BooksOf(s);
      && Balance(b, c) == CompletedTotal(s.purchases, c) + KindTotal(b, c, AdminAdjustment) - HoldTotal(b, c, Captured)
      && Available(b, c) >= Debits(b, c)
  {
    RunKeepsOk(run, i);
    var s := run.stores[i];
    assert WalletOk(s.floor.world, c) && Conserved(s.floor.world, c);
    assert CompletedTotal(s.purchases, c) == CreditTotal(BooksOf(s).ledger, c);
  }

  /**
   And every Checkout session has one credit of its amount if it completed, none otherwise, among
   all other entries.
   */
  lemma CreditedOnceInEveryRun(run: Run, i: nat, p: nat)
    requires IsRun(run) && i < |run.stores| && p < |run.stores[i].purchases|
    ensures var t := TillOf(run.stores[i]);
      && |CreditsOf(t, p)| == (if t.purchases[p].status == Completed then 1 else 0)
      && forall k :: k in CreditsOf(t, p) ==> t.ledger[k] == CreditEntry(t.purchases[p])
  {
    RunKeepsOk(run, i);
    CreditedAtMostOnce(TillOf(run.stores[i]), [], p);
  }

  // ---------------------------------------------------------------------
  // A settlement reaches the wallet
  // ---------------------------------------------------------------------

  /** Sessions and receipts are only added, and a completed session is final. */
  ghost predicate Grows(s: Store, t: Store) {
    && s.receipts <= t.receipts
    && |s.purchases| <= |t.purchases|
    && forall p :: 0 <= p < |s.purchases| && s.purchases[p].status == Completed ==> t.purchases[p] == s.purchases[p]
  }

  lemma EventGrows(s: Store, e: Event)
    requires WorldOk(s.floor.world) && CanHappen(s, e)
    ensures Grows(s, After(s, e))
  {
    if e.StripeDelivery? {
      HandleAdvances(TillOf(s), e.event);
    }
  }

  lemma {:induction false} RunGrows(run: Run, i: nat, j: nat)
    requires IsRun(run) && i <= j < |run.stores|
    ensures Grows(run.stores[i], run.stores[j])
    decreases j
  {
    if i < j {
      RunGrows(run, i, j - 1);
      RunKeepsOk(run, j - 1);
      assert EventAt(run, j - 1);
      EventGrows(run.stores[j - 1], run.events[j - 1]);
    }
  }

  /** Stripe ids name events, over all deliveries of the run. */
  ghost predicate IdsNameDeliveries(run: Run) {
    forall i, j :: 0 <= i < |run.events| && 0 <= j < |run.events| && SameId(run.events[i], run.events[j]) ==>
      run.events[i] == run.events[j]
  }

  predicate SameId(a: Event, b: Event) {
    a.StripeDelivery? && b.StripeDelivery? && a.event.id == b.event.id
  }

  ghost predicate DeliveredAt(run: Run, j: nat, e: StripeEvent) {
    j < |run.events| && run.events[j] == StripeDelivery(e)
  }

  lemma EventReceipts(s: Store, e: Event, id: nat)
    requires WorldOk(s.floor.world) && CanHappen(s, e) && id in After(s, e).receipts && id !in s.receipts
    ensures e.StripeDelivery? && e.event.id == id
  {
  }

  /** A receipt was left by a delivery of the run. */
  lemma {:induction false} ReceiptHasDelivery(run: Run, i: nat, id: nat) returns (j: nat)
    requires IsRun(run) && i < |run.stores| && id in run.stores[i].receipts && id !in run.stores[0].receipts
    ensures j < i && run.events[j].StripeDelivery? && run.events[j].event.id == id
  {
    RunKeepsOk(run, i - 1);
    assert EventAt(run, i - 1);
    if id in run.stores[i - 1].receipts {
      j := ReceiptHasDelivery(run, i - 1, id);
    } else {
      j := i - 1;
      EventReceipts(run.stores[j], run.events[j], id);
    }
  }

  predicate IsSettlement(e: StripeEvent) {
    e.kind == AsyncSucceeded && e.session.Some?
  }

  /** The first delivery of a settlement completes its session exactly when the session is on record. */
  lemma FirstSettlementIff(s: Store, e: StripeEvent)
    requires StoreOk(s) && IsSettlement(e) && e.id !in s.receipts
    ensures var t, p := After(s, StripeDelivery(e)), e.session.value;
      (p < |t.purchases| && t.purchases[p].status == Completed) <==> p < |s.purchases|
  {
    if e.session.value < |s.purchases| {
      SettlementCompletes(TillOf(s), e);
    }
  }

  /**
   A late settlement delivered anywhere in a run, among market moves, new
   sessions, failures, expiries, completions and repeats, leaves its session
   completed and credited exactly once for the rest of the run. Its link is
   handed out after the session is recorded, so deliveries find it on record.
   */
  lemma {:induction false} SettlementWins(run: Run, e: StripeEvent, k: nat, i: nat)
    requires IsRun(run) && IdsNameDeliveries(run) && k < i < |run.stores|
    requires IsSettlement(e) && DeliveredAt(run, k, e) && e.id !in run.stores[0].receipts
    requires forall j: nat :: DeliveredAt(run, j, e) ==> e.session.value < |run.stores[j].purchases|
    ensures var t, p := TillOf(run.stores[i]), e.session.value;
      p < |t.purchases| && t.purchases[p].status == Completed && |CreditsOf(t, p)| == 1
    decreases k
  {
    var s := run.stores[k];
    RunKeepsOk(run, k);
    assert EventAt(run, k);
    if e.id in s.receipts {
      var j := ReceiptHasDelivery(run, k, e.id);
      assert DeliveredAt(run, j, e);
      SettlementWins(run, e, j, i);
    } else {
      FirstSettlementIff(s, e);
      RunGrows(run, k + 1, i);
      CreditedOnceInEveryRun(run, i, e.session.value);
    }
  }

  /** A marketplace with an empty ledger and no sessions is in order. */
  lemma EmptyOk(f: Floor)
    requires WorldOk(f.world) && f.world.books.ledger == []
    ensures StoreOk(Store(f, [], {}))
  {
    var t := TillOf(Store(f, [], {}));
    forall c ensures CompletedTotal(t.purchases, c) == CreditTotal(t.ledger, c) {
    }
  }
}
