/**
 Credit Purchases and the Stripe webhook (jawnix/billing.py,
 `complete_credit_purchase_for_session`, `close_credit_purchase_for_session`;
 jawnix/api.py, `stripe_billing_webhook`).
 */
module CreditPurchases {
  import opened Basics
  import opened History
  import opened Billing

  const MIN_PURCHASE_CENTS := 100

  datatype PurchaseStatus = InProcess | Completed | FailedPayment | Expired

  /** A Checkout top-up; its session id is its position. `entry` is its ledger entry. */
  datatype Purchase = Purchase(customer: CustomerId, amount: nat, status: PurchaseStatus, entry: Option<nat>)

  datatype Till = Till(purchases: seq<Purchase>, receipts: set<nat>, ledger: seq<Entry>)

  datatype EventKind = SessionCompleted | AsyncSucceeded | AsyncFailed | SessionExpired | OtherKind

  datatype StripeEvent = StripeEvent(id: nat, kind: EventKind, session: Option<nat>, paid: bool)

  datatype Reply = Accepted | Duplicate | Ignored | PendingPayment | Refused

  predicate ShouldCredit(e: StripeEvent) {
    e.kind == AsyncSucceeded || (e.kind == SessionCompleted && e.paid)
  }

  function CreditEntry(p: Purchase): Entry {
    Entry(p.customer, Purchased, p.amount, None)
  }

  /** The statuses a completion is allowed from. */
  predicate MayComplete(p: Purchase, late: bool) {
    p.status == InProcess || (late && p.status in {FailedPayment, Expired})
  }

  function Credited(t: Till, s: nat): Till
    requires s < |t.purchases|
  {
    t.(ledger := t.ledger + [CreditEntry(t.purchases[s])],
       purchases := t.purchases[s := t.purchases[s].(status := Completed, entry := Some(|t.ledger|))])
  }

  function Closed(t: Till, s: nat, status: PurchaseStatus): Till
    requires s < |t.purchases|
  {
    if t.purchases[s].status != InProcess then t
    else t.(purchases := t.purchases[s := t.purchases[s].(status := status)])
  }

  datatype Answer = Answer(till: Till, reply: Reply)

  /** One delivery of a webhook. A refusal rolls back its receipt too. */
  function Handle(t: Till, e: StripeEvent): Answer {
    if e.id in t.receipts then Answer(t, Duplicate)
    else
      var u := t.(receipts := t.receipts + {e.id});
      if e.kind == OtherKind || e.session.None? then Answer(u, Ignored)
      else
        var s := e.session.value;
        if ShouldCredit(e) then
          if s >= |t.purchases| then Answer(u, Ignored)
          else if t.purchases[s].status == Completed then Answer(u, Accepted)
          else if !MayComplete(t.purchases[s], e.kind == AsyncSucceeded) then Answer(t, Refused)
          else if t.purchases[s].amount < MIN_PURCHASE_CENTS then Answer(t, Refused)
          else Answer(Credited(u, s), Accepted)
        else if e.kind == SessionCompleted then Answer(u, PendingPayment)
        else if s >= |t.purchases| then Answer(u, Ignored)
        else Answer(Closed(u, s, if e.kind == AsyncFailed then FailedPayment else Expired), Accepted)
  }

  function HandleAll(t: Till, es: seq<StripeEvent>): Till {
    if es == [] then t else Handle(HandleAll(t, es[..|es| - 1]), es[|es| - 1]).till
  }

  /** `start_credit_purchase`: whole dollars, at least one, recorded as processing. */
  function Started(t: Till, c: CustomerId, dollars: int): Till {
    if dollars < 1 then t else t.(purchases := t.purchases + [Purchase(c, dollars * 100, InProcess, None)])
  }

  // ---------------------------------------------------------------------
  // The invariant: completed purchases and purchase credits correspond one to one
  // ---------------------------------------------------------------------

  ghost predicate PurchaseOk(t: Till, s: nat)
    requires s < |t.purchases|
  {
    var p := t.purchases[s];
    && p.amount >= MIN_PURCHASE_CENTS
    && (p.status == Completed <==> p.entry.Some?)
    && (p.entry.Some? ==> p.entry.value < |t.ledger| && t.ledger[p.entry.value] == CreditEntry(p))
  }

  /** Some purchase was credited by ledger entry `i`. */
  ghost predicate CreditedBy(t: Till, s: nat, i: nat) {
    s < |t.purchases| && t.purchases[s].entry == Some(i)
  }

  ghost predicate TillOk(t: Till) {
    && (forall s :: 0 <= s < |t.purchases| ==> PurchaseOk(t, s))
    && (forall a, b, i :: CreditedBy(t, a, i) && CreditedBy(t, b, i) ==> a == b)
    && (forall i :: 0 <= i < |t.ledger| && t.ledger[i].kind == Purchased ==> exists s :: CreditedBy(t, s, i))
  }

  lemma CreditKeepsOk(t: Till, s: nat)
    requires TillOk(t) && s < |t.purchases| && t.purchases[s].status != Completed
    ensures TillOk(Credited(t, s))
  {
    var u := Credited(t, s);
    assert PurchaseOk(t, s);
    forall a | 0 <= a < |u.purchases| ensures PurchaseOk(u, a) {
      assert PurchaseOk(t, a);
    }
    forall a, b, i | CreditedBy(u, a, i) && CreditedBy(u, b, i) ensures a == b {
      assert PurchaseOk(t, a) && PurchaseOk(t, b);
      assert a != s ==> CreditedBy(t, a, i);
      assert b != s ==> CreditedBy(t, b, i);
    }
    forall i | 0 <= i < |u.ledger| && u.ledger[i].kind == Purchased ensures exists a :: CreditedBy(u, a, i) {
      if i < |t.ledger| {
        var a :| CreditedBy(t, a, i);
        assert a != s;
        assert CreditedBy(u, a, i);
      } else {
        assert CreditedBy(u, s, i);
      }
    }
  }

  /** A till with the same ledger whose purchases differ in open statuses only. */
  lemma StatusKeepsOk(t: Till, u: Till)
    requires TillOk(t) && u.ledger == t.ledger && |u.purchases| == |t.purchases|
    requires forall s :: 0 <= s < |t.purchases| ==>
      && u.purchases[s] == t.purchases[s].(status := u.purchases[s].status)
      && (u.purchases[s].status == Completed <==> t.purchases[s].status == Completed)
    ensures TillOk(u)
  {
    forall s | 0 <= s < |u.purchases| ensures PurchaseOk(u, s) {
      assert PurchaseOk(t, s);
    }
    forall a, b, i | CreditedBy(u, a, i) && CreditedBy(u, b, i) ensures a == b {
      assert CreditedBy(t, a, i) && CreditedBy(t, b, i);
    }
    forall i | 0 <= i < |u.ledger| && u.ledger[i].kind == Purchased ensures exists a :: CreditedBy(u, a, i) {
      var a :| CreditedBy(t, a, i);
      assert CreditedBy(u, a, i);
    }
  }

  lemma StartKeepsOk(t: Till, c: CustomerId, dollars: int)
    requires TillOk(t)
    ensures TillOk(Started(t, c, dollars))
  {
    var u := Started(t, c, dollars);
    forall s | 0 <= s < |u.purchases| ensures PurchaseOk(u, s) {
      assert s < |t.purchases| ==> PurchaseOk(t, s);
    }
    forall a, b, i | CreditedBy(u, a, i) && CreditedBy(u, b, i) ensures a == b {
      assert CreditedBy(t, a, i) && CreditedBy(t, b, i);
    }
    forall i | 0 <= i < |u.ledger| && u.ledger[i].kind == Purchased ensures exists a :: CreditedBy(u, a, i) {
      var a :| CreditedBy(t, a, i);
      assert CreditedBy(u, a, i);
    }
  }

  lemma HandleKeepsOk(t: Till, e: StripeEvent)
    requires TillOk(t)
    ensures TillOk(Handle(t, e).till)
  {
    var u := t.(receipts := t.receipts + {e.id});
    StatusKeepsOk(t, u);
    if e.session.Some? && e.session.value < |t.purchases| {
      var s := e.session.value;
      if t.purchases[s].status != Completed {
        CreditKeepsOk(u, s);
      }
      StatusKeepsOk(u, Closed(u, s, FailedPayment));
      StatusKeepsOk(u, Closed(u, s, Expired));
    }
  }

  // ---------------------------------------------------------------------
  // Any order, any repetition
  // ---------------------------------------------------------------------

  /** A credit is never undone, entries are only added, and each delivery adds at most one. */
  ghost predicate Advances(t: Till, u: Till) {
    && t.ledger <= u.ledger
    && t.receipts <= u.receipts
    && |u.purchases| == |t.purchases|
    && forall s :: 0 <= s < |t.purchases| ==>
         && u.purchases[s].customer == t.purchases[s].customer
         && u.purchases[s].amount == t.purchases[s].amount
         && (t.purchases[s].status == Completed ==> u.purchases[s] == t.purchases[s])
  }

  lemma HandleAdvances(t: Till, e: StripeEvent)
    ensures Advances(t, Handle(t, e).till)
    ensures var u := Handle(t, e).till;
      u.ledger == t.ledger || exists s :: 0 <= s < |t.purchases| && u.ledger == t.ledger + [CreditEntry(t.purchases[s])]
  {
  }

  lemma {:induction false} HandleAllAdvances(t: Till, es: seq<StripeEvent>, k: nat)
    requires k <= |es|
    ensures Advances(HandleAll(t, es[..k]), HandleAll(t, es))
    decreases |es| - k
  {
    if k == |es| {
      assert es[..k] == es;
    } else {
      HandleAllAdvances(t, es, k + 1);
      assert es[..k + 1][..k] == es[..k];
      HandleAdvances(HandleAll(t, es[..k]), es[k]);
    }
  }

  lemma {:induction false} HandleAllKeepsOk(t: Till, es: seq<StripeEvent>)
    requires TillOk(t)
    ensures TillOk(HandleAll(t, es))
  {
    if es != [] {
      HandleAllKeepsOk(t, es[..|es| - 1]);
      HandleKeepsOk(HandleAll(t, es[..|es| - 1]), es[|es| - 1]);
    }
  }

  /** The ledger entries that credit session `s`. */
  ghost function CreditsOf(t: Till, s: nat): set<nat> {
    set i | 0 <= i < |t.ledger| && CreditedBy(t, s, i)
  }

  /** After any deliveries in any order a purchase has one credit if it is completed, and none otherwise. */
  lemma CreditedAtMostOnce(t: Till, es: seq<StripeEvent>, s: nat)
    requires TillOk(t) && s < |t.purchases|
    ensures var u := HandleAll(t, es);
      && s < |u.purchases|
      && |CreditsOf(u, s)| == (if u.purchases[s].status == Completed then 1 else 0)
      && (forall i :: i in CreditsOf(u, s) ==> u.ledger[i] == CreditEntry(t.purchases[s]))
  {
    HandleAllKeepsOk(t, es);
    HandleAllAdvances(t, es, 0);
    assert es[..0] == [];
    var u := HandleAll(t, es);
    assert PurchaseOk(u, s);
    if u.purchases[s].status == Completed {
      assert CreditsOf(u, s) == {u.purchases[s].entry.value};
    } else {
      assert CreditsOf(u, s) == {};
    }
  }

  /** Stripe ids name events: equal ids, equal events. */
  ghost predicate IdsNameEvents(es: seq<StripeEvent>) {
    forall i, j :: 0 <= i < |es| && 0 <= j < |es| && es[i].id == es[j].id ==> es[i] == es[j]
  }

  /** A late settlement, delivered for the first time, always completes its purchase. */
  lemma SettlementCompletes(t: Till, e: StripeEvent)
    requires TillOk(t) && e.kind == AsyncSucceeded && e.session.Some? && e.session.value < |t.purchases|
    requires e.id !in t.receipts
    ensures Handle(t, e).till.purchases[e.session.value].status == Completed
  {
    assert PurchaseOk(t, e.session.value);
  }

  /** A receipt that was not there at the start was left by an event of the sequence. */
  lemma {:induction false} ReceiptsAreEvents(t: Till, es: seq<StripeEvent>, id: nat)
    requires id in HandleAll(t, es).receipts && id !in t.receipts
    ensures exists i :: 0 <= i < |es| && es[i].id == id
  {
    if es != [] {
      var init := es[..|es| - 1];
      if id in HandleAll(t, init).receipts {
        ReceiptsAreEvents(t, init, id);
        var i :| 0 <= i < |init| && init[i].id == id;
        assert es[i].id == id;
      } else {
        assert es[|es| - 1].id == id;
      }
    }
  }

  /**
   If a late settlement occurs anywhere among failures, expiries, completions
   and repeats, the purchase ends completed and credited exactly once.
   */
  lemma {:induction false} LateSettlementWins(t: Till, es: seq<StripeEvent>, k: nat)
    requires TillOk(t) && IdsNameEvents(es) && k < |es|
    requires es[k].kind == AsyncSucceeded && es[k].session.Some? && es[k].session.value < |t.purchases|
    requires es[k].id !in t.receipts
    ensures es[k].session.value < |HandleAll(t, es).purchases|
    ensures HandleAll(t, es).purchases[es[k].session.value].status == Completed
    ensures |CreditsOf(HandleAll(t, es), es[k].session.value)| == 1
    decreases k
  {
    var s := es[k].session.value;
    CreditedAtMostOnce(t, es, s);
    var before := HandleAll(t, es[..k]);
    HandleAllKeepsOk(t, es[..k]);
    HandleAllAdvances(t, es[..k], 0);
    assert es[..k][..0] == [];
    if es[k].id in before.receipts {
      ReceiptsAreEvents(t, es[..k], es[k].id);
      var j :| 0 <= j < k && es[..k][j].id == es[k].id;
      assert es[j] == es[k];
      LateSettlementWins(t, es, j);
    } else {
      SettlementCompletes(before, es[k]);
      assert es[..k + 1][..k] == es[..k];
      HandleAllAdvances(t, es, k + 1);
    }
  }

  // ---------------------------------------------------------------------
  // The handlers as they run
  // ---------------------------------------------------------------------

  class StripeDesk {
    var purchases: seq<Purchase>
    var receipts: set<nat>
    var ledger: seq<Entry>

    ghost function View(): Till
      reads this
    {
      Till(purchases, receipts, ledger)
    }

    /** `complete_credit_purchase_for_session` */
    method Complete(s: nat, late: bool) returns (refused: bool)
      requires s < |purchases|
      modifies this`purchases, this`ledger
      ensures refused <==>
        && old(purchases[s]).status != Completed
        && (!MayComplete(old(purchases[s]), late) || old(purchases[s]).amount < MIN_PURCHASE_CENTS)
      ensures View() == (if refused || old(purchases[s]).status == Completed then old(View())
        else Credited(old(View()), s))
    {
      var p := purchases[s];
      if p.status == Completed {
        return false;
      }
      if p.status != InProcess && !(late && (p.status == FailedPayment || p.status == Expired)) {
        return true;
      }
      if p.amount < MIN_PURCHASE_CENTS {
        return true;
      }
      ledger := ledger + [Entry(p.customer, Purchased, p.amount, None)];
      purchases := purchases[s := p.(status := Completed, entry := Some(|ledger| - 1))];
      return false;
    }

    /** `stripe_billing_webhook` */
    method Webhook(e: StripeEvent) returns (reply: Reply)
      modifies this
      ensures View() == Handle(old(View()), e).till && reply == Handle(old(View()), e).reply
    {
      if e.id in receipts {
        return Duplicate;
      }
      var seen := receipts;
      receipts := receipts + {e.id};
      if e.kind == OtherKind || e.session.None? {
        return Ignored;
      }
      var s := e.session.value;
      if e.kind == AsyncSucceeded || (e.kind == SessionCompleted && e.paid) {
        if s >= |purchases| {
          return Ignored;
        }
        var refused := Complete(s, e.kind == AsyncSucceeded);
        if refused {
          // The transaction rolls back, so Stripe may deliver the event again.
          receipts := seen;
          return Refused;
        }
        return Accepted;
      }
      if e.kind == SessionCompleted {
        return PendingPayment;
      }
      if s >= |purchases| {
        return Ignored;
      }
      if purchases[s].status == InProcess {
        purchases := purchases[s := purchases[s].(status := if e.kind == AsyncFailed then FailedPayment else Expired)];
      }
      return Accepted;
    }
  }
}
