/**
 User Accounts of durable Customers (jawnix/customer_accounts.py).

 A Customer is durable, a User Account is replaceable authentication. Inviting
 prepares a swap and signing in performs it. The module proves that in every
 run a Customer has at most one active account, that an invited identity is
 active nowhere until it accepts, and that accepting never takes another
 Customer's access away.
 */
module CustomerAccounts {
  import opened Basics

  type CustomerId = nat
  type Identity = nat

  datatype Customer = Customer(active: bool, deleted: bool)
  datatype Account = Account(identity: Identity, customer: Option<CustomerId>, active: bool,
                             replacedBy: Option<Identity>)
  datatype Status = Pending | Accepted | Canceled
  datatype Invitation = Invitation(customer: CustomerId, identity: Identity, status: Status, former: Identity)

  /**
   `profiles` holds the Customer each authentication identity is mapped to, `erased` the
   Customers with a tombstone.
   */
  datatype Access = Access(customers: map<CustomerId, Customer>, accounts: seq<Account>,
                           invitations: seq<Invitation>, profiles: map<Identity, CustomerId>, erased: set<CustomerId>)

  datatype Guard = NotFound | InactiveCustomer | AccountInUse | InvitedElsewhere | PendingInvitation | MissingCustomer

  datatype Reply =
    | Conflict(guard: Guard)
    | Activated
    | Invited(invitation: nat)
    | Accepting(invitation: nat)
    | Withdrawn(invitation: nat)
    | Nothing

  /** A refused change is rolled back, so it leaves the state alone. */
  datatype Result = Result(state: Access, reply: Reply)

  // ---------------------------------------------------------------------
  // Queries
  // ---------------------------------------------------------------------

  /** The first row that satisfies `p`. */
  function First<T>(xs: seq<T>, p: T -> bool): (r: Option<nat>)
    ensures r.Some? ==> r.value < |xs| && p(xs[r.value]) && forall i :: 0 <= i < r.value ==> !p(xs[i])
    ensures r.None? ==> forall i :: 0 <= i < |xs| ==> !p(xs[i])
  {
    if xs == [] then None
    else if p(xs[0]) then Some(0)
    else match First(xs[1..], p)
      case None => None
      case Some(i) => Some(i + 1)
  }

  function Holding(c: CustomerId): Account -> bool {
    (a: Account) => a.active && a.customer == Some(c)
  }

  function Named(u: Identity): Account -> bool {
    (a: Account) => a.identity == u
  }

  function PendingFor(c: CustomerId): Invitation -> bool {
    (i: Invitation) => i.status == Pending && i.customer == c
  }

  function PendingOf(u: Identity): Invitation -> bool {
    (i: Invitation) => i.status == Pending && i.identity == u
  }

  function PendingElsewhere(u: Identity, c: CustomerId): Invitation -> bool {
    (i: Invitation) => i.status == Pending && i.identity == u && i.customer != c
  }

  /** The identity of the Customer's active account, if it has one. */
  function Holder(s: Access, c: CustomerId): Option<Identity> {
    match First(s.accounts, Holding(c))
    case None => None
    case Some(i) => Some(s.accounts[i].identity)
  }

  // ---------------------------------------------------------------------
  // Changes
  // ---------------------------------------------------------------------

  /** `_refuse_foreign_account` */
  function ForeignGuard(s: Access, u: Identity, c: CustomerId): Option<Guard> {
    var a := First(s.accounts, Named(u));
    if a.Some? && Serves(s.accounts[a.value]) && s.accounts[a.value].customer != Some(c) then Some(AccountInUse)
    else if First(s.invitations, PendingElsewhere(u, c)).Some? then Some(InvitedElsewhere)
    else None
  }

  function WithAccount(xs: seq<Account>, c: CustomerId, u: Identity): seq<Account> {
    match First(xs, Named(u))
    case None => xs + [Account(u, Some(c), true, None)]
    case Some(i) => xs[i := Account(u, Some(c), true, None)]
  }

  /** `_activate` */
  function Activate(s: Access, c: CustomerId, u: Identity): Access {
    s.(accounts := WithAccount(s.accounts, c, u), profiles := s.profiles[u := c])
  }

  /** The accounts of `c` other than `u`'s are retired in favour of `u`. */
  function Retired(a: Account, c: CustomerId, u: Identity): Account {
    if a.active && a.customer == Some(c) && a.identity != u then a.(active := false, replacedBy := Some(u)) else a
  }

  function RetireAll(xs: seq<Account>, c: CustomerId, u: Identity): seq<Account> {
    seq(|xs|, i requires 0 <= i < |xs| => Retired(xs[i], c, u))
  }

  /** `invite_user_account` */
  function Invite(s: Access, c: CustomerId, u: Identity): Result {
    if c !in s.customers then Result(s, Conflict(NotFound))
    else if s.customers[c].deleted || !s.customers[c].active then Result(s, Conflict(InactiveCustomer))
    else if ForeignGuard(s, u, c).Some? then Result(s, Conflict(ForeignGuard(s, u, c).value))
    else
      var current, outstanding := Holder(s, c), First(s.invitations, PendingFor(c));
      if current == Some(u) then Result(s.(profiles := s.profiles[u := c]), Activated)
      else if outstanding.Some? then
        if s.invitations[outstanding.value].identity == u then Result(s, Invited(outstanding.value))
        else Result(s, Conflict(PendingInvitation))
      else if current.None? then Result(Activate(s, c, u), Activated)
      else
        var invitation := Invitation(c, u, Pending, current.value);
        Result(s.(invitations := s.invitations + [invitation]), Invited(|s.invitations|))
  }

  /** `accept_user_account_invitation` */
  function Accept(s: Access, u: Identity): Result {
    match First(s.invitations, PendingOf(u))
    case None => Result(s, Nothing)
    case Some(i) =>
      var c := s.invitations[i].customer;
      if c !in s.customers || s.customers[c].deleted then Result(s, Conflict(MissingCustomer))
      else if !s.customers[c].active then Result(s, Conflict(InactiveCustomer))
      else
        var swapped := Activate(s.(accounts := RetireAll(s.accounts, c, u)), c, u);
        Result(swapped.(invitations := s.invitations[i := s.invitations[i].(status := Accepted)]), Accepting(i))
  }

  /** `cancel_user_account_invitation` */
  function Cancel(s: Access, c: CustomerId): Result {
    match First(s.invitations, PendingFor(c))
    case None => Result(s, Nothing)
    case Some(i) => Result(s.(invitations := s.invitations[i := s.invitations[i].(status := Canceled)]), Withdrawn(i))
  }

  /** `activate_registered_user_account` */
  function Register(s: Access, c: CustomerId, u: Identity): Result {
    if ForeignGuard(s, u, c).Some? then Result(s, Conflict(ForeignGuard(s, u, c).value))
    else if Holder(s, c).Some? || First(s.invitations, PendingFor(c)).Some? then Result(s, Conflict(AccountInUse))
    else Result(Activate(s, c, u), Activated)
  }

  /** Signing in accepts an invitation, or adopts a mapped Customer that nobody can reach. */
  function SignIn(s: Access, u: Identity): Access {
    var accepted := Accept(s, u);
    if accepted.reply != Nothing then accepted.state
    else if First(s.accounts, Named(u)).Some? || u !in s.profiles || Holder(s, s.profiles[u]).Some? then s
    else s.(accounts := s.accounts + [Account(u, Some(s.profiles[u]), true, None)])
  }

  function Closed(xs: seq<Account>, c: CustomerId): seq<Account> {
    seq(|xs|, i requires 0 <= i < |xs| => if xs[i].customer == Some(c) then xs[i].(active := false) else xs[i])
  }

  /** `delete_customer` without hard deletion. */
  function SoftDelete(s: Access, c: CustomerId): Access {
    if c !in s.customers || s.customers[c].deleted || s.customers[c].active then s
    else Cancel(s, c).state.(accounts := Closed(s.accounts, c), customers := s.customers[c := Customer(false, true)],
                             profiles := map u | u in s.profiles && s.profiles[u] != c :: s.profiles[u])
  }

  function Dropped(ns: seq<Invitation>, c: CustomerId): seq<Invitation> {
    seq(|ns|, i requires 0 <= i < |ns| => if PendingFor(c)(ns[i]) then ns[i].(status := Canceled) else ns[i])
  }

  /** `erase_customer_personal_data`: profiles stay mapped, everything that gives access is closed. */
  function Erase(s: Access, c: CustomerId): Access {
    if c !in s.customers || s.customers[c].active || c in s.erased then s
    else s.(accounts := Closed(s.accounts, c), invitations := Dropped(s.invitations, c),
            customers := s.customers[c := Customer(false, true)], erased := s.erased + {c})
  }

  // ---------------------------------------------------------------------
  // Runs
  // ---------------------------------------------------------------------

  datatype Step =
    | DoInvite(customer: CustomerId, identity: Identity)
    | DoSignIn(identity: Identity)
    | DoCancel(customer: CustomerId)
    | DoRegister(customer: CustomerId, identity: Identity)
    | DoDelete(customer: CustomerId)
    | DoErase(customer: CustomerId)
    | DoSetCustomer(customer: CustomerId, value: Customer)
    | DoMapProfile(identity: Identity, target: Option<CustomerId>)

  function Next(s: Access, t: Step): Access {
    match t
    case DoInvite(c, u) => Invite(s, c, u).state
    case DoSignIn(u) => SignIn(s, u)
    case DoCancel(c) => Cancel(s, c).state
    case DoRegister(c, u) => Register(s, c, u).state
    case DoDelete(c) => SoftDelete(s, c)
    case DoErase(c) => Erase(s, c)
    case DoSetCustomer(c, v) => s.(customers := s.customers[c := v])
    case DoMapProfile(u, c) => s.(profiles := if c.Some? then s.profiles[u := c.value] else s.profiles - {u})
  }

  function After(ts: seq<Step>): Access {
    if ts == [] then Access(map[], [], [], map[], {}) else Next(After(ts[..|ts| - 1]), ts[|ts| - 1])
  }

  // ---------------------------------------------------------------------
  // Invariants
  // ---------------------------------------------------------------------

  /** One row per identity. */
  ghost predicate KeysUnique(xs: seq<Account>) {
    forall i, j :: 0 <= i < |xs| && 0 <= j < |xs| && xs[i].identity == xs[j].identity ==> i == j
  }

  predicate Serves(a: Account) {
    a.active && a.customer.Some?
  }

  predicate SameServed(a: Account, b: Account) {
    Serves(a) && Serves(b) && a.customer == b.customer
  }

  /** At most one active account per Customer. */
  ghost predicate OneHolder(xs: seq<Account>) {
    forall i, j :: 0 <= i < |xs| && 0 <= j < |xs| && SameServed(xs[i], xs[j]) ==> i == j
  }

  predicate Clash(a: Invitation, b: Invitation) {
    a.status == Pending && b.status == Pending && (a.customer == b.customer || a.identity == b.identity)
  }

  /** At most one outstanding invitation per Customer, and per identity. */
  ghost predicate OnePending(ns: seq<Invitation>) {
    forall i, j :: 0 <= i < |ns| && 0 <= j < |ns| && Clash(ns[i], ns[j]) ==> i == j
  }

  /** An invited identity is not yet anybody's active account. */
  ghost predicate InvitedIdle(xs: seq<Account>, ns: seq<Invitation>) {
    forall i, j :: 0 <= i < |ns| && 0 <= j < |xs| && ns[i].status == Pending && xs[j].identity == ns[i].identity ==>
      !Serves(xs[j])
  }

  ghost predicate AccessOk(s: Access) {
    && KeysUnique(s.accounts)
    && OneHolder(s.accounts)
    && OnePending(s.invitations)
    && InvitedIdle(s.accounts, s.invitations)
  }

  // ---------------------------------------------------------------------
  // Every step keeps them
  // ---------------------------------------------------------------------

  /** Nobody else holds `c`, and `u` serves no other Customer. */
  ghost predicate Vacant(xs: seq<Account>, c: CustomerId, u: Identity) {
    && (forall j :: 0 <= j < |xs| && xs[j].active && xs[j].customer == Some(c) ==> xs[j].identity == u)
    && (forall j :: 0 <= j < |xs| && Serves(xs[j]) && xs[j].identity == u ==> xs[j].customer == Some(c))
  }

  lemma ActivateFacts(xs: seq<Account>, c: CustomerId, u: Identity)
    requires KeysUnique(xs) && OneHolder(xs) && Vacant(xs, c, u)
    ensures KeysUnique(WithAccount(xs, c, u)) && OneHolder(WithAccount(xs, c, u))
    ensures forall j :: 0 <= j < |WithAccount(xs, c, u)| && WithAccount(xs, c, u)[j].identity != u ==>
      j < |xs| && WithAccount(xs, c, u)[j] == xs[j]
  {
  }

  lemma RetireFacts(xs: seq<Account>, c: CustomerId, u: Identity)
    requires KeysUnique(xs) && OneHolder(xs)
    ensures KeysUnique(RetireAll(xs, c, u)) && OneHolder(RetireAll(xs, c, u))
    ensures forall j :: 0 <= j < |xs| && Holding(c)(RetireAll(xs, c, u)[j]) ==> xs[j].identity == u
  {
  }

  /** Who holds a Customer, read off any row that says so. */
  lemma HolderIs(s: Access, c: CustomerId, j: nat)
    requires OneHolder(s.accounts) && j < |s.accounts| && s.accounts[j].active && s.accounts[j].customer == Some(c)
    ensures Holder(s, c) == Some(s.accounts[j].identity)
  {
  }

  lemma ForeignGuardMeans(s: Access, u: Identity, c: CustomerId)
    requires KeysUnique(s.accounts) && ForeignGuard(s, u, c).None?
    ensures forall j :: 0 <= j < |s.accounts| && Serves(s.accounts[j]) && s.accounts[j].identity == u ==>
      s.accounts[j].customer == Some(c)
    ensures forall i :: 0 <= i < |s.invitations| && PendingOf(u)(s.invitations[i]) ==> s.invitations[i].customer == c
  {
    forall i | 0 <= i < |s.invitations| && s.invitations[i].status == Pending && s.invitations[i].identity == u
      ensures s.invitations[i].customer == c
    {
      assert !PendingElsewhere(u, c)(s.invitations[i]);
    }
  }

  lemma NoHolder(s: Access, c: CustomerId)
    requires Holder(s, c).None?
    ensures forall j :: 0 <= j < |s.accounts| ==> !(s.accounts[j].active && s.accounts[j].customer == Some(c))
  {
    forall j | 0 <= j < |s.accounts| ensures !(s.accounts[j].active && s.accounts[j].customer == Some(c)) {
      assert !Holding(c)(s.accounts[j]);
    }
  }

  lemma NoPending(s: Access, c: CustomerId)
    requires First(s.invitations, PendingFor(c)).None?
    ensures forall i :: 0 <= i < |s.invitations| && s.invitations[i].status == Pending ==>
      s.invitations[i].customer != c
  {
    forall i | 0 <= i < |s.invitations| && s.invitations[i].status == Pending ensures s.invitations[i].customer != c {
      assert !PendingFor(c)(s.invitations[i]);
    }
  }

  lemma ActivateOk(s: Access, c: CustomerId, u: Identity)
    requires AccessOk(s) && Holder(s, c).None? && First(s.invitations, PendingFor(c)).None?
    requires ForeignGuard(s, u, c).None?
    ensures AccessOk(Activate(s, c, u))
  {
    ForeignGuardMeans(s, u, c);
    NoHolder(s, c);
    NoPending(s, c);
    ActivateFacts(s.accounts, c, u);
  }

  lemma InviteOk(s: Access, c: CustomerId, u: Identity)
    requires AccessOk(s)
    ensures AccessOk(Invite(s, c, u).state)
  {
    var r := Invite(s, c, u);
    if r.reply == Invited(|s.invitations|) {
      ForeignGuardMeans(s, u, c);
      NoPending(s, c);
      forall j | 0 <= j < |s.accounts| && s.accounts[j].identity == u ensures !Serves(s.accounts[j]) {
        if Serves(s.accounts[j]) {
          HolderIs(s, c, j);
        }
      }
    } else if r.reply == Activated && Holder(s, c) != Some(u) {
      ActivateOk(s, c, u);
    }
  }

  lemma RegisterOk(s: Access, c: CustomerId, u: Identity)
    requires AccessOk(s)
    ensures AccessOk(Register(s, c, u).state)
  {
    if Register(s, c, u).reply == Activated {
      ActivateOk(s, c, u);
    }
  }

  lemma AcceptOk(s: Access, u: Identity)
    requires AccessOk(s)
    ensures AccessOk(Accept(s, u).state)
  {
    var r := Accept(s, u);
    if r.reply.Accepting? {
      var c := s.invitations[r.reply.invitation].customer;
      RetireFacts(s.accounts, c, u);
      var xs := RetireAll(s.accounts, c, u);
      assert Vacant(xs, c, u);
      ActivateFacts(xs, c, u);
    }
  }

  lemma SignInOk(s: Access, u: Identity)
    requires AccessOk(s)
    ensures AccessOk(SignIn(s, u))
  {
    AcceptOk(s, u);
    if Accept(s, u).reply == Nothing && SignIn(s, u) != s {
      var c := s.profiles[u];
      NoHolder(s, c);
      forall i | 0 <= i < |s.invitations| && s.invitations[i].status == Pending ensures s.invitations[i].identity != u {
        assert !PendingOf(u)(s.invitations[i]);
      }
      forall j | 0 <= j < |s.accounts| ensures s.accounts[j].identity != u {
        assert !Named(u)(s.accounts[j]);
      }
    }
  }

  lemma EraseOk(s: Access, c: CustomerId)
    requires AccessOk(s)
    ensures AccessOk(Erase(s, c))
  {
    var t := Erase(s, c);
    if t != s {
      assert KeysUnique(t.accounts) && OneHolder(t.accounts);
      var ns := t.invitations;
      forall i, j | 0 <= i < |ns| && 0 <= j < |ns| && Clash(ns[i], ns[j]) ensures i == j {
        assert Clash(s.invitations[i], s.invitations[j]);
      }
    }
  }

  lemma StepKeepsOk(s: Access, t: Step)
    requires AccessOk(s)
    ensures AccessOk(Next(s, t))
  {
    match t
    case DoInvite(c, u) => InviteOk(s, c, u);
    case DoSignIn(u) => SignInOk(s, u);
    case DoCancel(c) =>
    case DoRegister(c, u) => RegisterOk(s, c, u);
    case DoDelete(c) =>
    case DoErase(c) => EraseOk(s, c);
    case DoSetCustomer(_, _) =>
    case DoMapProfile(_, _) =>
  }

  /** In every run each Customer has at most one active account and one invitation, and invited identities are idle. */
  lemma {:induction false} RunKeepsOk(ts: seq<Step>)
    ensures AccessOk(After(ts))
  {
    if ts != [] {
      RunKeepsOk(ts[..|ts| - 1]);
      StepKeepsOk(After(ts[..|ts| - 1]), ts[|ts| - 1]);
    }
  }

  // ---------------------------------------------------------------------
  // Access changes hands only at acceptance
  // ---------------------------------------------------------------------

  /** Identity `u` is an active account of `c`. */
  predicate RowIs(a: Account, c: CustomerId, u: Identity) {
    a.active && a.customer == Some(c) && a.identity == u
  }

  ghost predicate Row(xs: seq<Account>, c: CustomerId, u: Identity) {
    exists j :: 0 <= j < |xs| && RowIs(xs[j], c, u)
  }

  lemma HolderIff(s: Access, c: CustomerId, u: Identity)
    requires OneHolder(s.accounts)
    ensures Holder(s, c) == Some(u) <==> Row(s.accounts, c, u)
  {
    if Holder(s, c) == Some(u) {
      var j := First(s.accounts, Holding(c)).value;
      assert RowIs(s.accounts[j], c, u);
    }
    if Row(s.accounts, c, u) {
      var j :| 0 <= j < |s.accounts| && RowIs(s.accounts[j], c, u);
      HolderIs(s, c, j);
    }
  }

  /** Two states with the same rows for `c` have the same holder. */
  lemma SameHolder(s: Access, t: Access, c: CustomerId)
    requires OneHolder(s.accounts) && OneHolder(t.accounts)
    requires forall u :: Row(s.accounts, c, u) <==> Row(t.accounts, c, u)
    ensures Holder(s, c) == Holder(t, c)
  {
    if Holder(s, c).Some? {
      HolderIff(s, c, Holder(s, c).value);
      HolderIff(t, c, Holder(s, c).value);
    } else if Holder(t, c).Some? {
      HolderIff(s, c, Holder(t, c).value);
      HolderIff(t, c, Holder(t, c).value);
    }
  }

  /** Activating an identity that serves nobody else adds one row and removes none. */
  lemma ActivateRows(xs: seq<Account>, c: CustomerId, u: Identity, d: CustomerId, v: Identity)
    requires KeysUnique(xs) && Vacant(xs, c, u)
    ensures Row(WithAccount(xs, c, u), d, v) <==> Row(xs, d, v) || (d == c && v == u)
  {
    var ys := WithAccount(xs, c, u);
    var k := First(xs, Named(u));
    var at := if k.Some? then k.value else |xs|;
    assert ys[at] == Account(u, Some(c), true, None);
    if Row(xs, d, v) {
      var j :| 0 <= j < |xs| && RowIs(xs[j], d, v);
      assert j != at ==> ys[j] == xs[j];
    }
    if Row(ys, d, v) {
      var j :| 0 <= j < |ys| && RowIs(ys[j], d, v);
      assert j != at ==> ys[j] == xs[j];
    }
  }

  lemma RetireRows(xs: seq<Account>, c: CustomerId, u: Identity, d: CustomerId, v: Identity)
    ensures Row(RetireAll(xs, c, u), d, v) <==> Row(xs, d, v) && (d == c ==> v == u)
  {
    var ys := RetireAll(xs, c, u);
    if Row(xs, d, v) && (d == c ==> v == u) {
      var j :| 0 <= j < |xs| && RowIs(xs[j], d, v);
      assert ys[j] == xs[j];
    }
    if Row(ys, d, v) {
      var j :| 0 <= j < |ys| && RowIs(ys[j], d, v);
      assert ys[j] == xs[j];
    }
  }

  /** Acceptance gives the invited identity its Customer and touches no other Customer's access. */
  lemma AcceptHandsOver(s: Access, u: Identity, d: CustomerId)
    requires AccessOk(s) && Accept(s, u).reply.Accepting?
    ensures var c := s.invitations[Accept(s, u).reply.invitation].customer;
            Holder(Accept(s, u).state, d) == if d == c then Some(u) else Holder(s, d)
  {
    var r := Accept(s, u);
    var c := s.invitations[r.reply.invitation].customer;
    var xs := RetireAll(s.accounts, c, u);
    RetireFacts(s.accounts, c, u);
    assert Vacant(xs, c, u);
    AcceptOk(s, u);
    if d == c {
      ActivateRows(xs, c, u, d, u);
      HolderIff(r.state, d, u);
    } else {
      forall v ensures Row(s.accounts, d, v) <==> Row(r.state.accounts, d, v) {
        ActivateRows(xs, c, u, d, v);
        RetireRows(s.accounts, c, u, d, v);
      }
      SameHolder(s, r.state, d);
    }
  }

  /** First access never displaces anyone. */
  lemma ActivateKeepsHolders(s: Access, c: CustomerId, u: Identity, d: CustomerId)
    requires AccessOk(s) && Holder(s, c).None? && First(s.invitations, PendingFor(c)).None?
    requires ForeignGuard(s, u, c).None?
    ensures Holder(Activate(s, c, u), d) == if d == c then Some(u) else Holder(s, d)
  {
    ForeignGuardMeans(s, u, c);
    NoHolder(s, c);
    var t := Activate(s, c, u);
    ActivateOk(s, c, u);
    if d == c {
      ActivateRows(s.accounts, c, u, d, u);
      HolderIff(t, d, u);
    } else {
      forall v ensures Row(s.accounts, d, v) <==> Row(t.accounts, d, v) {
        ActivateRows(s.accounts, c, u, d, v);
      }
      SameHolder(s, t, d);
    }
  }

  lemma {:induction false} FirstPrefix<T>(xs: seq<T>, x: T, p: T -> bool)
    requires First(xs, p).Some?
    ensures First(xs + [x], p) == First(xs, p)
  {
    var i, j := First(xs, p).value, First(xs + [x], p);
    assert (xs + [x])[i] == xs[i];
    assert j.Some?;
    assert (xs + [x])[j.value] == xs[j.value];
  }

  /** Closing a Customer's accounts leaves every other Customer's rows. */
  lemma ClosedRows(xs: seq<Account>, c: CustomerId, d: CustomerId, v: Identity)
    requires d != c
    ensures Row(Closed(xs, c), d, v) <==> Row(xs, d, v)
  {
    if Row(xs, d, v) {
      var j :| 0 <= j < |xs| && RowIs(xs[j], d, v);
      assert Closed(xs, c)[j] == xs[j];
    }
  }

  lemma ClosingKeepsHolders(s: Access, t: Access, c: CustomerId, d: CustomerId)
    requires OneHolder(s.accounts) && OneHolder(t.accounts) && t.accounts == Closed(s.accounts, c) && d != c
    ensures Holder(t, d) == Holder(s, d)
  {
    forall v ensures Row(s.accounts, d, v) <==> Row(t.accounts, d, v) {
      ClosedRows(s.accounts, c, d, v);
    }
    SameHolder(s, t, d);
  }

  /** Deleting or erasing a Customer leaves the others' access alone. */
  lemma CloseKeepsHolders(s: Access, c: CustomerId, d: CustomerId)
    requires AccessOk(s) && d != c
    ensures Holder(SoftDelete(s, c), d) == Holder(s, d) && Holder(Erase(s, c), d) == Holder(s, d)
  {
    StepKeepsOk(s, DoDelete(c));
    StepKeepsOk(s, DoErase(c));
    if SoftDelete(s, c) != s {
      ClosingKeepsHolders(s, SoftDelete(s, c), c, d);
    }
    if Erase(s, c) != s {
      ClosingKeepsHolders(s, Erase(s, c), c, d);
    }
  }

  /** The Customer whose pending invitation signing in as `u` would accept. */
  predicate Awaits(s: Access, t: Step, c: CustomerId) {
    && t.DoSignIn?
    && var i := First(s.invitations, PendingOf(t.identity));
       i.Some? && s.invitations[i.value].customer == c
  }

  /** A deletion or erasure the code carries out: of a deactivated Customer, not deleted or erased before. */
  predicate Closes(s: Access, t: Step, c: CustomerId) {
    match t
    case DoDelete(d) => d == c && c in s.customers && !s.customers[c].deleted && !s.customers[c].active
    case DoErase(d) => d == c && c in s.customers && !s.customers[c].active && c !in s.erased
    case _ => false
  }

  lemma InviteKeepsHolder(s: Access, d: CustomerId, u: Identity, c: CustomerId)
    requires AccessOk(s) && Holder(s, c).Some?
    ensures Holder(Invite(s, d, u).state, c) == Holder(s, c)
  {
    if Invite(s, d, u).reply == Activated && Holder(s, d).None? {
      ActivateKeepsHolders(s, d, u, c);
    }
  }

  lemma SignInMovesHolder(s: Access, u: Identity, c: CustomerId)
    requires AccessOk(s) && Holder(s, c).Some?
    ensures Holder(SignIn(s, u), c) == Holder(s, c) || (Awaits(s, DoSignIn(u), c) && Holder(SignIn(s, u), c) == Some(u))
  {
    if Accept(s, u).reply.Accepting? {
      AcceptHandsOver(s, u, c);
    } else if SignIn(s, u) != s {
      FirstPrefix(s.accounts, Account(u, Some(s.profiles[u]), true, None), Holding(c));
    }
  }

  /** A Customer that has access keeps that very account until an invited identity signs in, or it is deleted. */
  lemma AccessMovesOnlyByAcceptance(s: Access, t: Step, c: CustomerId)
    requires AccessOk(s) && Holder(s, c).Some? && !Closes(s, t, c)
    ensures Holder(Next(s, t), c) == Holder(s, c) || (Awaits(s, t, c) && Holder(Next(s, t), c) == Some(t.identity))
  {
    match t
    case DoInvite(d, u) => InviteKeepsHolder(s, d, u, c);
    case DoSignIn(u) => SignInMovesHolder(s, u, c);
    case DoCancel(d) =>
    case DoRegister(d, u) =>
      if Register(s, d, u).reply == Activated {
        ActivateKeepsHolders(s, d, u, c);
      }
    case DoDelete(d) =>
      if d != c {
        CloseKeepsHolders(s, d, c);
      }
    case DoErase(d) =>
      if d != c {
        CloseKeepsHolders(s, d, c);
      }
    case DoSetCustomer(_, _) =>
    case DoMapProfile(_, _) =>
  }

  // ---------------------------------------------------------------------
  // Who has an account, exactly
  // ---------------------------------------------------------------------

  /** A step that gives access to a Customer nobody could reach. */
  predicate Grants(s: Access, t: Step, c: CustomerId) {
    match t
    case DoInvite(d, u) =>
      d == c && IsOpen(s, c) && ForeignGuard(s, u, c).None? && First(s.invitations, PendingFor(c)).None?
    case DoRegister(d, u) => d == c && ForeignGuard(s, u, c).None? && First(s.invitations, PendingFor(c)).None?
    case DoSignIn(u) =>
      (match First(s.invitations, PendingOf(u))
       case Some(i) => s.invitations[i].customer == c && IsOpen(s, c)
       case None => First(s.accounts, Named(u)).None? && u in s.profiles && s.profiles[u] == c)
    case _ => false
  }

  predicate IsOpen(s: Access, c: CustomerId) {
    c in s.customers && s.customers[c].active && !s.customers[c].deleted
  }

  lemma ClosedHasNone(s: Access, t: Step, c: CustomerId)
    requires Closes(s, t, c)
    ensures Holder(Next(s, t), c).None?
  {
    var after := Next(s, t);
    forall j | 0 <= j < |after.accounts| ensures !Holding(c)(after.accounts[j]) {
      assert after.accounts[j] == Closed(s.accounts, c)[j];
    }
  }

  /** A Customer loses its access exactly when it is really deleted or erased. */
  lemma LosesAccessIff(s: Access, t: Step, c: CustomerId)
    requires AccessOk(s) && Holder(s, c).Some?
    ensures Holder(Next(s, t), c).None? <==> Closes(s, t, c)
  {
    if Closes(s, t, c) {
      ClosedHasNone(s, t, c);
    } else {
      AccessMovesOnlyByAcceptance(s, t, c);
    }
  }

  lemma AdoptsOnlyItsOwn(s: Access, u: Identity, c: CustomerId)
    requires Holder(s, c).None? && Accept(s, u).reply == Nothing
    ensures Holder(SignIn(s, u), c).Some? <==> Grants(s, DoSignIn(u), c)
  {
    NoHolder(s, c);
    var t := SignIn(s, u);
    if t != s {
      var a := Account(u, Some(s.profiles[u]), true, None);
      assert t.accounts[|s.accounts|] == a;
      if s.profiles[u] == c {
        assert Holding(c)(t.accounts[|s.accounts|]);
      } else {
        forall j | 0 <= j < |t.accounts| ensures !Holding(c)(t.accounts[j]) {
          assert j < |s.accounts| ==> t.accounts[j] == s.accounts[j];
        }
      }
    }
  }

  /**
   A Customer without access gains it exactly by a first invitation, a registration, or the right
   person signing in.
   */
  lemma GainsAccessIff(s: Access, t: Step, c: CustomerId)
    requires AccessOk(s) && Holder(s, c).None?
    ensures Holder(Next(s, t), c).Some? <==> Grants(s, t, c)
  {
    match t
    case DoInvite(d, u) =>
      if Invite(s, d, u).reply == Activated && Holder(s, d).None? {
        ActivateKeepsHolders(s, d, u, c);
      }
    case DoSignIn(u) =>
      if Accept(s, u).reply.Accepting? {
        AcceptHandsOver(s, u, c);
      } else if Accept(s, u).reply == Nothing {
        AdoptsOnlyItsOwn(s, u, c);
      }
    case DoCancel(d) =>
    case DoRegister(d, u) =>
      if Register(s, d, u).reply == Activated {
        ActivateKeepsHolders(s, d, u, c);
      }
    case DoDelete(d) =>
      if d != c {
        CloseKeepsHolders(s, d, c);
      } else if Closes(s, t, c) {
        ClosedHasNone(s, t, c);
      }
    case DoErase(d) =>
      if d != c {
        CloseKeepsHolders(s, d, c);
      } else if Closes(s, t, c) {
        ClosedHasNone(s, t, c);
      }
    case DoSetCustomer(_, _) =>
    case DoMapProfile(_, _) =>
  }

  /** Step `k` of the run gave `c` access and no later step took it away. */
  ghost predicate GrantedAt(ts: seq<Step>, c: CustomerId, k: nat) {
    && k < |ts|
    && Holder(After(ts[..k]), c).None? && Grants(After(ts[..k]), ts[k], c)
    && forall j :: k < j < |ts| ==> !ClosedAt(ts, c, j)
  }

  ghost predicate ClosedAt(ts: seq<Step>, c: CustomerId, j: nat)
    requires j < |ts|
  {
    Closes(After(ts[..j]), ts[j], c)
  }

  /** Step `n` of the run, seen from its prefix. */
  lemma GrantedBefore(ts: seq<Step>, c: CustomerId, k: nat)
    requires ts != [] && k < |ts| - 1
    ensures GrantedAt(ts, c, k) <==> GrantedAt(ts[..|ts| - 1], c, k) && !ClosedAt(ts, c, |ts| - 1)
  {
    var n, before := |ts| - 1, ts[..|ts| - 1];
    assert before[..k] == ts[..k];
    forall j | k < j < n ensures ClosedAt(before, c, j) == ClosedAt(ts, c, j) {
      ClosedBefore(ts, c, j);
    }
  }

  lemma ClosedBefore(ts: seq<Step>, c: CustomerId, j: nat)
    requires j < |ts| - 1
    ensures ClosedAt(ts[..|ts| - 1], c, j) == ClosedAt(ts, c, j)
  {
    assert ts[..|ts| - 1][..j] == ts[..j];
  }

  /**
   In every run a Customer has an account exactly when some step granted it one and it was not
   deleted or erased since.
   */
  lemma {:induction false} HasAccessIff(ts: seq<Step>, c: CustomerId)
    ensures Holder(After(ts), c).Some? <==> exists k: nat :: GrantedAt(ts, c, k)
  {
    if ts != [] {
      var n, before := |ts| - 1, ts[..|ts| - 1];
      var s := After(before);
      HasAccessIff(before, c);
      RunKeepsOk(before);
      if Holder(s, c).Some? {
        LosesAccessIff(s, ts[n], c);
      } else {
        GainsAccessIff(s, ts[n], c);
      }
      if Holder(After(ts), c).Some? {
        if Holder(s, c).Some? {
          var k: nat :| GrantedAt(before, c, k);
          GrantedBefore(ts, c, k);
        } else {
          assert GrantedAt(ts, c, n);
        }
      }
      if k: nat :| GrantedAt(ts, c, k) {
        if k < n {
          GrantedBefore(ts, c, k);
        }
      }
    }
  }

  /** "Exactly one account" fails at the first step: a Customer just created has none. */
  lemma NewCustomerHasNone(c: CustomerId)
    ensures Holder(After([DoSetCustomer(c, Customer(true, false))]), c).None?
  {
    var ts := [DoSetCustomer(c, Customer(true, false))];
    assert ts[..0] == [];
  }

  lemma StaysOpen(ts: seq<Step>, c: CustomerId)
    requires ts != [] && Holder(After(ts[..|ts| - 1]), c).Some? && !ClosedAt(ts, c, |ts| - 1)
    ensures Holder(After(ts), c).Some?
  {
    RunKeepsOk(ts[..|ts| - 1]);
    LosesAccessIff(After(ts[..|ts| - 1]), ts[|ts| - 1], c);
  }

  /** In every run a Customer with access stays reachable until it is really deleted or erased. */
  lemma {:induction false} AccessIsNeverLost(ts: seq<Step>, k: nat, c: CustomerId)
    requires k <= |ts| && Holder(After(ts[..k]), c).Some?
    requires forall i :: k <= i < |ts| ==> !ClosedAt(ts, c, i)
    ensures Holder(After(ts), c).Some?
  {
    if k == |ts| {
      assert ts[..k] == ts;
    } else {
      var n, before := |ts| - 1, ts[..|ts| - 1];
      assert before[..k] == ts[..k];
      forall i | k <= i < n ensures !ClosedAt(before, c, i) {
        ClosedBefore(ts, c, i);
      }
      AccessIsNeverLost(before, k, c);
      StaysOpen(ts, c);
    }
  }

  /** Every Customer but `c` keeps the account it had. */
  ghost predicate Spared(s: Access, t: Access, c: CustomerId) {
    forall d: CustomerId, v: Identity :: d != c && Row(s.accounts, d, v) ==> Row(t.accounts, d, v)
  }

  /**
   Why an invited identity must be idle: in any state, accepting spares every other Customer iff
   it serves none of them.
   */
  lemma AcceptSparesOthersIff(s: Access, u: Identity)
    requires KeysUnique(s.accounts) && OneHolder(s.accounts) && Accept(s, u).reply.Accepting?
    ensures Spared(s, Accept(s, u).state, s.invitations[Accept(s, u).reply.invitation].customer)
            <==> forall d: CustomerId :: d != s.invitations[Accept(s, u).reply.invitation].customer ==>
              !Row(s.accounts, d, u)
  {
    var r := Accept(s, u);
    var c := s.invitations[r.reply.invitation].customer;
    var xs := RetireAll(s.accounts, c, u);
    var ys := r.state.accounts;
    RetireFacts(s.accounts, c, u);
    if forall d: CustomerId :: d != c ==> !Row(s.accounts, d, u) {
      forall d: CustomerId, v: Identity | d != c && Row(s.accounts, d, v) ensures Row(ys, d, v) {
        var j :| 0 <= j < |s.accounts| && RowIs(s.accounts[j], d, v);
        assert xs[j] == s.accounts[j];
        assert ys[j] == xs[j];
      }
    } else {
      var d: CustomerId :| d != c && Row(s.accounts, d, u);
      assert !Row(ys, d, u) by {
        assert forall j :: 0 <= j < |ys| && ys[j].identity == u ==> ys[j].customer == Some(c);
      }
    }
  }

  // ---------------------------------------------------------------------
  // The tables, updated in place
  // ---------------------------------------------------------------------

  class Tables {
    var customers: map<CustomerId, Customer>
    var accounts: seq<Account>
    var invitations: seq<Invitation>
    var profiles: map<Identity, CustomerId>
    var erased: set<CustomerId>

    constructor ()
      ensures View() == After([]) && AccessOk(View())
    {
      customers, accounts, invitations, profiles, erased := map[], [], [], map[], {};
    }

    function View(): Access
      reads this
    {
      Access(customers, accounts, invitations, profiles, erased)
    }

    /** `_activate` with `_confirm_profile` */
    method ActivateAccount(c: CustomerId, u: Identity)
      modifies this
      ensures View() == Activate(old(View()), c, u)
    {
      var k := First(accounts, Named(u));
      if k.None? {
        accounts := accounts + [Account(u, Some(c), true, None)];
      } else {
        accounts := accounts[k.value := accounts[k.value].(customer := Some(c), active := true, replacedBy := None)];
      }
      profiles := profiles[u := c];
    }

    method InviteAccount(c: CustomerId, u: Identity) returns (reply: Reply)
      requires AccessOk(View())
      modifies this
      ensures AccessOk(View())
      ensures View() == Invite(old(View()), c, u).state && reply == Invite(old(View()), c, u).reply
      ensures forall d :: Holder(old(View()), d).Some? ==> Holder(View(), d) == Holder(old(View()), d)
    {
      InviteOk(View(), c, u);
      forall d | Holder(View(), d).Some? ensures Holder(Invite(View(), c, u).state, d) == Holder(View(), d) {
        AccessMovesOnlyByAcceptance(View(), DoInvite(c, u), d);
      }
      if c !in customers {
        return Conflict(NotFound);
      }
      if customers[c].deleted || !customers[c].active {
        return Conflict(InactiveCustomer);
      }
      var foreign := ForeignGuard(View(), u, c);
      if foreign.Some? {
        return Conflict(foreign.value);
      }
      var current := Holder(View(), c);
      if current == Some(u) {
        profiles := profiles[u := c];
        return Activated;
      }
      var outstanding := First(invitations, PendingFor(c));
      if outstanding.Some? {
        return if invitations[outstanding.value].identity == u then Invited(outstanding.value)
               else Conflict(PendingInvitation);
      }
      if current.None? {
        ActivateAccount(c, u);
        return Activated;
      }
      reply := Invited(|invitations|);
      invitations := invitations + [Invitation(c, u, Pending, current.value)];
    }

    /** Retires the former accounts first, so that no moment has two active ones. */
    method RetireFormer(c: CustomerId, u: Identity)
      requires OneHolder(accounts)
      modifies this`accounts
      ensures accounts == RetireAll(old(accounts), c, u)
    {
      ghost var was := accounts;
      for i := 0 to |accounts|
        invariant |accounts| == |was|
        invariant forall j :: 0 <= j < i ==> accounts[j] == Retired(was[j], c, u)
        invariant forall j :: i <= j < |was| ==> accounts[j] == was[j]
        invariant OneHolder(accounts)
      {
        var a := accounts[i];
        if a.active && a.customer == Some(c) && a.identity != u {
          accounts := accounts[i := a.(active := false, replacedBy := Some(u))];
        }
      }
    }

    method AcceptInvitation(u: Identity) returns (reply: Reply)
      requires AccessOk(View())
      modifies this
      ensures AccessOk(View())
      ensures View() == Accept(old(View()), u).state && reply == Accept(old(View()), u).reply
    {
      AcceptOk(View(), u);
      var waiting := First(invitations, PendingOf(u));
      if waiting.None? {
        return Nothing;
      }
      var i := waiting.value;
      var c := invitations[i].customer;
      if c !in customers || customers[c].deleted {
        return Conflict(MissingCustomer);
      }
      if !customers[c].active {
        return Conflict(InactiveCustomer);
      }
      RetireFormer(c, u);
      ActivateAccount(c, u);
      invitations := invitations[i := invitations[i].(status := Accepted)];
      return Accepting(i);
    }

    method CancelInvitation(c: CustomerId) returns (reply: Reply)
      requires AccessOk(View())
      modifies this`invitations
      ensures AccessOk(View())
      ensures View() == Cancel(old(View()), c).state && reply == Cancel(old(View()), c).reply
    {
      StepKeepsOk(View(), DoCancel(c));
      var outstanding := First(invitations, PendingFor(c));
      if outstanding.None? {
        return Nothing;
      }
      invitations := invitations[outstanding.value := invitations[outstanding.value].(status := Canceled)];
      return Withdrawn(outstanding.value);
    }

    /** Deactivates every account of the Customer, row by row. */
    method CloseAccounts(c: CustomerId)
      modifies this`accounts
      ensures accounts == Closed(old(accounts), c)
    {
      ghost var was := accounts;
      for i := 0 to |accounts|
        invariant |accounts| == |was|
        invariant forall j :: 0 <= j < i ==> accounts[j] == Closed(was, c)[j]
        invariant forall j :: i <= j < |was| ==> accounts[j] == was[j]
      {
        if accounts[i].customer == Some(c) {
          accounts := accounts[i := accounts[i].(active := false)];
        }
      }
    }

    method DropInvitations(c: CustomerId)
      modifies this`invitations
      ensures invitations == Dropped(old(invitations), c)
    {
      ghost var was := invitations;
      for i := 0 to |invitations|
        invariant |invitations| == |was|
        invariant forall j :: 0 <= j < i ==> invitations[j] == Dropped(was, c)[j]
        invariant forall j :: i <= j < |was| ==> invitations[j] == was[j]
      {
        if PendingFor(c)(invitations[i]) {
          invitations := invitations[i := invitations[i].(status := Canceled)];
        }
      }
    }

    /** Returns whether personal data was erased now. */
    method EraseCustomer(c: CustomerId) returns (done: bool)
      requires AccessOk(View())
      modifies this
      ensures AccessOk(View()) && View() == Erase(old(View()), c)
      ensures done <==> Closes(old(View()), DoErase(c), c)
      ensures done ==> Holder(View(), c).None? && forall i :: 0 <= i < |invitations| ==> !PendingFor(c)(invitations[i])
      ensures forall d :: d != c ==> Holder(View(), d) == Holder(old(View()), d)
    {
      ghost var before := View();
      EraseOk(before, c);
      forall d | d != c ensures Holder(Erase(before, c), d) == Holder(before, d) {
        CloseKeepsHolders(before, c, d);
      }
      if c !in customers || customers[c].active || c in erased {
        return false;
      }
      ClosedHasNone(before, DoErase(c), c);
      CloseAccounts(c);
      DropInvitations(c);
      customers, erased := customers[c := Customer(false, true)], erased + {c};
      return true;
    }
  }
}
