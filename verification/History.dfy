/**
 Permanent no-repeat history (jawnix/agency_management.py).

 Every Customer and every Agency carries a history key. Assigning a Customer to
 an Agency rewrites the keys of everything either side has ever shared history
 with, so that one key stands for one no-repeat class from then on.
 */
module History {
  import opened Basics

  type CustomerId = nat
  type AgencyId = nat
  /** A history key, ordered by the rank of its text. */
  datatype Key = Key(rank: int)

  datatype Database = Db1 | Db2

  datatype Customer = Customer(
    agency: Option<AgencyId>,
    key: Key,
    active: bool,
    deleted: bool,
    cooldownDays: int,
    database: Database)

  datatype Agency = Agency(key: Key, active: bool, deleted: bool)

  datatype Roster = Roster(
    customers: map<CustomerId, Customer>,
    agencies: map<AgencyId, Agency>)
  {
    /** The foreign key of Customer.agency_id. */
    ghost predicate Valid() {
      forall c :: c in customers && customers[c].agency.Some? ==> customers[c].agency.value in agencies
    }

    predicate CustomerActive(c: CustomerId) {
      c in customers && customers[c].active && !customers[c].deleted
    }

    predicate AgencyActive(a: AgencyId) {
      a in agencies && agencies[a].active && !agencies[a].deleted
    }
  }

  /** What a history lookup resolves to. */
  datatype Subjects = Subjects(keys: set<Key>, customers: set<CustomerId>, agencies: set<AgencyId>)

  /** A holder of a history key. */
  datatype Holder = OfCustomer(customer: CustomerId) | OfAgency(agency: AgencyId)

  ghost predicate IsHolder(r: Roster, x: Holder) {
    match x
    case OfCustomer(c) => c in r.customers
    case OfAgency(a) => a in r.agencies
  }

  ghost function KeyOf(r: Roster, x: Holder): Key
    requires IsHolder(r, x)
  {
    match x
    case OfCustomer(c) => r.customers[c].key
    case OfAgency(a) => r.agencies[a].key
  }

  ghost predicate SameHistory(r: Roster, x: Holder, y: Holder) {
    IsHolder(r, x) && IsHolder(r, y) && KeyOf(r, x) == KeyOf(r, y)
  }

  /** Every member carries its Agency's key. */
  ghost predicate Aligned(r: Roster)
    requires r.Valid()
  {
    forall c :: c in r.customers && r.customers[c].agency.Some? ==>
      r.customers[c].key == r.agencies[r.customers[c].agency.value].key
  }

  // ---------------------------------------------------------------------
  // Shared history as reachability along current memberships
  // ---------------------------------------------------------------------

  ghost predicate MemberEdge(r: Roster, c: CustomerId, k: Key, l: Key)
    requires r.Valid()
  {
    && c in r.customers
    && r.customers[c].agency.Some?
    && var a := r.agencies[r.customers[c].agency.value].key;
       (k == r.customers[c].key && l == a) || (l == r.customers[c].key && k == a)
  }

  ghost predicate Edge(r: Roster, k: Key, l: Key)
    requires r.Valid()
  {
    exists c :: MemberEdge(r, c, k, l)
  }

  /** `p` starts at one of `keys` and follows memberships. */
  ghost predicate IsPath(r: Roster, keys: set<Key>, p: seq<Key>)
    requires r.Valid()
  {
    && p != []
    && if |p| == 1 then p[0] in keys
       else IsPath(r, keys, p[..|p| - 1]) && Edge(r, p[|p| - 2], p[|p| - 1])
  }

  /** `p` leads from one of `keys` to `k` along memberships. */
  ghost predicate LeadsTo(r: Roster, keys: set<Key>, k: Key, p: seq<Key>)
    requires r.Valid()
  {
    IsPath(r, keys, p) && p[|p| - 1] == k
  }

  ghost function AllKeys(r: Roster): set<Key> {
    (set c | c in r.customers :: r.customers[c].key) + (set a | a in r.agencies :: r.agencies[a].key)
  }

  /** The keys that `keys` shares history with, directly or through others. */
  ghost function Closure(r: Roster, keys: set<Key>): set<Key>
    requires r.Valid()
  {
    set k | k in keys + AllKeys(r) && exists p :: LeadsTo(r, keys, k, p)
  }

  /** `keys` cannot be left along a current membership. */
  ghost predicate KeysClosed(r: Roster, keys: set<Key>)
    requires r.Valid()
  {
    forall c :: c in r.customers && r.customers[c].agency.Some? ==>
      (r.customers[c].key in keys <==> r.agencies[r.customers[c].agency.value].key in keys)
  }

  lemma ClosureContains(r: Roster, keys: set<Key>)
    requires r.Valid()
    ensures keys <= Closure(r, keys)
  {
    forall k | k in keys ensures k in Closure(r, keys) {
      assert LeadsTo(r, keys, k, [k]);
    }
  }

  lemma ClosureStep(r: Roster, keys: set<Key>, k: Key, l: Key)
    requires r.Valid() && k in Closure(r, keys) && Edge(r, k, l)
    ensures l in Closure(r, keys)
  {
    var p :| LeadsTo(r, keys, k, p);
    assert (p + [l])[..|p|] == p;
    assert LeadsTo(r, keys, l, p + [l]);
    var c :| MemberEdge(r, c, k, l);
    assert r.customers[c].key in AllKeys(r) && r.agencies[r.customers[c].agency.value].key in AllKeys(r);
  }

  lemma ClosureClosed(r: Roster, keys: set<Key>)
    requires r.Valid()
    ensures KeysClosed(r, Closure(r, keys))
  {
    forall c | c in r.customers && r.customers[c].agency.Some?
      ensures r.customers[c].key in Closure(r, keys)
         <==> r.agencies[r.customers[c].agency.value].key in Closure(r, keys)
    {
      var k, l := r.customers[c].key, r.agencies[r.customers[c].agency.value].key;
      assert MemberEdge(r, c, k, l) && MemberEdge(r, c, l, k);
      if k in Closure(r, keys) {
        ClosureStep(r, keys, k, l);
      }
      if l in Closure(r, keys) {
        ClosureStep(r, keys, l, k);
      }
    }
  }

  /** A path never leaves a closed set. */
  lemma {:induction false} PathStays(r: Roster, keys: set<Key>, closed: set<Key>, p: seq<Key>)
    requires r.Valid() && keys <= closed && KeysClosed(r, closed)
    requires IsPath(r, keys, p)
    ensures p[|p| - 1] in closed
  {
    if |p| > 1 {
      PathStays(r, keys, closed, p[..|p| - 1]);
      var c :| MemberEdge(r, c, p[|p| - 2], p[|p| - 1]);
    }
  }

  lemma ClosureLeast(r: Roster, keys: set<Key>, closed: set<Key>)
    requires r.Valid() && keys <= closed && KeysClosed(r, closed)
    ensures Closure(r, keys) <= closed
  {
    forall k | k in Closure(r, keys) ensures k in closed {
      var p :| LeadsTo(r, keys, k, p);
      PathStays(r, keys, closed, p);
    }
  }

  /** When members carry their Agency's key, sharing history is having the same key. */
  lemma AlignedClosure(r: Roster, keys: set<Key>)
    requires r.Valid() && Aligned(r)
    ensures Closure(r, keys) == keys
  {
    ClosureContains(r, keys);
    ClosureLeast(r, keys, keys);
  }

  // ---------------------------------------------------------------------
  // _history_subjects
  // ---------------------------------------------------------------------

  function CustomersHolding(r: Roster, keys: set<Key>): set<CustomerId> {
    set c | c in r.customers && r.customers[c].key in keys
  }

  function AgenciesHolding(r: Roster, keys: set<Key>): set<AgencyId> {
    set a | a in r.agencies && r.agencies[a].key in keys
  }

  function KeysHeld(r: Roster, cs: set<CustomerId>, ags: set<AgencyId>): set<Key>
    requires cs <= r.customers.Keys && ags <= r.agencies.Keys
  {
    (set c | c in cs :: r.customers[c].key) + (set a | a in ags :: r.agencies[a].key)
  }

  function CurrentAgencies(r: Roster, cs: set<CustomerId>): (ags: set<AgencyId>)
    requires r.Valid() && cs <= r.customers.Keys
    ensures ags <= r.agencies.Keys
  {
    set c | c in cs && r.customers[c].agency.Some? :: r.customers[c].agency.value
  }

  function CurrentMembers(r: Roster, ags: set<AgencyId>): set<CustomerId> {
    set c | c in r.customers && r.customers[c].agency.Some? && r.customers[c].agency.value in ags
  }

  /** The keys, Customers and Agencies one turn of the loop finds from `resolved`. */
  function Round(r: Roster, resolved: set<Key>): Subjects
    requires r.Valid()
  {
    var customers := CustomersHolding(r, resolved);
    var agencies := AgenciesHolding(r, resolved) + CurrentAgencies(r, customers);
    var members := customers + CurrentMembers(r, agencies);
    Subjects(KeysHeld(r, members, agencies), members, agencies)
  }

  /** A turn finds only keys of any closed set it starts inside, and every holder it finds has a found key. */
  lemma RoundStaysInside(r: Roster, resolved: set<Key>, closed: set<Key>)
    requires r.Valid() && resolved <= closed && KeysClosed(r, closed)
    ensures Round(r, resolved).keys <= closed
    ensures Round(r, resolved).customers <= CustomersHolding(r, Round(r, resolved).keys)
    ensures Round(r, resolved).agencies <= AgenciesHolding(r, Round(r, resolved).keys)
    ensures CustomersHolding(r, resolved) <= Round(r, resolved).customers
    ensures AgenciesHolding(r, resolved) <= Round(r, resolved).agencies
  {
  }

  /** A turn that finds no new key started from a closed set. */
  lemma QuietRoundIsClosed(r: Roster, resolved: set<Key>)
    requires r.Valid() && Round(r, resolved).keys <= resolved
    ensures KeysClosed(r, resolved)
  {
    var found := Round(r, resolved);
    forall c | c in r.customers && r.customers[c].agency.Some?
      ensures r.customers[c].key in resolved <==> r.agencies[r.customers[c].agency.value].key in resolved
    {
      var a := r.customers[c].agency.value;
      if r.customers[c].key in resolved {
        assert a in CurrentAgencies(r, CustomersHolding(r, resolved));
        assert a in found.agencies;
      }
      if r.agencies[a].key in resolved {
        assert a in found.agencies && c in found.customers;
      }
    }
  }

  /** The three sets the loop grows, somewhere between `keys` and the closure. */
  ghost predicate Growing(r: Roster, keys: set<Key>, h: Subjects)
    requires r.Valid()
  {
    && keys <= h.keys <= Closure(r, keys)
    && h.customers <= CustomersHolding(r, h.keys)
    && h.agencies <= AgenciesHolding(r, h.keys)
  }

  function Grow(h: Subjects, next: Subjects): Subjects {
    Subjects(h.keys + next.keys, h.customers + next.customers, h.agencies + next.agencies)
  }

  ghost function Everything(r: Roster, keys: set<Key>): Subjects
    requires r.Valid()
  {
    Subjects(Closure(r, keys), r.customers.Keys, r.agencies.Keys)
  }

  lemma GrowingBelow(r: Roster, keys: set<Key>, h: Subjects)
    requires r.Valid() && Growing(r, keys, h)
    ensures Below(h, Everything(r, keys))
  {
  }

  lemma RoundGrows(r: Roster, keys: set<Key>, h: Subjects)
    requires r.Valid() && Growing(r, keys, h)
    ensures Growing(r, keys, Grow(h, Round(r, h.keys)))
  {
    ClosureClosed(r, keys);
    RoundStaysInside(r, h.keys, Closure(r, keys));
  }

  lemma QuietRoundIsComplete(r: Roster, keys: set<Key>, h: Subjects)
    requires r.Valid() && Growing(r, keys, h)
    requires Grow(h, Round(r, h.keys)) == h
    ensures h == Subjects(Closure(r, keys), CustomersHolding(r, h.keys), AgenciesHolding(r, h.keys))
  {
    var next := Round(r, h.keys);
    assert next.keys <= h.keys && next.customers <= h.customers && next.agencies <= h.agencies;
    QuietRoundIsClosed(r, h.keys);
    ClosureLeast(r, keys, h.keys);
    RoundStaysInside(r, h.keys, h.keys);
  }

  predicate Below(h: Subjects, g: Subjects) {
    h.keys <= g.keys && h.customers <= g.customers && h.agencies <= g.agencies
  }

  lemma GrowFacts(h: Subjects, next: Subjects)
    ensures Below(h, Grow(h, next)) && Below(next, Grow(h, next))
    ensures Grow(h, next) == h <==> Below(next, h)
  {
    if Below(next, h) {
      assert h.keys + next.keys == h.keys;
      assert h.customers + next.customers == h.customers;
      assert h.agencies + next.agencies == h.agencies;
    }
  }

  /** How much of `full` is still to be found. */
  ghost function Missing(full: Subjects, h: Subjects): nat {
    |full.keys - h.keys| + |full.customers - h.customers| + |full.agencies - h.agencies|
  }

  lemma RestShrinks<T>(full: set<T>, h: set<T>, g: set<T>)
    requires h <= g <= full
    ensures |full - g| <= |full - h|
    ensures h != g ==> |full - g| < |full - h|
  {
    SubsetSize(full - g, full - h);
    if h != g {
      var x :| x in g && x !in h;
      assert x in full - h && x !in full - g;
    }
  }

  lemma MissingShrinks(full: Subjects, h: Subjects, g: Subjects)
    requires Below(h, g) && Below(g, full) && h != g
    ensures Missing(full, g) < Missing(full, h)
  {
    RestShrinks(full.keys, h.keys, g.keys);
    RestShrinks(full.customers, h.customers, g.customers);
    RestShrinks(full.agencies, h.agencies, g.agencies);
  }

  /**
   The loop of `_history_subjects`: grow three sets from `keys` until a round
   adds nothing. It stops, and with exactly the reachable keys and all their
   holders, from any roster, aligned or not.
   */
  method HistorySubjects(r: Roster, keys: set<Key>) returns (h: Subjects)
    requires r.Valid()
    ensures h.keys == Closure(r, keys)
    ensures h.customers == CustomersHolding(r, h.keys)
    ensures h.agencies == AgenciesHolding(r, h.keys)
  {
    h := Subjects(keys, {}, {});
    ghost var full := Everything(r, keys);
    ClosureContains(r, keys);
    GrowingBelow(r, keys, h);
    var changed := true;
    while changed
      invariant Growing(r, keys, h) && Below(h, full)
      invariant !changed ==> Grow(h, Round(r, h.keys)) == h
      decreases changed, Missing(full, h)
    {
      var next := Round(r, h.keys);
      changed := !Below(next, h);
      GrowFacts(h, next);
      RoundGrows(r, keys, h);
      GrowingBelow(r, keys, Grow(h, next));
      if changed {
        MissingShrinks(full, h, Grow(h, next));
      }
      h := Grow(h, next);
    }
    QuietRoundIsComplete(r, keys, h);
  }

  // ---------------------------------------------------------------------
  // assign_customer
  // ---------------------------------------------------------------------

  ghost predicate IsMin(k: Key, s: set<Key>) {
    k in s && forall l :: l in s ==> k.rank <= l.rank
  }

  lemma {:induction false} MinExists(s: set<Key>)
    requires s != {}
    ensures exists k :: IsMin(k, s)
  {
    var k :| k in s;
    var rest := s - {k};
    if rest == {} {
      assert s == {k};
      assert IsMin(k, s);
    } else {
      MinExists(rest);
      var l :| IsMin(l, rest);
      assert forall x :: x in s ==> x == k || x in rest;
      assert IsMin(if l.rank < k.rank then l else k, s);
    }
  }

  /** `min(merged_keys)` */
  function MinKey(s: set<Key>): (k: Key)
    requires s != {}
    ensures IsMin(k, s)
  {
    MinExists(s);
    var k :| k in s && forall l :: l in s ==> k.rank <= l.rank;
    k
  }

  /** Everything the Customer's side and the destination's side share history with. */
  ghost function MergedKeys(r: Roster, c: CustomerId, dest: AgencyId): (m: set<Key>)
    requires r.Valid() && c in r.customers && dest in r.agencies
    ensures r.customers[c].key in m && r.agencies[dest].key in m && KeysClosed(r, m)
  {
    var source := SourceKeys(r, c);
    var target := {r.agencies[dest].key};
    ClosureContains(r, source);
    ClosureContains(r, target);
    ClosureClosed(r, source);
    ClosureClosed(r, target);
    Closure(r, source) + Closure(r, target)
  }

  /** The keys `history_for_customer` starts from. */
  function SourceKeys(r: Roster, c: CustomerId): set<Key>
    requires r.Valid() && c in r.customers
  {
    {r.customers[c].key} +
    (if r.customers[c].agency.Some? then {r.agencies[r.customers[c].agency.value].key} else {})
  }

  function RekeyedCustomer(x: Customer, merged: set<Key>, canonical: Key): Customer {
    if x.key in merged then x.(key := canonical) else x
  }

  function RekeyedAgency(x: Agency, merged: set<Key>, canonical: Key): Agency {
    if x.key in merged then x.(key := canonical) else x
  }

  function Rekeyed(r: Roster, merged: set<Key>, canonical: Key): Roster {
    Roster(map c | c in r.customers :: RekeyedCustomer(r.customers[c], merged, canonical),
           map a | a in r.agencies :: RekeyedAgency(r.agencies[a], merged, canonical))
  }

  function Moved(r: Roster, c: CustomerId, dest: Option<AgencyId>): Roster
    requires c in r.customers
  {
    r.(customers := r.customers[c := r.customers[c].(agency := dest)])
  }

  /** The roster after `assign_customer` has accepted the assignment. */
  ghost function Assigned(r: Roster, c: CustomerId, dest: Option<AgencyId>): Roster
    requires r.Valid() && c in r.customers && (dest.Some? ==> dest.value in r.agencies)
  {
    if r.customers[c].agency == dest then r
    else if dest.None? then Moved(r, c, dest)
    else
      var merged := MergedKeys(r, c, dest.value);
      Moved(Rekeyed(r, merged, MinKey(merged)), c, dest)
  }

  /**
   Joining an Agency joins exactly the classes reachable from either side: two
   holders share a key afterwards iff they did before, or both were reachable.
   Nothing splits and no outside class is fused, from any roster.
   */
  lemma AssignJoinsExactly(r: Roster, c: CustomerId, dest: AgencyId, x: Holder, y: Holder)
    requires r.Valid() && c in r.customers && dest in r.agencies
    requires r.customers[c].agency != Some(dest)
    requires IsHolder(r, x) && IsHolder(r, y)
    ensures SameHistory(Assigned(r, c, Some(dest)), x, y)
       <==> (KeyOf(r, x) == KeyOf(r, y)
            || (KeyOf(r, x) in MergedKeys(r, c, dest) && KeyOf(r, y) in MergedKeys(r, c, dest)))
  {
    var merged := MergedKeys(r, c, dest);
    AssignedKey(r, c, dest, x);
    AssignedKey(r, c, dest, y);
    assert MinKey(merged) in merged;
  }

  lemma AssignedKey(r: Roster, c: CustomerId, dest: AgencyId, x: Holder)
    requires r.Valid() && c in r.customers && dest in r.agencies
    requires r.customers[c].agency != Some(dest)
    requires IsHolder(r, x)
    ensures var merged := MergedKeys(r, c, dest);
      && IsHolder(Assigned(r, c, Some(dest)), x)
      && KeyOf(Assigned(r, c, Some(dest)), x) == if KeyOf(r, x) in merged then MinKey(merged) else KeyOf(r, x)
  {
  }

  /** Leaving for no Agency changes no key at all. */
  lemma LeaveKeepsKeys(r: Roster, c: CustomerId, x: Holder)
    requires r.Valid() && c in r.customers && IsHolder(r, x)
    ensures IsHolder(Assigned(r, c, None), x) && KeyOf(Assigned(r, c, None), x) == KeyOf(r, x)
  {
  }

  /** Assignments keep every member on its Agency's key. */
  lemma AssignKeepsAligned(r: Roster, c: CustomerId, dest: Option<AgencyId>)
    requires r.Valid() && Aligned(r) && c in r.customers && (dest.Some? ==> dest.value in r.agencies)
    ensures Assigned(r, c, dest).Valid() && Aligned(Assigned(r, c, dest))
  {
    var s := Assigned(r, c, dest);
    if r.customers[c].agency != dest && dest.Some? {
      var merged := MergedKeys(r, c, dest.value);
      forall d | d in s.customers && s.customers[d].agency.Some?
        ensures s.customers[d].agency.value in s.agencies
        ensures s.customers[d].key == s.agencies[s.customers[d].agency.value].key
      {
        AssignedKey(r, c, dest.value, OfCustomer(d));
        AssignedKey(r, c, dest.value, OfAgency(s.customers[d].agency.value));
      }
    }
  }

  /** Any two holders that share history keep sharing it. */
  lemma AssignNeverSplits(r: Roster, c: CustomerId, dest: Option<AgencyId>, x: Holder, y: Holder)
    requires r.Valid() && c in r.customers && (dest.Some? ==> dest.value in r.agencies)
    requires SameHistory(r, x, y)
    ensures SameHistory(Assigned(r, c, dest), x, y)
  {
    if dest.None? {
      LeaveKeepsKeys(r, c, x);
      LeaveKeepsKeys(r, c, y);
    } else if r.customers[c].agency != dest {
      AssignJoinsExactly(r, c, dest.value, x, y);
    }
  }
}
