/**
 The assignment operation as it runs (jawnix/agency_management.py, assign_customer):
 it looks both histories up, rewrites the keys row by row, and keeps the
 membership history in step with the current memberships.
 */
module AgencyDesk {
  import opened Basics
  import opened History

  datatype Membership = Membership(customer: CustomerId, agency: AgencyId, started: int, ended: Option<int>)

  datatype AssignResult = NoReason | NotConfirmed | AgencyInactive | AlreadyThere | Reassigned

  /**
   The open rows of the membership history say where Customers are today: each
   names its Customer's current Agency, and no Customer has two of them.
   */
  ghost predicate RowsMatch(r: Roster, rows: seq<Membership>) {
    && (forall i :: 0 <= i < |rows| && rows[i].ended.None? ==>
          && rows[i].customer in r.customers
          && r.customers[rows[i].customer].agency == Some(rows[i].agency))
    && (forall i, j :: 0 <= i < j < |rows| && rows[i].ended.None? && rows[j].ended.None? ==>
          rows[i].customer != rows[j].customer)
  }

  ghost predicate IsOpenRow(rows: seq<Membership>, i: int, c: CustomerId) {
    0 <= i < |rows| && rows[i].customer == c && rows[i].ended.None?
  }

  /**
   The rows once the Customer's membership is over: its open row is given an
   end, or, when none was open, the membership in `agency` is recorded as ended.
   */
  ghost function Ended(rows: seq<Membership>, c: CustomerId, agency: Option<AgencyId>, now: int): seq<Membership> {
    var ended := seq(|rows|, i requires 0 <= i < |rows| =>
      if IsOpenRow(rows, i, c) then rows[i].(ended := Some(now)) else rows[i]);
    if agency.None? || exists i :: IsOpenRow(rows, i, c) then ended
    else ended + [Membership(c, agency.value, now, Some(now))]
  }

  function Opened(c: CustomerId, dest: Option<AgencyId>, now: int): seq<Membership> {
    if dest.Some? then [Membership(c, dest.value, now, None)] else []
  }

  class Desk {
    var customers: map<CustomerId, Customer>
    var agencies: map<AgencyId, Agency>
    var rows: seq<Membership>

    ghost function Roster(): Roster
      reads this
    {
      History.Roster(customers, agencies)
    }

    ghost predicate Valid()
      reads this
    {
      Roster().Valid() && RowsMatch(Roster(), rows)
    }

    /** Rewrites every Customer whose key is in `merged`, one row at a time. */
    method RekeyCustomers(merged: set<Key>, canonical: Key)
      modifies this`customers
      ensures customers == Rekeyed(old(Roster()), merged, canonical).customers
    {
      var todo := set c | c in customers && customers[c].key in merged;
      ghost var before := customers;
      while todo != {}
        invariant customers.Keys == before.Keys
        invariant todo <= customers.Keys && forall c :: c in todo ==> before[c].key in merged
        invariant forall c :: c in before ==>
          customers[c] == if c in todo then before[c] else RekeyedCustomer(before[c], merged, canonical)
        decreases |todo|
      {
        var c :| c in todo;
        todo := todo - {c};
        customers := customers[c := customers[c].(key := canonical)];
      }
    }

    /** Rewrites every Agency whose key is in `merged`, one row at a time. */
    method RekeyAgencies(merged: set<Key>, canonical: Key)
      modifies this`agencies
      ensures agencies == Rekeyed(old(Roster()), merged, canonical).agencies
    {
      var todo := set a | a in agencies && agencies[a].key in merged;
      ghost var before := agencies;
      while todo != {}
        invariant agencies.Keys == before.Keys
        invariant todo <= agencies.Keys && forall a :: a in todo ==> before[a].key in merged
        invariant forall a :: a in before ==>
          agencies[a] == if a in todo then before[a] else RekeyedAgency(before[a], merged, canonical)
        decreases |todo|
      {
        var a :| a in todo;
        todo := todo - {a};
        agencies := agencies[a := agencies[a].(key := canonical)];
      }
    }

    /** The Customer's open membership row, if it has one. */
    method FindOpenRow(c: CustomerId) returns (row: Option<nat>)
      ensures row.Some? ==> IsOpenRow(rows, row.value, c)
      ensures row.None? ==> forall i :: !IsOpenRow(rows, i, c)
    {
      var i := 0;
      while i < |rows|
        invariant i <= |rows|
        invariant forall j :: 0 <= j < i ==> !IsOpenRow(rows, j, c)
      {
        if rows[i].customer == c && rows[i].ended.None? {
          return Some(i);
        }
        i := i + 1;
      }
      row := None;
    }

    /** Rekeys every holder of either history to the lesser key. */
    method MergeHistories(c: CustomerId, dest: AgencyId)
      requires Valid() && c in customers && dest in agencies
      modifies this`customers, this`agencies
      ensures var merged := MergedKeys(old(Roster()), c, dest);
        Roster() == Rekeyed(old(Roster()), merged, MinKey(merged))
      ensures Valid()
    {
      var r := History.Roster(customers, agencies);
      var source := HistorySubjects(r, SourceKeys(r, c));
      var target := HistorySubjects(r, {agencies[dest].key});
      var merged := source.keys + target.keys;
      assert merged == MergedKeys(r, c, dest);
      var canonical := MinKey(merged);
      RekeyCustomers(merged, canonical);
      RekeyAgencies(merged, canonical);
      assert Roster() == Rekeyed(r, merged, canonical);
    }

    /** Points the Customer at its new Agency and opens the membership. */
    method Move(c: CustomerId, dest: Option<AgencyId>, now: int)
      requires Valid() && c in customers && (dest.Some? ==> dest.value in agencies)
      requires forall i :: !IsOpenRow(rows, i, c)
      modifies this`customers, this`rows
      ensures Valid() && Roster() == Moved(old(Roster()), c, dest)
      ensures rows == old(rows) + Opened(c, dest, now)
    {
      ghost var before := Roster();
      customers := customers[c := customers[c].(agency := dest)];
      forall i | 0 <= i < |rows| && rows[i].ended.None?
        ensures rows[i].customer in customers && customers[rows[i].customer].agency == Some(rows[i].agency)
      {
        assert !IsOpenRow(rows, i, c);
        assert before.customers[rows[i].customer].agency == Some(rows[i].agency);
      }
      forall i | 0 <= i < |rows| && rows[i].ended.None? ensures rows[i].customer != c {
        assert !IsOpenRow(rows, i, c);
      }
      if dest.Some? {
        rows := rows + [Membership(c, dest.value, now, None)];
      }
    }

    /** Ends the current membership, or records one that was never written down. */
    method EndMembership(c: CustomerId, now: int)
      requires Valid() && c in customers
      modifies this`rows
      ensures rows == Ended(old(rows), c, customers[c].agency, now)
      ensures forall i :: !IsOpenRow(rows, i, c)
      ensures RowsMatch(Roster(), rows)
    {
      var row := FindOpenRow(c);
      if row.None? {
        assert Ended(rows, c, None, now) == rows;
        if customers[c].agency.Some? {
          rows := rows + [Membership(c, customers[c].agency.value, now, Some(now))];
        }
      } else {
        forall i | IsOpenRow(rows, i, c) ensures i == row.value {
        }
        rows := rows[row.value := rows[row.value].(ended := Some(now))];
      }
    }

    method AssignCustomer(c: CustomerId, dest: Option<AgencyId>, reasonGiven: bool, confirmed: bool, now: int)
      returns (result: AssignResult)
      requires Valid() && c in customers && (dest.Some? ==> dest.value in agencies)
      modifies this
      ensures Valid()
      ensures result == (
                if !reasonGiven then NoReason
                else if !confirmed then NotConfirmed
                else if dest.Some? && !old(Roster()).AgencyActive(dest.value) then AgencyInactive
                else if old(customers[c]).agency == dest then AlreadyThere
                else Reassigned)
      ensures !result.Reassigned? ==> unchanged(this)
      ensures result.Reassigned? ==> Roster() == Assigned(old(Roster()), c, dest)
      ensures result.Reassigned? ==> rows == Ended(old(rows), c, old(customers[c]).agency, now) + Opened(c, dest, now)
    {
      if !reasonGiven {
        return NoReason;
      }
      if !confirmed {
        return NotConfirmed;
      }
      if dest.Some? && (!agencies[dest.value].active || agencies[dest.value].deleted) {
        return AgencyInactive;
      }
      if customers[c].agency == dest {
        return AlreadyThere;
      }
      if dest.Some? {
        MergeHistories(c, dest.value);
      }
      EndMembership(c, now);
      Move(c, dest, now);
      return Reassigned;
    }
  }
}
