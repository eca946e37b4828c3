/** SQL's three-valued logic, as far as the eligibility clauses use it. */
module SqlLogic {
  import opened Basics

  datatype Tri = Yes | No | Null

  function Not(a: Tri): Tri {
    match a case Yes => No case No => Yes case Null => Null
  }

  function And(a: Tri, b: Tri): Tri {
    if a == No || b == No then No else if a == Null || b == Null then Null else Yes
  }

  function Or(a: Tri, b: Tri): Tri {
    if a == Yes || b == Yes then Yes else if a == Null || b == Null then Null else No
  }

  function Is(b: bool): Tri {
    if b then Yes else No
  }

  /** `a = b` where either side may be NULL. */
  function Equals<T(==)>(a: Option<T>, b: Option<T>): Tri {
    if a.None? || b.None? then Null else Is(a.value == b.value)
  }

  /** `a IN (...)` over a list without NULLs. An empty list makes it false. */
  function In<T(==)>(a: Option<T>, s: seq<T>): Tri {
    if s == [] then No else if a.None? then Null else Is(a.value in s)
  }

  /** A WHERE clause keeps a row only when it is true. */
  predicate Keeps(t: Tri) {
    t == Yes
  }

  function OrAll(parts: seq<Tri>): Tri {
    if parts == [] then No else Or(parts[0], OrAll(parts[1..]))
  }

  lemma {:induction false} OrAllKeeps(parts: seq<Tri>)
    ensures Keeps(OrAll(parts)) <==> Yes in parts
  {
    if parts != [] {
      OrAllKeeps(parts[1..]);
      assert parts == [parts[0]] + parts[1..];
    }
  }
}

/**
 Niche Policies (jawnix/niche_policy.py): validation of an API draft, the
 clause over stored rows, the clause over an in-memory draft, and the proof
 that the two select the same Leads.
 */
module NichePolicy {
  import opened Basics
  import opened SqlLogic
  import opened Text

  type State = string

  datatype Mode = Exclude | Only

  /** One stored row; no state means the all-states default. */
  datatype Row = Row(state: Option<State>, mode: Mode, niche: string)

  /** One API row. `mode` is None when the text names no mode. */
  datatype Draft = Draft(state: Option<string>, mode: Option<Mode>, niches: seq<string>)

  datatype PolicyError = UnsupportedState | BadMode | MixedModes | NoNiche | BlankNiche | LongNiche
  datatype Normalized = Rows(rows: seq<Row>) | Refused(error: PolicyError)

  const MAX_NICHE := 160

  /**
   The text rules of one deployment: the supported state codes, `strip().upper()`
   on state codes, the database's `lower`, and Python's `casefold`.
   */
  datatype Rules = Rules(
    states: set<State>,
    canonState: string -> string,
    lower: string -> string,
    casefold: string -> string)
  {
    /** A supported code is its own canonical form. */
    ghost predicate Valid() {
      forall s :: s in states ==> s != "" && canonState(s) == s
    }

    function CanonState(s: Option<string>): Option<State> {
      if s.None? || s.value == "" then None else Some(canonState(s.value))
    }

    function Key(row: Row): (Option<State>, string) {
      (row.state, casefold(row.niche))
    }
  }

  function Trim(s: string): string {
    Strip(s, IsSpace)
  }

  predicate NicheOk(n: string) {
    1 <= |Trim(n)| <= MAX_NICHE
  }

  function NicheError(n: string): (error: Option<PolicyError>)
    ensures error.None? <==> NicheOk(n)
  {
    if |Trim(n)| == 0 then Some(BlankNiche) else if |Trim(n)| > MAX_NICHE then Some(LongNiche) else None
  }

  predicate DraftOk(rules: Rules, d: Draft) {
    && (var s := rules.CanonState(d.state); s.None? || s.value in rules.states)
    && d.mode.Some?
    && d.niches != []
    && forall n :: n in d.niches ==> NicheOk(n)
  }

  /** What `normalize_policy_rows` accepts. */
  ghost predicate DraftsOk(rules: Rules, ds: seq<Draft>) {
    && (forall d :: d in ds ==> DraftOk(rules, d))
    && (forall i, j :: 0 <= i < j < |ds| && rules.CanonState(ds[i].state) == rules.CanonState(ds[j].state) ==>
          ds[i].mode == ds[j].mode)
  }

  function RowOf(rules: Rules, d: Draft, n: string): Row
    requires d.mode.Some?
  {
    Row(rules.CanonState(d.state), d.mode.value, Trim(n))
  }

  function HasKey(rules: Rules, rows: seq<Row>, row: Row): bool {
    exists i :: 0 <= i < |rows| && rules.Key(rows[i]) == rules.Key(row)
  }

  /** A row is kept unless an earlier one has the same state and folded niche. */
  function Keep(rules: Rules, rows: seq<Row>, row: Row): seq<Row> {
    if HasKey(rules, rows, row) then rows else rows + [row]
  }

  function Dedup(rules: Rules, items: seq<Row>): seq<Row> {
    if items == [] then [] else Keep(rules, Dedup(rules, items[..|items| - 1]), items[|items| - 1])
  }

  function ItemsOf(rules: Rules, d: Draft, niches: seq<string>): (items: seq<Row>)
    requires d.mode.Some?
    ensures |items| == |niches|
    ensures forall k :: 0 <= k < |niches| ==> items[k] == RowOf(rules, d, niches[k])
  {
    seq(|niches|, k requires 0 <= k < |niches| => RowOf(rules, d, niches[k]))
  }

  /** One item per niche of the draft, in order. */
  function Items(rules: Rules, ds: seq<Draft>): seq<Row>
    requires forall d :: d in ds ==> d.mode.Some?
  {
    if ds == [] then []
    else Items(rules, ds[..|ds| - 1]) + ItemsOf(rules, ds[|ds| - 1], ds[|ds| - 1].niches)
  }

  /** The rows a valid draft flattens to. */
  function Flatten(rules: Rules, ds: seq<Draft>): seq<Row>
    requires forall d :: d in ds ==> d.mode.Some?
  {
    Dedup(rules, Items(rules, ds))
  }

  /** The shape every stored policy has. */
  ghost predicate PolicyOk(rules: Rules, rows: seq<Row>) {
    && (forall i :: 0 <= i < |rows| ==>
          && (rows[i].state.None? || rows[i].state.value in rules.states)
          && Trim(rows[i].niche) == rows[i].niche
          && NicheOk(rows[i].niche))
    && (forall i, j :: 0 <= i < j < |rows| && rows[i].state == rows[j].state ==> rows[i].mode == rows[j].mode)
    && (forall i, j :: 0 <= i < j < |rows| ==> rules.Key(rows[i]) != rules.Key(rows[j]))
  }

  /** The same, going on from the rows kept so far. */
  function DedupOnto(rules: Rules, rows: seq<Row>, more: seq<Row>): seq<Row>
    decreases |more|
  {
    if more == [] then rows else DedupOnto(rules, Keep(rules, rows, more[0]), more[1..])
  }

  lemma {:induction false} DedupOntoIs(rules: Rules, items: seq<Row>, more: seq<Row>)
    ensures DedupOnto(rules, Dedup(rules, items), more) == Dedup(rules, items + more)
    decreases |more|
  {
    if more == [] {
      assert items + more == items;
    } else {
      var next := items + [more[0]];
      assert next[..|items|] == items;
      assert next + more[1..] == items + more;
      DedupOntoIs(rules, next, more[1..]);
    }
  }

  predicate AllNichesOk(ns: seq<string>) {
    ns == [] || (AllNichesOk(ns[..|ns| - 1]) && NicheOk(ns[|ns| - 1]))
  }

  lemma AllNichesOkNext(ns: seq<string>, k: nat)
    requires k < |ns| && AllNichesOk(ns[..k]) && NicheOk(ns[k])
    ensures AllNichesOk(ns[..k + 1])
  {
    assert ns[..k + 1][..k] == ns[..k];
  }

  lemma {:induction false} AllNichesOkAll(ns: seq<string>)
    requires AllNichesOk(ns[..|ns|])
    ensures forall n :: n in ns ==> NicheOk(n)
  {
    assert ns[..|ns|] == ns;
    if ns != [] {
      var init := ns[..|ns| - 1];
      assert init[..|init|] == init;
      AllNichesOkAll(init);
      assert ns == init + [ns[|ns| - 1]];
    }
  }

  lemma DedupOntoNext(rules: Rules, rows: seq<Row>, all: seq<Row>, k: nat)
    requires k < |all|
    ensures DedupOnto(rules, rows, all[k..]) == DedupOnto(rules, Keep(rules, rows, all[k]), all[k + 1..])
  {
    assert all[k..][0] == all[k] && all[k..][1..] == all[k + 1..];
  }

  /** The inner loop of `normalize_policy_rows`: the niches of one draft. */
  method AddNiches(rules: Rules, start: seq<Row>, d: Draft) returns (rows: seq<Row>, error: Option<PolicyError>)
    requires d.mode.Some?
    ensures error.None? <==> forall n :: n in d.niches ==> NicheOk(n)
    ensures error.None? ==> rows == DedupOnto(rules, start, ItemsOf(rules, d, d.niches))
  {
    rows := start;
    error := None;
    ghost var all := ItemsOf(rules, d, d.niches);
    assert all[0..] == all;
    for k := 0 to |d.niches|
      invariant DedupOnto(rules, rows, all[k..]) == DedupOnto(rules, start, all)
      invariant error.None? && AllNichesOk(d.niches[..k])
    {
      var niche := d.niches[k];
      error := NicheError(niche);
      if error.Some? {
        assert niche in d.niches;
        return;
      }
      AllNichesOkNext(d.niches, k);
      DedupOntoNext(rules, rows, all, k);
      rows := Keep(rules, rows, RowOf(rules, d, niche));
    }
    AllNichesOkAll(d.niches);
  }

  /** `normalize_policy_rows`, with its dictionary of modes and its early errors. */
  method NormalizePolicyRows(rules: Rules, ds: seq<Draft>) returns (result: Normalized)
    ensures result.Rows? <==> DraftsOk(rules, ds)
    ensures result.Rows? ==> result.rows == Flatten(rules, ds)
  {
    var rows: seq<Row> := [];
    var modes: map<Option<State>, Mode> := map[];
    for i := 0 to |ds|
      invariant DraftsOk(rules, ds[..i])
      invariant rows == Flatten(rules, ds[..i])
      invariant ModesSeen(rules, ds[..i], modes)
    {
      var d := ds[i];
      var state := rules.CanonState(d.state);
      assert d in ds;
      if state.Some? && state.value !in rules.states {
        return Refused(UnsupportedState);
      }
      if d.mode.None? {
        return Refused(BadMode);
      }
      if state in modes && modes[state] != d.mode.value {
        ghost var j :| 0 <= j < i && rules.CanonState(ds[..i][j].state) == state;
        assert ds[j].mode != ds[i].mode;
        return Refused(MixedModes);
      }
      if d.niches == [] {
        return Refused(NoNiche);
      }
      var next, error := AddNiches(rules, rows, d);
      DedupOntoIs(rules, Items(rules, ds[..i]), ItemsOf(rules, d, d.niches));
      if error.Some? {
        return Refused(error.value);
      }
      DraftsExtend(rules, ds, i, modes);
      rows, modes := next, modes[state := d.mode.value];
    }
    assert ds[..|ds|] == ds;
    result := Rows(rows);
  }

  /** The dictionary `seen_states` after the drafts `ds`. */
  ghost predicate ModesSeen(rules: Rules, ds: seq<Draft>, modes: map<Option<State>, Mode>) {
    && (forall s :: s in modes ==> exists j :: 0 <= j < |ds| && rules.CanonState(ds[j].state) == s)
    && (forall j :: 0 <= j < |ds| ==>
          rules.CanonState(ds[j].state) in modes && Some(modes[rules.CanonState(ds[j].state)]) == ds[j].mode)
  }

  lemma ModesExtend(rules: Rules, ds: seq<Draft>, d: Draft, modes: map<Option<State>, Mode>)
    requires ModesSeen(rules, ds, modes) && d.mode.Some?
    requires var s := rules.CanonState(d.state); s in modes ==> Some(modes[s]) == d.mode
    ensures ModesSeen(rules, ds + [d], modes[rules.CanonState(d.state) := d.mode.value])
  {
    var all, s := ds + [d], rules.CanonState(d.state);
    var next := modes[s := d.mode.value];
    assert all[|ds|] == d;
    forall t | t in next ensures exists j :: 0 <= j < |all| && rules.CanonState(all[j].state) == t {
      if t != s {
        var j :| 0 <= j < |ds| && rules.CanonState(ds[j].state) == t;
        assert all[j] == ds[j];
      }
    }
    forall j | 0 <= j < |all|
      ensures rules.CanonState(all[j].state) in next && Some(next[rules.CanonState(all[j].state)]) == all[j].mode
    {
      if j < |ds| {
        assert all[j] == ds[j];
      }
    }
  }

  lemma DraftsAppend(rules: Rules, ds: seq<Draft>, d: Draft, modes: map<Option<State>, Mode>)
    requires DraftsOk(rules, ds) && DraftOk(rules, d) && ModesSeen(rules, ds, modes)
    requires var s := rules.CanonState(d.state); s in modes ==> Some(modes[s]) == d.mode
    ensures DraftsOk(rules, ds + [d])
  {
    var all := ds + [d];
    forall i, j | 0 <= i < j < |all| && rules.CanonState(all[i].state) == rules.CanonState(all[j].state)
      ensures all[i].mode == all[j].mode
    {
      assert all[i] == ds[i];
      if j < |ds| {
        assert all[j] == ds[j];
      }
    }
  }

  lemma DraftsExtend(rules: Rules, ds: seq<Draft>, i: nat, modes: map<Option<State>, Mode>)
    requires i < |ds| && DraftsOk(rules, ds[..i]) && DraftOk(rules, ds[i]) && ModesSeen(rules, ds[..i], modes)
    requires var s := rules.CanonState(ds[i].state); s in modes ==> Some(modes[s]) == ds[i].mode
    ensures DraftsOk(rules, ds[..i + 1])
    ensures ModesSeen(rules, ds[..i + 1], modes[rules.CanonState(ds[i].state) := ds[i].mode.value])
    ensures ds[..i + 1][..i] == ds[..i]
  {
    DraftsAppend(rules, ds[..i], ds[i], modes);
    ModesExtend(rules, ds[..i], ds[i], modes);
    assert ds[..i + 1] == ds[..i] + [ds[i]];
  }

  // ---------------------------------------------------------------------
  // What the flattened rows contain
  // ---------------------------------------------------------------------

  ghost predicate Distinct(rules: Rules, rows: seq<Row>) {
    forall i, j :: 0 <= i < j < |rows| ==> rules.Key(rows[i]) != rules.Key(rows[j])
  }

  lemma {:induction false} DedupFacts(rules: Rules, items: seq<Row>)
    ensures Distinct(rules, Dedup(rules, items))
    ensures forall row :: row in Dedup(rules, items) ==> row in items
    ensures forall row :: row in items ==> HasKey(rules, Dedup(rules, items), row)
  {
    if items != [] {
      var init, last := items[..|items| - 1], items[|items| - 1];
      DedupFacts(rules, init);
      var mid, out := Dedup(rules, init), Dedup(rules, items);
      forall row | row in items ensures HasKey(rules, out, row) {
        if row in init {
          var i :| 0 <= i < |mid| && rules.Key(mid[i]) == rules.Key(row);
          assert out[i] == mid[i];
        } else if !HasKey(rules, mid, last) {
          assert out[|mid|] == last;
        }
      }
    }
  }

  lemma {:induction false} InItems(rules: Rules, ds: seq<Draft>, row: Row)
    requires forall d :: d in ds ==> d.mode.Some?
    ensures row in Items(rules, ds) <==> exists d, n :: d in ds && n in d.niches && row == RowOf(rules, d, n)
  {
    if ds != [] {
      var init, d := ds[..|ds| - 1], ds[|ds| - 1];
      InItems(rules, init, row);
      assert ds == init + [d];
      var own := ItemsOf(rules, d, d.niches);
      if row in own {
        var k :| 0 <= k < |own| && own[k] == row;
        assert d.niches[k] in d.niches;
      }
      if n :| n in d.niches && row == RowOf(rules, d, n) {
        var k :| 0 <= k < |d.niches| && d.niches[k] == n;
        assert own[k] == row;
      }
    }
  }

  /**
   Normalization loses nothing and invents nothing: rows have distinct folded
   keys, each is some draft niche, and every draft niche has its key among them.
   */
  lemma FlattenFacts(rules: Rules, ds: seq<Draft>)
    requires forall d :: d in ds ==> d.mode.Some?
    ensures Distinct(rules, Flatten(rules, ds))
    ensures forall row :: row in Flatten(rules, ds) ==>
      exists d, n :: d in ds && n in d.niches && row == RowOf(rules, d, n)
    ensures forall d, n :: d in ds && n in d.niches ==> HasKey(rules, Flatten(rules, ds), RowOf(rules, d, n))
  {
    var rows := Flatten(rules, ds);
    DedupFacts(rules, Items(rules, ds));
    forall row | row in rows ensures exists d, n :: d in ds && n in d.niches && row == RowOf(rules, d, n) {
      InItems(rules, ds, row);
    }
    forall d, n | d in ds && n in d.niches ensures HasKey(rules, rows, RowOf(rules, d, n)) {
      InItems(rules, ds, RowOf(rules, d, n));
    }
  }

  lemma RowFromDraft(rules: Rules, ds: seq<Draft>, row: Row)
    requires DraftsOk(rules, ds) && row in Flatten(rules, ds)
    ensures row.state.None? || row.state.value in rules.states
    ensures Trim(row.niche) == row.niche && NicheOk(row.niche)
    ensures exists i :: 0 <= i < |ds| && rules.CanonState(ds[i].state) == row.state && ds[i].mode == Some(row.mode)
  {
    FlattenFacts(rules, ds);
    var d, n :| d in ds && n in d.niches && row == RowOf(rules, d, n);
    StripIdempotent(n, IsSpace);
    var i :| 0 <= i < |ds| && ds[i] == d;
  }

  /** Every accepted draft flattens to a well-formed policy. */
  lemma FlattenIsPolicy(rules: Rules, ds: seq<Draft>)
    requires DraftsOk(rules, ds)
    ensures PolicyOk(rules, Flatten(rules, ds))
  {
    var rows := Flatten(rules, ds);
    FlattenFacts(rules, ds);
    forall i | 0 <= i < |rows|
      ensures (rows[i].state.None? || rows[i].state.value in rules.states)
           && Trim(rows[i].niche) == rows[i].niche && NicheOk(rows[i].niche)
    {
      RowFromDraft(rules, ds, rows[i]);
    }
    forall i, j | 0 <= i < j < |rows| && rows[i].state == rows[j].state ensures rows[i].mode == rows[j].mode {
      RowFromDraft(rules, ds, rows[i]);
      RowFromDraft(rules, ds, rows[j]);
    }
  }

  // ---------------------------------------------------------------------
  // The two clauses
  // ---------------------------------------------------------------------

  /** `state_override`: the Customer has a row for exactly this state. */
  predicate Overridden(rows: seq<Row>, state: State) {
    exists i :: 0 <= i < |rows| && Keeps(Equals(rows[i].state, Some(state)))
  }

  /** `policy_scope` of one stored row. */
  function Scope(rows: seq<Row>, row: Row, state: State): Tri {
    Or(Equals(row.state, Some(state)),
       And(Is(row.state.None?), Not(Is(Overridden(rows, state)))))
  }

  /** `comparable_niche` of one stored row. */
  function Comparable(rules: Rules, row: Row, niche: Option<string>): Tri {
    And(Is(niche.Some?),
        if niche.None? then Null else Is(rules.lower(row.niche) == rules.lower(niche.value)))
  }

  predicate ExistsExcluded(rules: Rules, rows: seq<Row>, state: State, niche: Option<string>) {
    exists i :: 0 <= i < |rows| &&
      Keeps(And(And(Scope(rows, rows[i], state), Is(rows[i].mode.Exclude?)), Comparable(rules, rows[i], niche)))
  }

  predicate ExistsOnly(rows: seq<Row>, state: State) {
    exists i :: 0 <= i < |rows| && Keeps(And(Scope(rows, rows[i], state), Is(rows[i].mode.Only?)))
  }

  predicate ExistsAllowed(rules: Rules, rows: seq<Row>, state: State, niche: Option<string>) {
    exists i :: 0 <= i < |rows| &&
      Keeps(And(And(Scope(rows, rows[i], state), Is(rows[i].mode.Only?)), Comparable(rules, rows[i], niche)))
  }

  /** `policy_clause` over the stored rows of one Customer. */
  function StoredClause(rules: Rules, rows: seq<Row>, state: State, niche: Option<string>): Tri {
    And(Not(Is(ExistsExcluded(rules, rows, state, niche))),
        Or(Not(Is(ExistsOnly(rows, state))), Is(ExistsAllowed(rules, rows, state, niche))))
  }

  /** The states with rows, in order of first appearance. */
  function StatesOf(rows: seq<Row>): (ss: seq<Option<State>>)
    ensures forall s :: s in ss <==> exists i :: 0 <= i < |rows| && rows[i].state == s
  {
    if rows == [] then []
    else
      var init := rows[..|rows| - 1];
      var last := rows[|rows| - 1].state;
      assert forall i :: 0 <= i < |rows| ==> i == |rows| - 1 || rows[i] == init[i];
      var ss := StatesOf(init);
      if last in ss then ss else ss + [last]
  }

  /** The rows of one state, in order. */
  function RowsFor(rows: seq<Row>, s: Option<State>): (rs: seq<Row>)
    ensures forall x :: x in rs <==> x in rows && x.state == s
  {
    if rows == [] then []
    else
      var init, last := rows[..|rows| - 1], rows[|rows| - 1];
      assert rows == init + [last];
      RowsFor(init, s) + (if last.state == s then [last] else [])
  }

  function Specific(ss: seq<Option<State>>): (r: seq<State>)
    ensures forall s :: s in r <==> Some(s) in ss
  {
    if ss == [] then []
    else
      assert ss == [ss[0]] + ss[1..];
      (if ss[0].Some? then [ss[0].value] else []) + Specific(ss[1..])
  }

  function Folded(rules: Rules, rs: seq<Row>): (ns: seq<string>)
    ensures forall n :: n in ns <==> exists i :: 0 <= i < |rs| && rules.casefold(rs[i].niche) == n
  {
    if rs == [] then []
    else
      assert rs == [rs[0]] + rs[1..];
      assert forall i :: 0 < i < |rs| ==> rs[i] == rs[1..][i - 1];
      assert forall i :: 0 <= i < |rs[1..]| ==> rs[1..][i] == rs[i + 1];
      [rules.casefold(rs[0].niche)] + Folded(rules, rs[1..])
  }

  function StateMatch(specific: seq<State>, s: Option<State>, state: State): Tri {
    if s.None? then (if specific == [] then Yes else Not(In(Some(state), specific)))
    else Equals(Some(state), s)
  }

  /** One disjunct of `policy_clause_for_rows`; a state without rows has none. */
  function Part(rules: Rules, rows: seq<Row>, specific: seq<State>, s: Option<State>, state: State,
                niche: Option<string>): Tri {
    var rs := RowsFor(rows, s);
    if rs == [] then No else And(StateMatch(specific, s, state), NicheMatch(rules, rs, niche))
  }

  function NicheMatch(rules: Rules, rs: seq<Row>, niche: Option<string>): Tri
    requires rs != []
  {
    var lowered := if niche.None? then None else Some(rules.lower(niche.value));
    var niches := Folded(rules, rs);
    if rs[0].mode.Exclude? then Or(Is(niche.None?), Not(In(lowered, niches))) else In(lowered, niches)
  }

  lemma StateHasRows(rows: seq<Row>, s: Option<State>)
    requires s in StatesOf(rows)
    ensures RowsFor(rows, s) != []
  {
    var i :| 0 <= i < |rows| && rows[i].state == s;
    assert rows[i] in RowsFor(rows, s);
  }

  function Parts(rules: Rules, rows: seq<Row>, specific: seq<State>, ss: seq<Option<State>>, state: State,
                 niche: Option<string>): seq<Tri> {
    seq(|ss|, i requires 0 <= i < |ss| => Part(rules, rows, specific, ss[i], state, niche))
  }

  /** `policy_clause_for_rows` once its draft is normalized. */
  function DraftClause(rules: Rules, rows: seq<Row>, state: State, niche: Option<string>): Tri {
    if rows == [] then Yes
    else
      var ss := StatesOf(rows);
      var specific := Specific(ss);
      var parts := Parts(rules, rows, specific, ss, state, niche);
      OrAll(parts + if specific != [] && None !in ss then [Not(In(Some(state), specific))] else [])
  }

  // ---------------------------------------------------------------------
  // Both clauses say the same thing
  // ---------------------------------------------------------------------

  /** The rows that govern a state: its own if it has any, else the default. */
  ghost predicate Governs(rows: seq<Row>, row: Row, state: State) {
    row in rows && if Some(state) in StatesOf(rows) then row.state == Some(state) else row.state == None
  }

  /** The policy in words: override, not merge; a missing niche passes only an exclusion. */
  ghost predicate Allows(rules: Rules, rows: seq<Row>, state: State, niche: Option<string>) {
    && (forall row :: Governs(rows, row, state) && row.mode.Exclude? ==>
          !(niche.Some? && rules.lower(row.niche) == rules.lower(niche.value)))
    && ((exists row :: Governs(rows, row, state) && row.mode.Only?) ==>
          exists row :: Governs(rows, row, state) && row.mode.Only?
                        && niche.Some? && rules.lower(row.niche) == rules.lower(niche.value))
  }

  lemma ScopeIsGoverns(rows: seq<Row>, i: int, state: State)
    requires 0 <= i < |rows|
    ensures Keeps(Scope(rows, rows[i], state)) <==> Governs(rows, rows[i], state)
  {
    assert rows[i] in rows;
    assert Overridden(rows, state) <==> Some(state) in StatesOf(rows) by {
      if Overridden(rows, state) {
        var j :| 0 <= j < |rows| && Keeps(Equals(rows[j].state, Some(state)));
        assert rows[j].state == Some(state);
      }
      if Some(state) in StatesOf(rows) {
        var j :| 0 <= j < |rows| && rows[j].state == Some(state);
        assert Keeps(Equals(rows[j].state, Some(state)));
      }
    }
  }

  ghost predicate Matches(rules: Rules, row: Row, niche: Option<string>) {
    niche.Some? && rules.lower(row.niche) == rules.lower(niche.value)
  }

  /** The clause over stored rows means the policy, for any rows whatever. */
  lemma StoredMeansAllows(rules: Rules, rows: seq<Row>, state: State, niche: Option<string>)
    ensures Keeps(StoredClause(rules, rows, state, niche)) <==> Allows(rules, rows, state, niche)
  {
    forall i | 0 <= i < |rows| ensures Keeps(Scope(rows, rows[i], state)) <==> Governs(rows, rows[i], state) {
      ScopeIsGoverns(rows, i, state);
    }
    assert ExistsExcluded(rules, rows, state, niche) <==>
      exists row :: Governs(rows, row, state) && row.mode.Exclude? && Matches(rules, row, niche);
    assert ExistsOnly(rows, state) <==> exists row :: Governs(rows, row, state) && row.mode.Only?;
    assert ExistsAllowed(rules, rows, state, niche) <==>
      exists row :: Governs(rows, row, state) && row.mode.Only? && Matches(rules, row, niche);
  }

  /** Which disjunct speaks for a state. */
  function GoverningState(rows: seq<Row>, state: State): Option<State> {
    if Some(state) in StatesOf(rows) then Some(state) else None
  }

  lemma FoldedMatches(rules: Rules, rows: seq<Row>, rs: seq<Row>, niche: Option<string>)
    requires forall row :: row in rs ==> row in rows
    requires forall row :: row in rows ==> rules.lower(row.niche) == rules.casefold(row.niche)
    ensures niche.Some? ==>
      (rules.lower(niche.value) in Folded(rules, rs) <==> exists row :: row in rs && Matches(rules, row, niche))
    ensures rs != [] ==> Folded(rules, rs) != []
  {
    if niche.Some? {
      if rules.lower(niche.value) in Folded(rules, rs) {
        var i :| 0 <= i < |rs| && rules.casefold(rs[i].niche) == rules.lower(niche.value);
        assert rs[i] in rs && Matches(rules, rs[i], niche);
      }
      if row :| row in rs && Matches(rules, row, niche) {
        var i :| 0 <= i < |rs| && rs[i] == row;
        assert rules.casefold(rs[i].niche) == rules.lower(niche.value);
      }
    }
  }

  lemma StateMatchGoverns(rows: seq<Row>, s: Option<State>, state: State)
    requires s in StatesOf(rows)
    ensures Keeps(StateMatch(Specific(StatesOf(rows)), s, state)) <==> s == GoverningState(rows, state)
  {
  }

  lemma GroupMode(rules: Rules, rows: seq<Row>, s: Option<State>, row: Row)
    requires PolicyOk(rules, rows) && row in RowsFor(rows, s)
    ensures row.mode == RowsFor(rows, s)[0].mode
  {
    var first := RowsFor(rows, s)[0];
    assert first in RowsFor(rows, s);
    var i :| 0 <= i < |rows| && rows[i] == row;
    var j :| 0 <= j < |rows| && rows[j] == first;
  }

  /** The rows that speak for a state. */
  function Group(rows: seq<Row>, state: State): (rs: seq<Row>)
    ensures forall row :: row in rs <==> Governs(rows, row, state)
  {
    RowsFor(rows, GoverningState(rows, state))
  }

  /** The stored clause's test: some row of the group lowers to what the niche lowers to. */
  ghost predicate Lowered(rules: Rules, rs: seq<Row>, niche: Option<string>) {
    exists row :: row in rs && Matches(rules, row, niche)
  }

  /** The preview's test: the lowered niche is among the group's case-folded niches. */
  predicate Previewed(rules: Rules, rs: seq<Row>, niche: Option<string>) {
    niche.Some? && rules.lower(niche.value) in Folded(rules, rs)
  }

  lemma AllowsExcluding(rules: Rules, rows: seq<Row>, state: State, niche: Option<string>)
    requires forall row :: Governs(rows, row, state) ==> row.mode.Exclude?
    ensures Allows(rules, rows, state, niche) <==> !Lowered(rules, Group(rows, state), niche)
  {
    if row :| row in Group(rows, state) && Matches(rules, row, niche) {
      assert Governs(rows, row, state);
    }
  }

  lemma AllowsOnly(rules: Rules, rows: seq<Row>, state: State, niche: Option<string>)
    requires Group(rows, state) != [] && forall row :: Governs(rows, row, state) ==> row.mode.Only?
    ensures Allows(rules, rows, state, niche) <==> Lowered(rules, Group(rows, state), niche)
  {
    var first := Group(rows, state)[0];
    assert first in Group(rows, state);
    if row :| row in Group(rows, state) && Matches(rules, row, niche) {
      assert Governs(rows, row, state);
    }
  }

  /** With one mode per state, the policy is a single membership test in the governing group. */
  lemma AllowsByGroup(rules: Rules, rows: seq<Row>, state: State, niche: Option<string>)
    requires PolicyOk(rules, rows)
    ensures var rs := Group(rows, state);
      Allows(rules, rows, state, niche) <==> (rs == [] || (Lowered(rules, rs, niche) <==> rs[0].mode.Only?))
  {
    var rs := Group(rows, state);
    forall row | Governs(rows, row, state) ensures rs != [] && row.mode == rs[0].mode {
      assert row in rs;
      GroupMode(rules, rows, GoverningState(rows, state), row);
    }
    if rs != [] && rs[0].mode.Only? {
      AllowsOnly(rules, rows, state, niche);
    } else {
      AllowsExcluding(rules, rows, state, niche);
    }
  }

  lemma NicheMatchMeans(rules: Rules, rs: seq<Row>, niche: Option<string>)
    requires rs != []
    ensures Keeps(NicheMatch(rules, rs, niche)) <==> (Previewed(rules, rs, niche) <==> rs[0].mode.Only?)
  {
    FoldedKeepsSome(rules, rs);
    InKeeps(if niche.None? then None else Some(rules.lower(niche.value)), Folded(rules, rs));
  }

  /** One disjunct of the preview, for any rows: it speaks for its own state and makes its own test. */
  lemma PartMeans(rules: Rules, rows: seq<Row>, s: Option<State>, state: State, niche: Option<string>)
    requires s in StatesOf(rows)
    ensures var rs := Group(rows, state);
      Keeps(Part(rules, rows, Specific(StatesOf(rows)), s, state, niche)) <==>
        (s == GoverningState(rows, state) && rs != [] && (Previewed(rules, rs, niche) <==> rs[0].mode.Only?))
  {
    StateMatchGoverns(rows, s, state);
    StateHasRows(rows, s);
    NicheMatchMeans(rules, RowsFor(rows, s), niche);
  }

  lemma FoldedKeepsSome(rules: Rules, rs: seq<Row>)
    requires rs != []
    ensures Folded(rules, rs) != []
  {
    assert rules.casefold(rs[0].niche) in Folded(rules, rs);
  }

  /** SQL membership in a non-empty list, three values and all. */
  lemma InKeeps(x: Option<string>, xs: seq<string>)
    requires xs != []
    ensures Keeps(In(x, xs)) <==> x.Some? && x.value in xs
    ensures Keeps(Or(Is(x.None?), Not(In(x, xs)))) <==> !(x.Some? && x.value in xs)
  {
  }

  lemma PartsMean(rules: Rules, rows: seq<Row>, state: State, niche: Option<string>)
    ensures var rs := Group(rows, state);
      Yes in Parts(rules, rows, Specific(StatesOf(rows)), StatesOf(rows), state, niche) <==>
        (rs != [] && (Previewed(rules, rs, niche) <==> rs[0].mode.Only?))
  {
    var ss, rs, governing := StatesOf(rows), Group(rows, state), GoverningState(rows, state);
    var parts := Parts(rules, rows, Specific(ss), ss, state, niche);
    if Yes in parts {
      var i :| 0 <= i < |ss| && parts[i] == Yes;
      PartMeans(rules, rows, ss[i], state, niche);
    }
    if rs != [] && (Previewed(rules, rs, niche) <==> rs[0].mode.Only?) {
      FirstHasState(rows, governing);
      var i :| 0 <= i < |ss| && ss[i] == governing;
      PartMeans(rules, rows, ss[i], state, niche);
      assert parts[i] == Yes;
    }
  }

  lemma UngovernedState(rows: seq<Row>, state: State)
    requires rows != []
    ensures Group(rows, state) == [] <==> None !in StatesOf(rows) && state !in Specific(StatesOf(rows))
    ensures None !in StatesOf(rows) ==> Specific(StatesOf(rows)) != []
  {
    var ss, governing := StatesOf(rows), GoverningState(rows, state);
    assert rows[0].state in ss;
    if Group(rows, state) != [] {
      FirstHasState(rows, governing);
    }
    if governing in ss {
      StateHasRows(rows, governing);
    }
  }

  lemma FirstHasState(rows: seq<Row>, s: Option<State>)
    requires RowsFor(rows, s) != []
    ensures s in StatesOf(rows)
  {
    var first := RowsFor(rows, s)[0];
    assert first in RowsFor(rows, s);
    var i :| 0 <= i < |rows| && rows[i] == first;
  }

  /**
   The clause over an in-memory draft, for any rows: no governing group, or the preview's test
   agrees with its mode.
   */
  lemma DraftMeansPreview(rules: Rules, rows: seq<Row>, state: State, niche: Option<string>)
    ensures var rs := Group(rows, state);
      Keeps(DraftClause(rules, rows, state, niche)) <==>
        (rs == [] || (Previewed(rules, rs, niche) <==> rs[0].mode.Only?))
  {
    var ss := StatesOf(rows);
    if rows != [] {
      var specific := Specific(ss);
      var parts := Parts(rules, rows, specific, ss, state, niche);
      var tail := if specific != [] && None !in ss then [Not(In(Some(state), specific))] else [];
      OrAllKeeps(parts + tail);
      PartsMean(rules, rows, state, niche);
      UngovernedState(rows, state);
      assert Yes in tail <==> Group(rows, state) == [];
    }
  }

  /**
   `replace_policy` followed by the stored clause selects what the draft preview
   promised exactly when lowering and case-folding put the niche on the same
   side of the governing group.
   */
  lemma PreviewMatchesStoredIff(rules: Rules, rows: seq<Row>, state: State, niche: Option<string>)
    requires PolicyOk(rules, rows)
    ensures (Keeps(StoredClause(rules, rows, state, niche)) <==> Keeps(DraftClause(rules, rows, state, niche))) <==>
      (Lowered(rules, Group(rows, state), niche) <==> Previewed(rules, Group(rows, state), niche))
  {
    StoredMeansAllows(rules, rows, state, niche);
    AllowsByGroup(rules, rows, state, niche);
    DraftMeansPreview(rules, rows, state, niche);
  }

  /**
   So every accepted draft previews exactly, wherever the database's `lower` agrees with Python's
   `casefold` on its niches.
   */
  lemma PreviewMatchesStored(rules: Rules, ds: seq<Draft>, state: State, niche: Option<string>)
    requires DraftsOk(rules, ds)
    requires forall row :: row in Flatten(rules, ds) ==> rules.lower(row.niche) == rules.casefold(row.niche)
    ensures Keeps(StoredClause(rules, Flatten(rules, ds), state, niche))
       <==> Keeps(DraftClause(rules, Flatten(rules, ds), state, niche))
  {
    var rows := Flatten(rules, ds);
    FlattenIsPolicy(rules, ds);
    PreviewMatchesStoredIff(rules, rows, state, niche);
    FoldedMatches(rules, rows, Group(rows, state), niche);
  }

  /** A deployment whose database leaves a sharp s alone while `casefold` writes it out. */
  function SharpRules(): Rules {
    Rules({}, s => s, s => s, s => if s == "\U{df}" then "ss" else s)
  }

  const SHARP := Row(None, Exclude, "\U{df}")

  lemma SharpStored()
    ensures !Keeps(StoredClause(SharpRules(), [SHARP], "TX", Some("\U{df}")))
  {
    var rows := [SHARP];
    assert rows[0].state.None?;
    assert Governs(rows, SHARP, "TX");
    StoredMeansAllows(SharpRules(), rows, "TX", Some("\U{df}"));
  }

  lemma SharpPreview()
    ensures Keeps(DraftClause(SharpRules(), [SHARP], "TX", Some("\U{df}")))
  {
    var rules, rows := SharpRules(), [SHARP];
    assert rows[..0] == [];
    assert RowsFor(rows[..0], None) == [];
    assert StatesOf(rows) == [None];
    assert Group(rows, "TX") == rows;
    assert Folded(rules, rows) == ["ss"];
    assert |"\U{df}"| == 1 && |"ss"| == 2;
    DraftMeansPreview(rules, rows, "TX", Some("\U{df}"));
  }

  /** Where they disagree, as on a sharp s, the preview of an accepted policy differs from what is stored. */
  lemma FoldingCanDisagree()
    ensures PolicyOk(SharpRules(), [SHARP])
    ensures !Keeps(StoredClause(SharpRules(), [SHARP], "TX", Some("\U{df}")))
    ensures Keeps(DraftClause(SharpRules(), [SHARP], "TX", Some("\U{df}")))
  {
    assert Trim("\U{df}") == "\U{df}";
    SharpStored();
    SharpPreview();
  }

  /** Lowering and folding put the same members of a group in reach of a lowered niche. */
  ghost predicate SameInReach(rules: Rules, rs: seq<Row>) {
    forall v: string :: Lowered(rules, rs, Some(v)) <==> rules.lower(v) in Folded(rules, rs)
  }

  /** Preview and stored clause agree on every Lead. */
  ghost predicate PreviewExact(rules: Rules, rows: seq<Row>) {
    forall state: State, niche: Option<string> ::
      Keeps(StoredClause(rules, rows, state, niche)) <==> Keeps(DraftClause(rules, rows, state, niche))
  }

  lemma ExactMeansReach(rules: Rules, rows: seq<Row>)
    requires PolicyOk(rules, rows)
    ensures PreviewExact(rules, rows) <==> forall state: State :: SameInReach(rules, Group(rows, state))
  {
    if PreviewExact(rules, rows) {
      forall state: State, v: string
        ensures Lowered(rules, Group(rows, state), Some(v)) <==> rules.lower(v) in Folded(rules, Group(rows, state))
      {
        PreviewMatchesStoredIff(rules, rows, state, Some(v));
        assert Keeps(StoredClause(rules, rows, state, Some(v))) <==> Keeps(DraftClause(rules, rows, state, Some(v)));
      }
    }
    if forall state: State :: SameInReach(rules, Group(rows, state)) {
      forall state: State, niche: Option<string>
        ensures Keeps(StoredClause(rules, rows, state, niche)) <==> Keeps(DraftClause(rules, rows, state, niche))
      {
        assert SameInReach(rules, Group(rows, state));
        PreviewMatchesStoredIff(rules, rows, state, niche);
      }
    }
  }

  /** The test a caller can make on the rows alone: both spellings of every niche are found the other way. */
  predicate SpellingsMeet(rules: Rules, rs: seq<Row>) {
    forall i :: 0 <= i < |rs| ==>
      && rules.lower(rs[i].niche) in Folded(rules, rs)
      && (rules.lower(rules.casefold(rs[i].niche)) == rules.casefold(rs[i].niche) ==>
            exists j :: 0 <= j < |rs| && rules.lower(rs[j].niche) == rules.casefold(rs[i].niche))
  }

  ghost predicate LowerIsIdempotent(rules: Rules) {
    forall v: string :: rules.lower(rules.lower(v)) == rules.lower(v)
  }

  lemma ReachNeedsSpellings(rules: Rules, rs: seq<Row>)
    requires SameInReach(rules, rs)
    ensures SpellingsMeet(rules, rs)
  {
    forall i | 0 <= i < |rs|
      ensures rules.lower(rs[i].niche) in Folded(rules, rs)
      ensures rules.lower(rules.casefold(rs[i].niche)) == rules.casefold(rs[i].niche) ==>
        exists j :: 0 <= j < |rs| && rules.lower(rs[j].niche) == rules.casefold(rs[i].niche)
    {
      var n, folded := rs[i].niche, rules.casefold(rs[i].niche);
      assert rs[i] in rs && Matches(rules, rs[i], Some(n));
      assert Lowered(rules, rs, Some(n));
      if rules.lower(folded) == folded {
        assert folded in Folded(rules, rs);
        assert Lowered(rules, rs, Some(folded));
        var q :| q in rs && Matches(rules, q, Some(folded));
        var j :| 0 <= j < |rs| && rs[j] == q;
        assert rules.lower(rs[j].niche) == folded;
      }
    }
  }

  lemma SpellingsReach(rules: Rules, rs: seq<Row>)
    requires LowerIsIdempotent(rules) && SpellingsMeet(rules, rs)
    ensures SameInReach(rules, rs)
  {
    forall v: string ensures Lowered(rules, rs, Some(v)) <==> rules.lower(v) in Folded(rules, rs) {
      if Lowered(rules, rs, Some(v)) {
        var q :| q in rs && Matches(rules, q, Some(v));
        var i :| 0 <= i < |rs| && rs[i] == q;
      }
      if rules.lower(v) in Folded(rules, rs) {
        var i :| 0 <= i < |rs| && rules.casefold(rs[i].niche) == rules.lower(v);
        assert rules.lower(rules.lower(v)) == rules.lower(v);
        var j :| 0 <= j < |rs| && rules.lower(rs[j].niche) == rules.casefold(rs[i].niche);
        assert rs[j] in rs && Matches(rules, rs[j], Some(v));
      }
    }
  }

  /** A state code longer than any in the list. */
  function Longer(ss: seq<State>): (s: State)
    ensures forall x :: x in ss ==> |x| < |s|
  {
    if ss == [] then ""
    else
      var rest := Longer(ss[1..]);
      assert ss == [ss[0]] + ss[1..];
      if |ss[0]| < |rest| then rest else ss[0] + "x"
  }

  /** Every group of rows governs some state. */
  lemma GroupGoverns(rows: seq<Row>, s: Option<State>) returns (state: State)
    requires s in StatesOf(rows)
    ensures Group(rows, state) == RowsFor(rows, s)
  {
    if s.Some? {
      state := s.value;
    } else {
      state := Longer(Specific(StatesOf(rows)));
      assert state !in Specific(StatesOf(rows));
    }
  }

  /** The whole test: one group per state the policy names, and the default. */
  predicate PolicySpellingsMeet(rules: Rules, rows: seq<Row>) {
    forall s :: s in StatesOf(rows) ==> SpellingsMeet(rules, RowsFor(rows, s))
  }

  /** A policy previews every Lead exactly if and only if its own rows pass the test. */
  lemma PreviewExactIff(rules: Rules, rows: seq<Row>)
    requires PolicyOk(rules, rows) && LowerIsIdempotent(rules)
    ensures PreviewExact(rules, rows) <==> PolicySpellingsMeet(rules, rows)
  {
    ExactMeansReach(rules, rows);
    if PreviewExact(rules, rows) {
      forall s | s in StatesOf(rows) ensures SpellingsMeet(rules, RowsFor(rows, s)) {
        var state := GroupGoverns(rows, s);
        assert SameInReach(rules, Group(rows, state));
        ReachNeedsSpellings(rules, RowsFor(rows, s));
      }
    }
    if PolicySpellingsMeet(rules, rows) {
      forall state: State ensures SameInReach(rules, Group(rows, state)) {
        var s := GoverningState(rows, state);
        if s in StatesOf(rows) {
          SpellingsReach(rules, RowsFor(rows, s));
        } else {
          UngovernedIsEmpty(rows, s);
        }
      }
    }
  }

  lemma UngovernedIsEmpty(rows: seq<Row>, s: Option<State>)
    requires s !in StatesOf(rows)
    ensures RowsFor(rows, s) == []
  {
    if RowsFor(rows, s) != [] {
      FirstHasState(rows, s);
    }
  }

  // ---------------------------------------------------------------------
  // Loading a policy back
  // ---------------------------------------------------------------------

  /** Grouped rows as the API shows them: exactly the stored rows, grouped. */
  ghost predicate IsLoad(rows: seq<Row>, groups: seq<Draft>) {
    && (forall g :: g in groups ==> g.mode.Some? && g.niches != [])
    && (forall g, n :: g in groups && n in g.niches ==> Row(g.state, g.mode.value, n) in rows)
    && (forall row :: row in rows ==>
          exists g :: g in groups && g.state == row.state && g.mode == Some(row.mode) && row.niche in g.niches)
  }

  /** `load_policy`: rows in query order, grouped by state and mode. */
  method LoadPolicy(rows: seq<Row>) returns (groups: seq<Draft>)
    ensures IsLoad(rows, groups)
    ensures forall i, j :: 0 <= i < j < |groups| ==>
      (groups[i].state, groups[i].mode) != (groups[j].state, groups[j].mode)
  {
    groups := [];
    var index: map<(Option<State>, Mode), nat> := map[];
    for i := 0 to |rows|
      invariant IsLoad(rows[..i], groups)
      invariant forall k :: k in index ==>
        index[k] < |groups| && (groups[index[k]].state, groups[index[k]].mode) == (k.0, Some(k.1))
      invariant forall j :: 0 <= j < |groups| ==>
        groups[j].mode.Some? && (groups[j].state, groups[j].mode.value) in index
        && index[(groups[j].state, groups[j].mode.value)] == j
    {
      var row := rows[i];
      assert rows[..i + 1] == rows[..i] + [row];
      ghost var before := groups;
      if (row.state, row.mode) in index {
        var j := index[(row.state, row.mode)];
        groups := groups[j := groups[j].(niches := groups[j].niches + [row.niche])];
        GroupExtended(rows[..i], before, row, j);
      } else {
        groups := groups + [Draft(row.state, Some(row.mode), [row.niche])];
        index := index[(row.state, row.mode) := |groups| - 1];
        GroupAdded(rows[..i], before, row);
      }
    }
    assert rows[..|rows|] == rows;
  }

  lemma GroupExtended(rows: seq<Row>, groups: seq<Draft>, row: Row, j: nat)
    requires IsLoad(rows, groups) && j < |groups|
    requires groups[j].state == row.state && groups[j].mode == Some(row.mode)
    ensures IsLoad(rows + [row], groups[j := groups[j].(niches := groups[j].niches + [row.niche])])
  {
    var grown := groups[j].(niches := groups[j].niches + [row.niche]);
    var after := groups[j := grown];
    assert after[j] == grown;
    forall g, n | g in after && n in g.niches ensures Row(g.state, g.mode.value, n) in rows + [row] {
      if g in groups {
        assert Row(g.state, g.mode.value, n) in rows;
      } else {
        assert g == grown && groups[j] in groups;
      }
    }
    forall x | x in rows + [row]
      ensures exists g :: g in after && g.state == x.state && g.mode == Some(x.mode) && x.niche in g.niches
    {
      if x in rows {
        var g :| g in groups && g.state == x.state && g.mode == Some(x.mode) && x.niche in g.niches;
        var k :| 0 <= k < |groups| && groups[k] == g;
        assert after[k] in after;
      } else {
        assert grown in after;
      }
    }
  }

  lemma GroupAdded(rows: seq<Row>, groups: seq<Draft>, row: Row)
    requires IsLoad(rows, groups)
    ensures IsLoad(rows + [row], groups + [Draft(row.state, Some(row.mode), [row.niche])])
  {
    var added := Draft(row.state, Some(row.mode), [row.niche]);
    var after := groups + [added];
    assert added in after && row.niche in added.niches;
    forall x | x in rows
      ensures exists g :: g in after && g.state == x.state && g.mode == Some(x.mode) && x.niche in g.niches
    {
      var g :| g in groups && g.state == x.state && g.mode == Some(x.mode) && x.niche in g.niches;
      assert g in after;
    }
  }

  lemma GroupHead(rows: seq<Row>, groups: seq<Draft>, g: Draft)
    requires IsLoad(rows, groups) && g in groups
    ensures g.mode.Some? && exists k :: 0 <= k < |rows| && rows[k].state == g.state && Some(rows[k].mode) == g.mode
  {
    var n := g.niches[0];
    assert n in g.niches;
    assert Row(g.state, g.mode.value, n) in rows;
  }

  /** Saving a loaded policy unchanged is accepted. */
  lemma LoadIsAccepted(rules: Rules, rows: seq<Row>, groups: seq<Draft>)
    requires rules.Valid() && PolicyOk(rules, rows) && IsLoad(rows, groups)
    ensures DraftsOk(rules, groups)
    ensures forall g :: g in groups ==> rules.CanonState(g.state) == g.state
  {
    forall g | g in groups ensures DraftOk(rules, g) && rules.CanonState(g.state) == g.state {
      GroupOk(rules, rows, groups, g);
    }
    forall i, j | 0 <= i < j < |groups| && rules.CanonState(groups[i].state) == rules.CanonState(groups[j].state)
      ensures groups[i].mode == groups[j].mode
    {
      assert groups[i] in groups && groups[j] in groups;
      GroupHead(rows, groups, groups[i]);
      GroupHead(rows, groups, groups[j]);
    }
  }

  lemma LoadedRowIsStored(rules: Rules, rows: seq<Row>, groups: seq<Draft>, row: Row)
    requires rules.Valid() && PolicyOk(rules, rows) && IsLoad(rows, groups) && DraftsOk(rules, groups)
    requires forall g :: g in groups ==> rules.CanonState(g.state) == g.state
    requires row in Flatten(rules, groups)
    ensures row in rows
  {
    FlattenFacts(rules, groups);
    var d, n :| d in groups && n in d.niches && row == RowOf(rules, d, n);
    NicheTrimmed(rules, rows, Row(d.state, d.mode.value, n));
  }

  lemma StoredRowIsLoaded(rules: Rules, rows: seq<Row>, groups: seq<Draft>, row: Row)
    requires rules.Valid() && PolicyOk(rules, rows) && IsLoad(rows, groups) && DraftsOk(rules, groups)
    requires forall g :: g in groups ==> rules.CanonState(g.state) == g.state
    requires row in rows
    ensures row in Flatten(rules, groups)
  {
    var out := Flatten(rules, groups);
    FlattenFacts(rules, groups);
    var g :| g in groups && g.state == row.state && g.mode == Some(row.mode) && row.niche in g.niches;
    NicheTrimmed(rules, rows, row);
    assert RowOf(rules, g, row.niche) == row;
    assert HasKey(rules, out, RowOf(rules, g, row.niche));
    var i :| 0 <= i < |out| && rules.Key(out[i]) == rules.Key(row);
    LoadedRowIsStored(rules, rows, groups, out[i]);
    var k :| 0 <= k < |rows| && rows[k] == out[i];
    var l :| 0 <= l < |rows| && rows[l] == row;
    assert k == l;
  }

  /** Saving a loaded policy unchanged is accepted and gives the same rows back. */
  lemma LoadRoundTrip(rules: Rules, rows: seq<Row>, groups: seq<Draft>)
    requires rules.Valid() && PolicyOk(rules, rows) && IsLoad(rows, groups)
    ensures DraftsOk(rules, groups)
    ensures forall row :: row in Flatten(rules, groups) <==> row in rows
  {
    LoadIsAccepted(rules, rows, groups);
    forall row ensures row in Flatten(rules, groups) <==> row in rows {
      if row in rows {
        StoredRowIsLoaded(rules, rows, groups, row);
      } else if row in Flatten(rules, groups) {
        LoadedRowIsStored(rules, rows, groups, row);
      }
    }
  }

  lemma NicheTrimmed(rules: Rules, rows: seq<Row>, row: Row)
    requires PolicyOk(rules, rows) && row in rows
    ensures Trim(row.niche) == row.niche && NicheOk(row.niche)
    ensures row.state.None? || row.state.value in rules.states
  {
  }

  lemma GroupOk(rules: Rules, rows: seq<Row>, groups: seq<Draft>, g: Draft)
    requires rules.Valid() && PolicyOk(rules, rows) && IsLoad(rows, groups) && g in groups
    ensures DraftOk(rules, g) && rules.CanonState(g.state) == g.state
  {
    NicheTrimmed(rules, rows, Row(g.state, g.mode.value, g.niches[0]));
    forall n | n in g.niches ensures NicheOk(n) {
      NicheTrimmed(rules, rows, Row(g.state, g.mode.value, n));
    }
  }
}
