/**
 The keyword reserve (jawnix/keyword_rollover.py): a pool of prepared
 candidates that is revalidated, refilled and activated across runs, against a
 durable history of every keyword ever used.
 */
module KeywordPool {
  import opened Basics
  import opened Text
  import opened Sieve
  import opened KeywordGeneration

  const POOL_TARGET := 150
  const ACTIVATION_COUNT := 25
  const MIN_ACTIVATION_COUNT := 5

  datatype Item = Item(term: string, model: nat, focus: nat)

  /** `history` holds normalized terms; `activated` lists every term handed to the scraper, oldest first. */
  datatype World = World(items: seq<Item>, history: set<string>, activated: seq<string>)

  // ---------------------------------------------------------------------
  // History and exclusions
  // ---------------------------------------------------------------------

  /** `normalize_keyword_term` */
  function Key(s: string): string {
    Fold(Squeeze(s))
  }

  lemma KeyIsFixed(s: string)
    ensures Key(Key(s)) == Key(s)
  {
    SqueezeIsTidy(s);
    FoldTidy(Squeeze(s));
    TidyIsFixed(Key(s));
    FoldIdempotent(Squeeze(s));
  }

  lemma AcceptedKey(t: string)
    requires Accepted(t)
    ensures Key(t) == Fold(t) && Fold(t) != []
  {
    TidyIsFixed(t);
  }

  /** `observe_keyword_history` */
  function Observed(history: set<string>, values: seq<string>): set<string> {
    if values == [] then history else Observed(history, values[..|values| - 1]) + NonEmpty(Key(values[|values| - 1]))
  }

  lemma {:induction false} ObservedFacts(history: set<string>, values: seq<string>)
    ensures history <= Observed(history, values)
    ensures forall v :: v in values && Key(v) != [] ==> Key(v) in Observed(history, values)
    ensures HistoryOk(history) ==> HistoryOk(Observed(history, values))
  {
    if values != [] {
      ObservedFacts(history, values[..|values| - 1]);
      KeyIsFixed(values[|values| - 1]);
    }
  }

  ghost predicate HistoryOk(history: set<string>) {
    forall h :: h in history ==> h != [] && Key(h) == h
  }

  /** The dictionary of values by key; a later value takes the key. */
  function Keyed(values: seq<string>): map<string, string> {
    if values == [] then map[]
    else
      var v := values[|values| - 1];
      if Key(v) == [] then Keyed(values[..|values| - 1]) else Keyed(values[..|values| - 1])[Key(v) := v]
  }

  /** `exclusion_metrics`: history comes last, and each of its terms is its own key. */
  function ExclusionSet(active: seq<string>, winners: seq<string>, history: set<string>): set<string> {
    (Keyed(active + winners) + map h | h in history :: h).Values
  }

  /** Every historic term is excluded in its folded form, whatever spelling is active now. */
  lemma HistoryIsExcluded(active: seq<string>, winners: seq<string>, history: set<string>)
    ensures history <= ExclusionSet(active, winners, history)
  {
    var m := Keyed(active + winners) + map h | h in history :: h;
    forall h | h in history ensures h in m.Values {
      assert m[h] == h;
    }
  }

  // ---------------------------------------------------------------------
  // Revalidation
  // ---------------------------------------------------------------------

  function Terms(items: seq<Item>): (ts: seq<string>)
    ensures |ts| == |items| && forall i :: 0 <= i < |items| ==> ts[i] == items[i].term
  {
    seq(|items|, i requires 0 <= i < |items| => items[i].term)
  }

  /** The first item of each term. */
  function ByTerm(items: seq<Item>): (m: map<string, Item>)
    ensures forall t :: t in m ==> m[t] in items && m[t].term == t
    ensures forall x :: x in items ==> x.term in m
  {
    if items == [] then map[] else
      assert items == [items[0]] + items[1..];
      ByTerm(items[1..])[items[0].term := items[0]]
  }

  function Recalled(items: seq<Item>, terms: seq<string>): (r: seq<Item>)
    requires forall t :: t in terms ==> t in ByTerm(items)
    ensures Terms(r) == terms
    ensures forall x :: x in r ==> x in items
  {
    var m := ByTerm(items);
    assert forall i :: 0 <= i < |terms| ==> terms[i] in terms && terms[i] in m && m[terms[i]].term == terms[i];
    seq(|terms|, i requires 0 <= i < |terms| => m[terms[i]])
  }

  lemma RebuiltIsRecalled(items: seq<Item>, terms: seq<string>, rebuilt: seq<Item>)
    requires forall t :: t in terms ==> t in ByTerm(items)
    requires |rebuilt| == |terms| && forall j :: 0 <= j < |terms| ==>
      terms[j] in ByTerm(items) && rebuilt[j] == ByTerm(items)[terms[j]]
    ensures rebuilt == Recalled(items, terms)
  {
  }

  function Valid(items: seq<Item>, base: set<string>, fuzzy: Matcher): seq<string> {
    Filtered(Lines(Terms(items)), base, POOL_TARGET, fuzzy)
  }

  /** A pool of accepted terms, none near an earlier one. */
  ghost predicate PoolOk(items: seq<Item>, fuzzy: Matcher) {
    Distinct(Terms(items), {}, fuzzy) && |items| <= POOL_TARGET
  }

  /** Looking a revalidated term up again never misses. */
  lemma LookupNeverMisses(items: seq<Item>, base: set<string>, fuzzy: Matcher)
    requires PoolOk(items, fuzzy)
    ensures forall t :: t in Valid(items, base, fuzzy) ==> t in ByTerm(items)
  {
    var rules := KeywordRules(fuzzy);
    forall t | t in Valid(items, base, fuzzy) ensures t in ByTerm(items) {
      SiftFrom(rules, Lines(Terms(items)), base, POOL_TARGET, [], t);
      var i :| 0 <= i < |items| && rules.norm(Lines(Terms(items))[i]) == t;
      CleanAt(rules, Terms(items), {}, i);
      AcceptedIsFixed(items[i].term);
      assert items[i] in items;
    }
  }

  lemma RulesAreMonotone(fuzzy: Matcher)
    ensures Monotone(KeywordRules(fuzzy))
  {
  }

  function Revalidated(items: seq<Item>, base: set<string>, fuzzy: Matcher): seq<Item>
    requires PoolOk(items, fuzzy)
  {
    LookupNeverMisses(items, base, fuzzy);
    Recalled(items, Valid(items, base, fuzzy))
  }

  lemma RevalidatedFacts(items: seq<Item>, base: set<string>, fuzzy: Matcher)
    requires PoolOk(items, fuzzy)
    ensures var r := Revalidated(items, base, fuzzy);
            && PoolOk(r, fuzzy) && Distinct(Terms(r), base, fuzzy)
            && |r| <= |items| && forall x :: x in r ==> x in items
  {
    var rules := KeywordRules(fuzzy);
    LookupNeverMisses(items, base, fuzzy);
    SiftFacts(rules, Lines(Terms(items)), base, POOL_TARGET, []);
    RulesAreMonotone(fuzzy);
    CleanWithLess(rules, Valid(items, base, fuzzy), base, {});
  }

  // ---------------------------------------------------------------------
  // Steps
  // ---------------------------------------------------------------------

  /** What the scraper reported when a transaction looked. */
  datatype Report = Report(current: seq<string>, winners: seq<string>)

  /** `_revalidate_pool`: observe, then recheck the pool against everything known. */
  function Check(w: World, r: Report, fuzzy: Matcher): World
    requires PoolOk(w.items, fuzzy)
  {
    var history := Observed(Observed(w.history, r.current), r.winners);
    w.(items := Revalidated(w.items, ExclusionSet(r.current, r.winners, history), fuzzy), history := history)
  }

  function Stamped(terms: seq<string>, model: string -> nat, focus: nat): (r: seq<Item>)
    ensures Terms(r) == terms
  {
    seq(|terms|, i requires 0 <= i < |terms| => Item(terms[i], model(terms[i]), focus))
  }

  datatype Offer = Offer(candidates: seq<Raw>, requested: int, model: string -> nat, focus: nat)

  /** New candidates for the room that is left, none near an exclusion or the pool. */
  function NewItems(items: seq<Item>, exclusions: set<string>, o: Offer, room: int, fuzzy: Matcher): seq<Item> {
    Stamped(Filtered(o.candidates, exclusions + SetOf(Terms(items)), room, fuzzy), o.model, o.focus)
  }

  function ToppedUp(v: World, exclusions: set<string>, o: Offer, fuzzy: Matcher): World {
    var room := Min(o.requested, POOL_TARGET - |v.items|);
    if room <= 0 then v else v.(items := v.items + NewItems(v.items, exclusions, o, room, fuzzy))
  }

  /** The second transaction of `refill_keyword_reserve`. */
  function Refill(w: World, r: Report, o: Offer, fuzzy: Matcher): World
    requires PoolOk(w.items, fuzzy)
  {
    var v := Check(w, r, fuzzy);
    ToppedUp(v, ExclusionSet(r.current, r.winners, v.history), o, fuzzy)
  }

  lemma CheckIs(w: World, r: Report, items: seq<Item>, history: set<string>, fuzzy: Matcher)
    requires PoolOk(w.items, fuzzy) && history == Observed(Observed(w.history, r.current), r.winners)
    requires items == Revalidated(w.items, ExclusionSet(r.current, r.winners, history), fuzzy)
    ensures Check(w, r, fuzzy) == World(items, history, w.activated)
  {
  }

  lemma CheckKeepsPool(w: World, r: Report, fuzzy: Matcher)
    requires PoolOk(w.items, fuzzy)
    ensures PoolOk(Check(w, r, fuzzy).items, fuzzy)
  {
    RevalidatedFacts(w.items,
      ExclusionSet(r.current, r.winners, Observed(Observed(w.history, r.current), r.winners)), fuzzy);
  }

  /** The pool as the activation sees it: rechecked once on entry and once more before the save. */
  function Prepared(w: World, r: Report, latest: Report, fuzzy: Matcher): World
    requires PoolOk(w.items, fuzzy)
  {
    CheckKeepsPool(w, r, fuzzy);
    var v := Check(w, r, fuzzy);
    v.(items := Revalidated(v.items, ExclusionSet(latest.current, latest.winners, v.history), fuzzy))
  }

  function Batch(w: World): seq<string> {
    Terms(w.items[..Min(ACTIVATION_COUNT, |w.items|)])
  }

  /** A saved batch leaves the pool, joins the log, and its returned list joins the history. */
  function HandedOver(p: World, saved: seq<string>): World {
    World(p.items[Min(ACTIVATION_COUNT, |p.items|)..], Observed(p.history, saved), p.activated + Batch(p))
  }

  /** `_activate_pool`, with the list the save returned, or none when it was refused. */
  function Activate(w: World, r: Report, latest: Report, saved: Option<seq<string>>, fuzzy: Matcher): World
    requires PoolOk(w.items, fuzzy)
  {
    Concluded(Check(w, r, fuzzy), Prepared(w, r, latest, fuzzy), saved)
  }

  function Concluded(v: World, p: World, saved: Option<seq<string>>): World {
    if |v.items| < MIN_ACTIVATION_COUNT then v
    else if |p.items| < MIN_ACTIVATION_COUNT || saved.None? then p
    else HandedOver(p, saved.value)
  }

  datatype Step =
    | DoCheck(report: Report)
    | DoRefill(report: Report, offer: Offer)
    | DoActivate(report: Report, latest: Report, saved: Option<seq<string>>)

  function Next(w: World, t: Step, fuzzy: Matcher): World
    requires PoolOk(w.items, fuzzy)
  {
    match t
    case DoCheck(r) => Check(w, r, fuzzy)
    case DoRefill(r, o) => Refill(w, r, o, fuzzy)
    case DoActivate(r, l, s) => Activate(w, r, l, s, fuzzy)
  }

  // ---------------------------------------------------------------------
  // Invariants
  // ---------------------------------------------------------------------

  /** Every activated term is accepted and on record, and near no term activated before it. */
  ghost predicate LogOk(history: set<string>, activated: seq<string>, fuzzy: Matcher) {
    Recorded(history, activated) && Spread(activated, fuzzy)
  }

  ghost predicate Recorded(history: set<string>, terms: seq<string>) {
    forall i :: 0 <= i < |terms| ==> Accepted(terms[i]) && Fold(terms[i]) in history
  }

  ghost predicate Spread(terms: seq<string>, fuzzy: Matcher) {
    forall i, j :: 0 <= i < j < |terms| ==> !NearDuplicate(terms[j], terms[i], fuzzy)
  }

  ghost predicate WorldOk(w: World, fuzzy: Matcher) {
    PoolOk(w.items, fuzzy) && HistoryOk(w.history) && LogOk(w.history, w.activated, fuzzy)
  }

  lemma CheckOk(w: World, r: Report, fuzzy: Matcher)
    requires WorldOk(w, fuzzy)
    ensures WorldOk(Check(w, r, fuzzy), fuzzy) && w.history <= Check(w, r, fuzzy).history
    ensures |Check(w, r, fuzzy).items| <= |w.items| && Check(w, r, fuzzy).activated == w.activated
    ensures Distinct(Terms(Check(w, r, fuzzy).items),
      ExclusionSet(r.current, r.winners, Check(w, r, fuzzy).history), fuzzy)
  {
    ObservedFacts(w.history, r.current);
    ObservedFacts(Observed(w.history, r.current), r.winners);
    var history := Observed(Observed(w.history, r.current), r.winners);
    RevalidatedFacts(w.items, ExclusionSet(r.current, r.winners, history), fuzzy);
  }

  lemma TermsJoin(items: seq<Item>, more: seq<Item>)
    ensures Terms(items + more) == Terms(items) + Terms(more)
  {
  }

  lemma PoolGrows(items: seq<Item>, more: seq<Item>, base: set<string>, fuzzy: Matcher)
    requires Distinct(Terms(items), base, fuzzy) && Distinct(Terms(more), base + SetOf(Terms(items)), fuzzy)
    requires |items| + |more| <= POOL_TARGET
    ensures PoolOk(items + more, fuzzy)
  {
    RulesAreMonotone(fuzzy);
    CleanGrows(KeywordRules(fuzzy), Terms(items), Terms(more), base);
    TermsJoin(items, more);
  }

  lemma NewItemsFacts(items: seq<Item>, exclusions: set<string>, o: Offer, room: int, fuzzy: Matcher)
    requires room >= 1
    ensures Distinct(Terms(NewItems(items, exclusions, o, room, fuzzy)), exclusions + SetOf(Terms(items)), fuzzy)
    ensures |NewItems(items, exclusions, o, room, fuzzy)| <= room
  {
    SiftFacts(KeywordRules(fuzzy), o.candidates, exclusions + SetOf(Terms(items)), room, []);
  }

  lemma ToppedUpPool(v: World, exclusions: set<string>, o: Offer, fuzzy: Matcher)
    requires PoolOk(v.items, fuzzy) && Distinct(Terms(v.items), exclusions, fuzzy)
    ensures PoolOk(ToppedUp(v, exclusions, o, fuzzy).items, fuzzy)
  {
    var room := Min(o.requested, POOL_TARGET - |v.items|);
    if room > 0 {
      NewItemsFacts(v.items, exclusions, o, room, fuzzy);
      PoolGrows(v.items, NewItems(v.items, exclusions, o, room, fuzzy), exclusions, fuzzy);
    }
  }

  lemma ToppedUpOk(v: World, exclusions: set<string>, o: Offer, fuzzy: Matcher)
    requires WorldOk(v, fuzzy) && Distinct(Terms(v.items), exclusions, fuzzy)
    ensures WorldOk(ToppedUp(v, exclusions, o, fuzzy), fuzzy)
  {
    ToppedUpPool(v, exclusions, o, fuzzy);
  }

  lemma RefillOk(w: World, r: Report, o: Offer, fuzzy: Matcher)
    requires WorldOk(w, fuzzy)
    ensures WorldOk(Refill(w, r, o, fuzzy), fuzzy)
  {
    CheckOk(w, r, fuzzy);
    var v := Check(w, r, fuzzy);
    ToppedUpOk(v, ExclusionSet(r.current, r.winners, v.history), o, fuzzy);
  }

  /** The terms a save hands over have a spelling in the list it returns. */
  ghost predicate Returned(terms: seq<string>, saved: seq<string>) {
    forall t :: t in terms ==> exists v :: v in saved && Key(v) == Key(t)
  }

  ghost predicate Kept(w: World, t: Step, fuzzy: Matcher)
    requires PoolOk(w.items, fuzzy)
  {
    t.DoActivate? && t.saved.Some? ==> Returned(Batch(Prepared(w, t.report, t.latest, fuzzy)), t.saved.value)
  }

  lemma PreparedOk(w: World, r: Report, latest: Report, fuzzy: Matcher)
    requires WorldOk(w, fuzzy)
    ensures var p := Prepared(w, r, latest, fuzzy);
            WorldOk(p, fuzzy) && p.activated == w.activated && Distinct(Terms(p.items), p.history, fuzzy)
  {
    CheckOk(w, r, fuzzy);
    var v := Check(w, r, fuzzy);
    var base := ExclusionSet(latest.current, latest.winners, v.history);
    RevalidatedFacts(v.items, base, fuzzy);
    HistoryIsExcluded(latest.current, latest.winners, v.history);
    RulesAreMonotone(fuzzy);
    CleanWithLess(KeywordRules(fuzzy), Terms(Revalidated(v.items, base, fuzzy)), base, v.history);
  }

  /** The comparison sees only the folded text, so a stored term is as good as its original. */
  lemma NearFolded(k: string, e: string, fuzzy: Matcher)
    ensures NearDuplicate(k, Fold(e), fuzzy) <==> NearDuplicate(k, e, fuzzy)
  {
    FoldIdempotent(e);
  }

  /** A clean batch is near nothing on record. */
  lemma CleanTermIsNew(terms: seq<string>, j: nat, history: set<string>, e: string, fuzzy: Matcher)
    requires Distinct(terms, history, fuzzy) && j < |terms| && Fold(e) in history
    ensures Accepted(terms[j]) && !NearDuplicate(terms[j], e, fuzzy)
  {
    CleanAt(KeywordRules(fuzzy), terms, history, j);
    NearFolded(terms[j], e, fuzzy);
    assert Fold(e) in history + SetOf(terms[..j]);
  }

  /** And none of its terms is near an earlier one. */
  lemma CleanTermsDiffer(terms: seq<string>, i: nat, j: nat, history: set<string>, fuzzy: Matcher)
    requires Distinct(terms, history, fuzzy) && i < j < |terms|
    ensures !NearDuplicate(terms[j], terms[i], fuzzy)
  {
    CleanAt(KeywordRules(fuzzy), terms, history, j);
    assert terms[i] in terms[..j];
    assert terms[i] in history + SetOf(terms[..j]);
  }

  lemma BatchIsAccepted(terms: seq<string>, j: nat, history: set<string>, fuzzy: Matcher)
    requires Distinct(terms, history, fuzzy) && j < |terms|
    ensures Accepted(terms[j])
  {
    CleanAt(KeywordRules(fuzzy), terms, history, j);
  }

  lemma BatchIsRecorded(history: set<string>, batch: seq<string>, saved: seq<string>, i: nat)
    requires Returned(batch, saved) && i < |batch| && Accepted(batch[i])
    ensures Fold(batch[i]) in Observed(history, saved)
  {
    ObservedFacts(history, saved);
    AcceptedKey(batch[i]);
    assert batch[i] in batch;
  }

  lemma RecordGrows(history: set<string>, activated: seq<string>, batch: seq<string>, saved: seq<string>,
                    fuzzy: Matcher)
    requires Recorded(history, activated) && Distinct(batch, history, fuzzy) && Returned(batch, saved)
    ensures Recorded(Observed(history, saved), activated + batch)
  {
    ObservedFacts(history, saved);
    var all, n := activated + batch, |activated|;
    forall i | 0 <= i < |all| ensures Accepted(all[i]) && Fold(all[i]) in Observed(history, saved) {
      if i >= n {
        BatchIsAccepted(batch, i - n, history, fuzzy);
        BatchIsRecorded(history, batch, saved, i - n);
      }
    }
  }

  lemma NewPair(activated: seq<string>, batch: seq<string>, history: set<string>, i: nat, j: nat, fuzzy: Matcher)
    requires Recorded(history, activated) && Distinct(batch, history, fuzzy) && i < |activated| + j && j < |batch|
    ensures !NearDuplicate(batch[j], (activated + batch)[i], fuzzy)
  {
    if i < |activated| {
      assert Fold(activated[i]) in history;
      CleanTermIsNew(batch, j, history, activated[i], fuzzy);
    } else {
      CleanTermsDiffer(batch, i - |activated|, j, history, fuzzy);
    }
  }

  lemma PairApart(activated: seq<string>, batch: seq<string>, history: set<string>, i: nat, j: nat, fuzzy: Matcher)
    requires Recorded(history, activated) && Spread(activated, fuzzy) && Distinct(batch, history, fuzzy)
    requires i < j < |activated| + |batch|
    ensures !NearDuplicate((activated + batch)[j], (activated + batch)[i], fuzzy)
  {
    if j >= |activated| {
      NewPair(activated, batch, history, i, j - |activated|, fuzzy);
    } else {
      assert !NearDuplicate(activated[j], activated[i], fuzzy);
    }
  }

  lemma SpreadGrows(activated: seq<string>, batch: seq<string>, history: set<string>, fuzzy: Matcher)
    requires Recorded(history, activated) && Spread(activated, fuzzy) && Distinct(batch, history, fuzzy)
    ensures Spread(activated + batch, fuzzy)
  {
    forall i, j | 0 <= i < j < |activated + batch|
      ensures !NearDuplicate((activated + batch)[j], (activated + batch)[i], fuzzy)
    {
      PairApart(activated, batch, history, i, j, fuzzy);
    }
  }

  lemma LogGrows(history: set<string>, activated: seq<string>, batch: seq<string>, saved: seq<string>, fuzzy: Matcher)
    requires HistoryOk(history) && LogOk(history, activated, fuzzy) && Distinct(batch, history, fuzzy)
    requires Returned(batch, saved)
    ensures HistoryOk(Observed(history, saved)) && LogOk(Observed(history, saved), activated + batch, fuzzy)
  {
    ObservedFacts(history, saved);
    RecordGrows(history, activated, batch, saved, fuzzy);
    SpreadGrows(activated, batch, history, fuzzy);
  }

  lemma TermsSplit(items: seq<Item>, n: nat)
    requires n <= |items|
    ensures Terms(items[..n]) == Terms(items)[..n] && Terms(items[n..]) == Terms(items)[n..]
  {
  }

  lemma BatchSplits(items: seq<Item>, n: nat, history: set<string>, fuzzy: Matcher)
    requires PoolOk(items, fuzzy) && Distinct(Terms(items), history, fuzzy) && n <= |items|
    ensures Distinct(Terms(items[..n]), history, fuzzy) && PoolOk(items[n..], fuzzy)
  {
    TermsSplit(items, n);
    RulesAreMonotone(fuzzy);
    CleanPrefix(KeywordRules(fuzzy), Terms(items), n, history);
    CleanSuffix(KeywordRules(fuzzy), Terms(items), n, {});
  }

  lemma HandedOverOk(p: World, saved: seq<string>, fuzzy: Matcher)
    requires WorldOk(p, fuzzy) && Distinct(Terms(p.items), p.history, fuzzy) && Returned(Batch(p), saved)
    ensures WorldOk(HandedOver(p, saved), fuzzy)
  {
    BatchSplits(p.items, Min(ACTIVATION_COUNT, |p.items|), p.history, fuzzy);
    LogGrows(p.history, p.activated, Batch(p), saved, fuzzy);
  }

  lemma ConcludedOk(v: World, p: World, saved: Option<seq<string>>, fuzzy: Matcher)
    requires WorldOk(v, fuzzy) && WorldOk(p, fuzzy) && Distinct(Terms(p.items), p.history, fuzzy)
    requires saved.Some? ==> Returned(Batch(p), saved.value)
    ensures WorldOk(Concluded(v, p, saved), fuzzy)
  {
    if saved.Some? {
      HandedOverOk(p, saved.value, fuzzy);
    }
  }

  lemma ActivateOk(w: World, r: Report, latest: Report, saved: Option<seq<string>>, fuzzy: Matcher)
    requires WorldOk(w, fuzzy) && Kept(w, DoActivate(r, latest, saved), fuzzy)
    ensures WorldOk(Activate(w, r, latest, saved, fuzzy), fuzzy)
  {
    CheckOk(w, r, fuzzy);
    PreparedOk(w, r, latest, fuzzy);
    ConcludedOk(Check(w, r, fuzzy), Prepared(w, r, latest, fuzzy), saved, fuzzy);
  }

  lemma StepKeepsOk(w: World, t: Step, fuzzy: Matcher)
    requires WorldOk(w, fuzzy) && Kept(w, t, fuzzy)
    ensures WorldOk(Next(w, t, fuzzy), fuzzy)
  {
    match t
    case DoCheck(r) => CheckOk(w, r, fuzzy);
    case DoRefill(r, o) => RefillOk(w, r, o, fuzzy);
    case DoActivate(r, l, s) => ActivateOk(w, r, l, s, fuzzy);
  }

  // ---------------------------------------------------------------------
  // Every run
  // ---------------------------------------------------------------------

  ghost predicate IsRun(ws: seq<World>, ts: seq<Step>, fuzzy: Matcher) {
    && |ws| == |ts| + 1
    && ws[0] == World([], {}, [])
    && forall k :: 0 <= k < |ts| ==> IsStep(ws, ts, k, fuzzy)
  }

  ghost predicate IsStep(ws: seq<World>, ts: seq<Step>, k: nat, fuzzy: Matcher)
    requires k < |ts| && k + 1 < |ws|
  {
    Follows(ws[k], ts[k], ws[k + 1], fuzzy)
  }

  /** The state after a step; the step is defined on pools in order, which `RunKeepsOk` shows they all are. */
  ghost predicate Follows(w: World, t: Step, v: World, fuzzy: Matcher) {
    PoolOk(w.items, fuzzy) ==> Kept(w, t, fuzzy) && v == Next(w, t, fuzzy)
  }

  lemma StepOk(w: World, t: Step, v: World, fuzzy: Matcher)
    requires WorldOk(w, fuzzy) && Follows(w, t, v, fuzzy)
    ensures WorldOk(v, fuzzy)
  {
    StepKeepsOk(w, t, fuzzy);
  }

  lemma {:induction false} RunKeepsOk(ws: seq<World>, ts: seq<Step>, k: nat, fuzzy: Matcher)
    requires IsRun(ws, ts, fuzzy) && k < |ws|
    ensures WorldOk(ws[k], fuzzy)
  {
    if k > 0 {
      RunKeepsOk(ws, ts, k - 1, fuzzy);
      assert IsStep(ws, ts, k - 1, fuzzy);
      StepOk(ws[k - 1], ts[k - 1], ws[k], fuzzy);
    }
  }

  /**
   In every state of every run the pool holds at most 150 terms and no later
   term is a near duplicate of an earlier one, neither in the pool nor among
   all terms ever activated; so no keyword is activated twice up to case.
   */
  lemma NoKeywordTwice(ws: seq<World>, ts: seq<Step>, k: nat, fuzzy: Matcher)
    requires IsRun(ws, ts, fuzzy) && k < |ws|
    ensures |ws[k].items| <= POOL_TARGET
    ensures forall i, j :: 0 <= i < j < |ws[k].items| ==>
      !NearDuplicate(ws[k].items[j].term, ws[k].items[i].term, fuzzy)
    ensures forall i, j :: 0 <= i < j < |ws[k].activated| ==>
      !NearDuplicate(ws[k].activated[j], ws[k].activated[i], fuzzy)
    ensures forall i, j :: 0 <= i < j < |ws[k].activated| ==> Fold(ws[k].activated[i]) != Fold(ws[k].activated[j])
  {
    RunKeepsOk(ws, ts, k, fuzzy);
    var terms, log := Terms(ws[k].items), ws[k].activated;
    forall i, j | 0 <= i < j < |terms| ensures !NearDuplicate(terms[j], terms[i], fuzzy) {
      CleanTermsDiffer(terms, i, j, {}, fuzzy);
    }
    forall i, j | 0 <= i < j < |log| ensures Fold(log[i]) != Fold(log[j]) {
      assert !NearDuplicate(log[j], log[i], fuzzy);
    }
  }

  // ---------------------------------------------------------------------
  // The pool row, updated in place
  // ---------------------------------------------------------------------

  /** Looks each term up in turn. */
  method Rebuild(table: map<string, Item>, terms: seq<string>) returns (items: seq<Item>)
    requires forall t :: t in terms ==> t in table
    ensures |items| == |terms| && forall j :: 0 <= j < |terms| ==> terms[j] in table && items[j] == table[terms[j]]
  {
    items := [];
    for i := 0 to |terms|
      invariant |items| == i && forall j :: 0 <= j < i ==> terms[j] in table && items[j] == table[terms[j]]
    {
      assert terms[i] in terms;
      items := items + [table[terms[i]]];
    }
  }

  class Reserve {
    const fuzzy: Matcher
    var items: seq<Item>
    var history: set<string>
    var activated: seq<string>

    constructor (fuzzy: Matcher)
      ensures View() == World([], {}, []) && WorldOk(View(), this.fuzzy) && this.fuzzy == fuzzy
    {
      this.fuzzy := fuzzy;
      items, history, activated := [], {}, [];
    }

    function View(): World
      reads this
    {
      World(items, history, activated)
    }

    /** The lookup table: walking backwards leaves the first item of each term. */
    method TableOf() returns (m: map<string, Item>)
      ensures m == ByTerm(items)
    {
      m := map[];
      var i := |items|;
      while i > 0
        invariant 0 <= i <= |items| && m == ByTerm(items[i..])
      {
        i := i - 1;
        assert items[i..][0] == items[i] && items[i..][1..] == items[i + 1..];
        m := m[items[i].term := items[i]];
      }
      assert items[0..] == items;
    }

    /** Keeps what passes the filter against `base`; no lookup misses. */
    method Recheck(base: set<string>)
      requires PoolOk(items, fuzzy)
      modifies this`items
      ensures PoolOk(old(items), fuzzy) && items == Revalidated(old(items), base, fuzzy)
    {
      var valid := Valid(items, base, fuzzy);
      var table := TableOf();
      LookupNeverMisses(items, base, fuzzy);
      var rebuilt := Rebuild(table, valid);
      RebuiltIsRecalled(items, valid, rebuilt);
      items := rebuilt;
    }

    method Revalidate(r: Report)
      requires PoolOk(items, fuzzy)
      modifies this`items, this`history
      ensures PoolOk(old(items), fuzzy) && View() == Check(old(View()), r, fuzzy)
    {
      ghost var w := View();
      history := Observed(Observed(history, r.current), r.winners);
      Recheck(ExclusionSet(r.current, r.winners, history));
      CheckIs(w, r, items, history, fuzzy);
    }

    method AddOffer(exclusions: set<string>, o: Offer)
      modifies this`items
      ensures View() == ToppedUp(old(View()), exclusions, o, fuzzy)
    {
      var room := Min(o.requested, POOL_TARGET - |items|);
      if room > 0 {
        items := items + NewItems(items, exclusions, o, room, fuzzy);
      }
    }

    method TopUp(r: Report, o: Offer)
      requires WorldOk(View(), fuzzy)
      modifies this`items, this`history
      ensures WorldOk(View(), fuzzy)
      ensures PoolOk(old(items), fuzzy) && View() == Refill(old(View()), r, o, fuzzy)
    {
      RefillOk(View(), r, o, fuzzy);
      Revalidate(r);
      AddOffer(ExclusionSet(r.current, r.winners, history), o);
    }

    method HandOver(saved: seq<string>) returns (batch: seq<string>)
      requires |items| >= MIN_ACTIVATION_COUNT
      modifies this
      ensures View() == HandedOver(old(View()), saved) && batch == Batch(old(View()))
      ensures MIN_ACTIVATION_COUNT <= |batch| <= ACTIVATION_COUNT
    {
      batch := Batch(View());
      items, history, activated := items[|batch|..], Observed(history, saved), activated + batch;
    }

    /** Rechecks the pool on entry and, when it holds enough, once more before the save. */
    method Prepare(r: Report, latest: Report) returns (enough: bool, ghost v: World, ghost p: World)
      requires PoolOk(items, fuzzy)
      modifies this`items, this`history
      ensures PoolOk(old(items), fuzzy)
      ensures v == Check(old(View()), r, fuzzy) && p == Prepared(old(View()), r, latest, fuzzy)
      ensures v.activated == p.activated == old(activated)
      ensures View() == (if enough then p else v) && (enough <==> |v.items| >= MIN_ACTIVATION_COUNT)
    {
      CheckKeepsPool(View(), r, fuzzy);
      v, p := Check(View(), r, fuzzy), Prepared(View(), r, latest, fuzzy);
      Revalidate(r);
      enough := |items| >= MIN_ACTIVATION_COUNT;
      if enough {
        Recheck(ExclusionSet(latest.current, latest.winners, history));
      }
    }

    /** Returns the terms handed to the scraper. */
    method ActivatePool(r: Report, latest: Report, saved: Option<seq<string>>) returns (batch: seq<string>)
      requires PoolOk(items, fuzzy)
      modifies this
      ensures PoolOk(old(items), fuzzy) && View() == Activate(old(View()), r, latest, saved, fuzzy)
      ensures activated == old(activated) + batch
      ensures batch != [] ==> MIN_ACTIVATION_COUNT <= |batch| <= ACTIVATION_COUNT
    {
      ghost var v, p;
      var enough;
      enough, v, p := Prepare(r, latest);
      batch := Conclude(enough, saved, v, p);
    }

    /** Hands a batch over when there is one and the save went through. */
    method Conclude(enough: bool, saved: Option<seq<string>>, ghost v: World, ghost p: World)
      returns (batch: seq<string>)
      requires View() == (if enough then p else v) && (enough <==> |v.items| >= MIN_ACTIVATION_COUNT)
      modifies this
      ensures View() == Concluded(v, p, saved)
      ensures activated == old(activated) + batch
      ensures batch != [] ==> MIN_ACTIVATION_COUNT <= |batch| <= ACTIVATION_COUNT
    {
      batch := [];
      if enough && |items| >= MIN_ACTIVATION_COUNT && saved.Some? {
        batch := HandOver(saved.value);
      }
    }

    method Rollover(r: Report, latest: Report, saved: Option<seq<string>>) returns (batch: seq<string>)
      requires WorldOk(View(), fuzzy) && Kept(View(), DoActivate(r, latest, saved), fuzzy)
      modifies this
      ensures WorldOk(View(), fuzzy)
      ensures activated == old(activated) + batch
    {
      ActivateOk(View(), r, latest, saved, fuzzy);
      batch := ActivatePool(r, latest, saved);
    }
  }
}
