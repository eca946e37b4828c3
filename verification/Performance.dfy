/**
 Lead feedback and Source Performance (jawnix/api.py, `create_feedback` and
 `create_outcome`; jawnix/performance.py). The Admin screen reads aggregate
 counts, offline analysis reads a row-by-row snapshot; they agree because
 feedback keeps at most one active outcome per event and metric.
 */
module Performance {
  import opened Basics

  type EventId = nat
  type OutcomeId = nat

  datatype Metric = Quality | PositiveMetric | BookedMetric | CanceledMetric | NoShowMetric
  datatype Kind = Good | Poor | PositiveKind | BookedKind | CanceledKind | NoShowKind

  /** `_OUTCOME_METRICS` */
  function MetricOf(k: Kind): Metric {
    match k
    case Good => Quality
    case Poor => Quality
    case PositiveKind => PositiveMetric
    case BookedKind => BookedMetric
    case CanceledKind => CanceledMetric
    case NoShowKind => NoShowMetric
  }

  /** An outcome's id is its position; ids grow with time of creation. */
  datatype Outcome = Outcome(event: EventId, kind: Kind, supersedes: Option<OutcomeId>)

  datatype Disposition = Positive | Booked | AppointmentCanceled | NoShow | OtherDisposition(code: nat)
  datatype Transition = Transition(event: EventId, disposition: Disposition)

  /** A delivered Lead; `google` tells source_kind "google_maps" from legacy. */
  datatype Delivery = Delivery(google: bool, segment: string, period: string)

  datatype Feedback = Feedback(events: seq<Delivery>, outcomes: seq<Outcome>, transitions: seq<Transition>)

  // ---------------------------------------------------------------------
  // The supersession chain
  // ---------------------------------------------------------------------

  predicate Superseded(os: seq<Outcome>, i: OutcomeId) {
    exists j :: 0 <= j < |os| && os[j].supersedes == Some(i)
  }

  predicate Active(os: seq<Outcome>, i: int) {
    0 <= i < |os| && !Superseded(os, i)
  }

  predicate Is(o: Outcome, e: EventId, m: Metric) {
    o.event == e && MetricOf(o.kind) == m
  }

  /** Some active outcome of event `e` for metric `m`. */
  predicate HasActive(os: seq<Outcome>, e: EventId, m: Metric) {
    exists i :: 0 <= i < |os| && Active(os, i) && Is(os[i], e, m)
  }

  /** A correction points back to an outcome of the same event and metric. */
  ghost predicate ChainsOk(os: seq<Outcome>) {
    forall i :: 0 <= i < |os| && os[i].supersedes.Some? ==>
      && os[i].supersedes.value < i
      && Is(os[os[i].supersedes.value], os[i].event, MetricOf(os[i].kind))
  }

  ghost predicate OneActive(os: seq<Outcome>) {
    forall i, j :: Active(os, i) && Active(os, j) && Is(os[i], os[j].event, MetricOf(os[j].kind)) ==> i == j
  }

  /**
   What a handler sees: only the event's own history, and for ratings only the
   quality part of it, is read to decide what is superseded.
   */
  predicate InHistory(o: Outcome, e: EventId, m: Option<Metric>) {
    o.event == e && (m == None || m == Some(MetricOf(o.kind)))
  }

  predicate ActiveIn(os: seq<Outcome>, e: EventId, m: Option<Metric>, i: int) {
    && 0 <= i < |os|
    && InHistory(os[i], e, m)
    && !exists j :: 0 <= j < |os| && InHistory(os[j], e, m) && os[j].supersedes == Some(i)
  }

  /** Outcome `i` is one that a report of this metric may correct. */
  predicate Corrects(os: seq<Outcome>, e: EventId, m: Metric, i: OutcomeId) {
    ActiveIn(os, e, None, i) && Is(os[i], e, m)
  }

  predicate Reported(os: seq<Outcome>, e: EventId, m: Metric) {
    exists i :: 0 <= i < |os| && ActiveIn(os, e, None, i) && Is(os[i], e, m)
  }

  /**
   `create_outcome` refuses a correction of anything but an active outcome of the metric, and a
   second first report.
   */
  function WithOutcome(f: Feedback, e: EventId, kind: Kind, supersedes: Option<OutcomeId>): Option<Feedback> {
    var os := f.outcomes;
    if kind in {CanceledKind, NoShowKind} && !Reported(os, e, BookedMetric) then None
    else if supersedes.Some? && !Corrects(os, e, MetricOf(kind), supersedes.value) then None
    else if supersedes.None? && Reported(os, e, MetricOf(kind)) then None
    else Some(f.(outcomes := os + [Outcome(e, kind, supersedes)]))
  }

  /** The last of the event's ratings that no later rating supersedes, among the first `n`. */
  function ActiveRating(os: seq<Outcome>, e: EventId, n: nat): (r: Option<OutcomeId>)
    requires n <= |os|
    ensures r.Some? ==> r.value < n && ActiveIn(os, e, Some(Quality), r.value)
    ensures r.None? ==> forall i :: 0 <= i < n ==> !ActiveIn(os, e, Some(Quality), i)
  {
    if n == 0 then None
    else if ActiveIn(os, e, Some(Quality), n - 1) then Some(n - 1)
    else ActiveRating(os, e, n - 1)
  }

  predicate HasDisposition(f: Feedback, e: EventId, d: Disposition) {
    exists i :: 0 <= i < |f.transitions| && f.transitions[i] == Transition(e, d)
  }

  function Rating(f: Feedback, e: EventId, good: bool): Outcome {
    Outcome(e, if good then Good else Poor, ActiveRating(f.outcomes, e, |f.outcomes|))
  }

  /** `create_feedback`: a disposition, and optionally a rating that supersedes the current one. */
  function WithFeedback(f: Feedback, e: EventId, d: Disposition, rating: Option<bool>): Option<Feedback> {
    if d in {AppointmentCanceled, NoShow} && !HasDisposition(f, e, Booked) then None
    else
      var rated := if rating.None? then f.outcomes else f.outcomes + [Rating(f, e, rating.value)];
      Some(f.(outcomes := rated, transitions := f.transitions + [Transition(e, d)]))
  }

  /** Corrections never cross events or metrics, so a handler's partial view of the history is exact. */
  lemma PartialViewIsExact(os: seq<Outcome>, e: EventId, m: Option<Metric>, i: int)
    requires ChainsOk(os) && 0 <= i < |os| && InHistory(os[i], e, m)
    ensures ActiveIn(os, e, m, i) <==> Active(os, i)
  {
    if Superseded(os, i) {
      var j :| 0 <= j < |os| && os[j].supersedes == Some(i);
      assert Is(os[i], os[j].event, MetricOf(os[j].kind));
      assert InHistory(os[j], e, m);
    }
  }

  ghost predicate FeedbackOk(f: Feedback) {
    ChainsOk(f.outcomes) && OneActive(f.outcomes)
  }

  /** Adding an outcome that corrects the active one, or is the first, keeps one active. */
  lemma AppendKeepsOne(os: seq<Outcome>, o: Outcome)
    requires ChainsOk(os) && OneActive(os)
    requires o.supersedes.Some? ==>
      Active(os, o.supersedes.value) && Is(os[o.supersedes.value], o.event, MetricOf(o.kind))
    requires o.supersedes.None? ==> forall i :: 0 <= i < |os| && Is(os[i], o.event, MetricOf(o.kind)) ==> !Active(os, i)
    ensures ChainsOk(os + [o]) && OneActive(os + [o])
  {
    var n, ps := |os|, os + [o];
    forall i | 0 <= i < n && Active(ps, i) ensures Active(os, i) && o.supersedes != Some(i) {
      assert forall j :: 0 <= j < n ==> os[j] == ps[j];
      assert ps[n] == o;
    }
  }

  lemma OutcomeKeepsOk(f: Feedback, e: EventId, kind: Kind, supersedes: Option<OutcomeId>)
    requires FeedbackOk(f) && WithOutcome(f, e, kind, supersedes).Some?
    ensures FeedbackOk(WithOutcome(f, e, kind, supersedes).value)
  {
    var os := f.outcomes;
    if supersedes.None? {
      forall i | 0 <= i < |os| && Is(os[i], e, MetricOf(kind)) ensures !Active(os, i) {
        PartialViewIsExact(os, e, None, i);
        assert !Reported(os, e, MetricOf(kind));
      }
    } else {
      PartialViewIsExact(os, e, None, supersedes.value);
    }
    AppendKeepsOne(os, Outcome(e, kind, supersedes));
  }

  lemma FeedbackKeepsOk(f: Feedback, e: EventId, d: Disposition, rating: Option<bool>)
    requires FeedbackOk(f) && WithFeedback(f, e, d, rating).Some?
    ensures FeedbackOk(WithFeedback(f, e, d, rating).value)
  {
    if rating.Some? {
      var os := f.outcomes;
      forall i | 0 <= i < |os| && Is(os[i], e, Quality) ensures Active(os, i) <==> ActiveIn(os, e, Some(Quality), i) {
        PartialViewIsExact(os, e, Some(Quality), i);
      }
      AppendKeepsOne(os, Rating(f, e, rating.value));
    }
  }

  datatype Post =
    | PostDelivery(delivery: Delivery)
    | PostOutcome(event: EventId, kind: Kind, supersedes: Option<OutcomeId>)
    | PostFeedback(event: EventId, disposition: Disposition, rating: Option<bool>)

  function Posted(f: Feedback, p: Post): Feedback {
    match p
    case PostDelivery(d) => f.(events := f.events + [d])
    case PostOutcome(e, k, s) =>
      (match WithOutcome(f, e, k, s) case None => f case Some(g) => g)
    case PostFeedback(e, d, r) =>
      (match WithFeedback(f, e, d, r) case None => f case Some(g) => g)
  }

  function PostedAll(ps: seq<Post>): Feedback {
    if ps == [] then Feedback([], [], []) else Posted(PostedAll(ps[..|ps| - 1]), ps[|ps| - 1])
  }

  /** Every history the two endpoints can build has at most one active outcome per event and metric. */
  lemma {:induction false} EndpointsKeepOneActive(ps: seq<Post>)
    ensures FeedbackOk(PostedAll(ps))
  {
    if ps != [] {
      var f, p := PostedAll(ps[..|ps| - 1]), ps[|ps| - 1];
      EndpointsKeepOneActive(ps[..|ps| - 1]);
      match p {
        case PostDelivery(_) =>
        case PostOutcome(e, k, s) =>
          if WithOutcome(f, e, k, s).Some? {
            OutcomeKeepsOk(f, e, k, s);
          }
        case PostFeedback(e, d, r) =>
          if WithFeedback(f, e, d, r).Some? {
            FeedbackKeepsOk(f, e, d, r);
          }
      }
    }
  }

  // ---------------------------------------------------------------------
  // Aggregate summary
  // ---------------------------------------------------------------------

  datatype Counts = Counts(delivered: nat, worked: nat, rated: nat, good: nat, poor: nat, positive: nat, booked: nat)

  const ZERO := Counts(0, 0, 0, 0, 0, 0, 0)

  /** How many of the first `n` events satisfy `p`. */
  function CountTo(n: nat, p: nat -> bool): (k: nat)
    ensures k <= n
  {
    if n == 0 then 0 else CountTo(n - 1, p) + (if p(n - 1) then 1 else 0)
  }

  predicate Google(f: Feedback, e: EventId) {
    e < |f.events| && f.events[e].google
  }

  predicate AnyTransition(f: Feedback, e: EventId) {
    exists i :: 0 <= i < |f.transitions| && f.transitions[i].event == e
  }

  /** An active quality rating of this kind. */
  predicate RatedAs(f: Feedback, e: EventId, k: Kind) {
    exists i :: 0 <= i < |f.outcomes| && Active(f.outcomes, i)
                && Is(f.outcomes[i], e, Quality) && f.outcomes[i].kind == k
  }

  function DeliveredAt(f: Feedback): nat -> bool {
    (e: nat) => Google(f, e)
  }

  function WorkedAt(f: Feedback): nat -> bool {
    (e: nat) =>
      && Google(f, e)
      && (AnyTransition(f, e) || HasActive(f.outcomes, e, PositiveMetric) || HasActive(f.outcomes, e, BookedMetric))
  }

  function RatedAt(f: Feedback, k: Kind): nat -> bool {
    (e: nat) => Google(f, e) && RatedAs(f, e, k)
  }

  function PositiveAt(f: Feedback): nat -> bool {
    (e: nat) =>
      && Google(f, e)
      && (HasDisposition(f, e, Positive) || HasDisposition(f, e, Booked) || HasActive(f.outcomes, e, PositiveMetric))
  }

  function BookedAt(f: Feedback): nat -> bool {
    (e: nat) => Google(f, e) && (HasDisposition(f, e, Booked) || HasActive(f.outcomes, e, BookedMetric))
  }

  /** The counts of `source_performance_summary`, one aggregate query each. */
  function Summary(f: Feedback): Counts {
    var n := |f.events|;
    var good, poor := CountTo(n, RatedAt(f, Good)), CountTo(n, RatedAt(f, Poor));
    Counts(CountTo(n, DeliveredAt(f)), CountTo(n, WorkedAt(f)), good + poor, good, poor,
           CountTo(n, PositiveAt(f)), CountTo(n, BookedAt(f)))
  }

  function Legacy(f: Feedback): nat -> bool {
    (e: nat) => e < |f.events| && !f.events[e].google
  }

  function LegacySummary(f: Feedback): nat {
    CountTo(|f.events|, Legacy(f))
  }

  // ---------------------------------------------------------------------
  // Row-by-row snapshot
  // ---------------------------------------------------------------------

  /** The dictionary of active outcomes among the first `n`; a later one takes the key. */
  function ActiveBy(os: seq<Outcome>, n: nat): map<(EventId, Metric), Outcome>
    requires n <= |os|
  {
    if n == 0 then map[]
    else if Active(os, n - 1) then ActiveBy(os, n - 1)[(os[n - 1].event, MetricOf(os[n - 1].kind)) := os[n - 1]]
    else ActiveBy(os, n - 1)
  }

  function DispositionsBy(ts: seq<Transition>, n: nat): map<EventId, set<Disposition>>
    requires n <= |ts|
  {
    if n == 0 then map[]
    else
      var m, t := DispositionsBy(ts, n - 1), ts[n - 1];
      m[t.event := DispositionsOf(m, t.event) + {t.disposition}]
  }

  function DispositionsOf(m: map<EventId, set<Disposition>>, e: EventId): set<Disposition> {
    if e in m then m[e] else {}
  }

  function Add(a: Counts, b: Counts): Counts {
    Counts(a.delivered + b.delivered, a.worked + b.worked, a.rated + b.rated, a.good + b.good,
           a.poor + b.poor, a.positive + b.positive, a.booked + b.booked)
  }

  function One(b: bool): nat {
    if b then 1 else 0
  }

  /** What one google event adds to its cohort and to the global counts. */
  function Tally(active: map<(EventId, Metric), Outcome>, ds: set<Disposition>, e: EventId): Counts {
    var positive, booked, rated := (e, PositiveMetric) in active, (e, BookedMetric) in active, (e, Quality) in active;
    Counts(1,
           One(ds != {} || positive || booked),
           One(rated),
           One(rated && active[(e, Quality)].kind == Good),
           One(rated && active[(e, Quality)].kind == Poor),
           One(ds * {Positive, Booked} != {} || positive),
           One(Booked in ds || booked))
  }

  function TallyOf(f: Feedback, e: EventId): Counts {
    Tally(ActiveBy(f.outcomes, |f.outcomes|), DispositionsOf(DispositionsBy(f.transitions, |f.transitions|), e), e)
  }

  type Cohort = (string, string)

  function CohortOf(d: Delivery): Cohort {
    (d.segment, d.period)
  }

  /** The tallies of the first `n` events that pass `p`. */
  function TallyAll(f: Feedback, n: nat, p: Delivery -> bool): Counts
    requires n <= |f.events|
  {
    if n == 0 then ZERO
    else if p(f.events[n - 1]) then Add(TallyAll(f, n - 1, p), TallyOf(f, n - 1))
    else TallyAll(f, n - 1, p)
  }

  function InGoogle(): Delivery -> bool {
    (d: Delivery) => d.google
  }

  function InCohort(k: Cohort): Delivery -> bool {
    (d: Delivery) => d.google && CohortOf(d) == k
  }

  function CountsOf(m: map<Cohort, Counts>, k: Cohort): Counts {
    if k in m then m[k] else ZERO
  }

  /** All cohorts added up, in whatever order. */
  ghost function Total(m: map<Cohort, Counts>): Counts
    decreases |m.Keys|
  {
    if m == map[] then ZERO
    else
      var k :| k in m;
      assert (m - {k}).Keys == m.Keys - {k};
      Add(m[k], Total(m - {k}))
  }

  lemma AddSwaps(a: Counts, b: Counts, c: Counts)
    ensures Add(a, Add(b, c)) == Add(b, Add(a, c)) && Add(Add(a, b), c) == Add(Add(a, c), b)
  {
  }

  lemma {:induction false} TotalSplits(m: map<Cohort, Counts>, k: Cohort)
    requires k in m
    ensures Total(m) == Add(m[k], Total(m - {k}))
    decreases |m.Keys|
  {
    var j :| j in m && Total(m) == Add(m[j], Total(m - {j}));
    if j != k {
      assert (m - {j}).Keys == m.Keys - {j} && (m - {k}).Keys == m.Keys - {k};
      TotalSplits(m - {j}, k);
      TotalSplits(m - {k}, j);
      assert m - {j} - {k} == m - {k} - {j};
      AddSwaps(m[j], m[k], Total(m - {j} - {k}));
    }
  }

  lemma TotalAdds(m: map<Cohort, Counts>, k: Cohort, c: Counts)
    ensures Total(m[k := Add(CountsOf(m, k), c)]) == Add(Total(m), c)
  {
    var m' := m[k := Add(CountsOf(m, k), c)];
    TotalSplits(m', k);
    assert m' - {k} == m - {k};
    if k in m {
      TotalSplits(m, k);
      AddSwaps(m[k], c, Total(m - {k}));
    } else {
      assert m - {k} == m;
    }
  }

  /** The active outcomes by event and metric: one pass collects what is superseded, one fills the dictionary. */
  method ActiveOutcomes(os: seq<Outcome>) returns (active: map<(EventId, Metric), Outcome>)
    ensures active == ActiveBy(os, |os|)
  {
    var superseded: set<OutcomeId> := {};
    for i := 0 to |os|
      invariant forall k :: k in superseded <==> exists j :: 0 <= j < i && os[j].supersedes == Some(k)
    {
      if os[i].supersedes.Some? {
        superseded := superseded + {os[i].supersedes.value};
      }
    }
    active := map[];
    for i := 0 to |os|
      invariant active == ActiveBy(os, i)
    {
      assert i in superseded <==> Superseded(os, i);
      if i !in superseded {
        active := active[(os[i].event, MetricOf(os[i].kind)) := os[i]];
      }
    }
  }

  method EventDispositions(ts: seq<Transition>) returns (m: map<EventId, set<Disposition>>)
    ensures m == DispositionsBy(ts, |ts|)
  {
    m := map[];
    for i := 0 to |ts|
      invariant m == DispositionsBy(ts, i)
    {
      m := m[ts[i].event := DispositionsOf(m, ts[i].event) + {ts[i].disposition}];
    }
  }

  ghost predicate Grouped(f: Feedback, n: nat, cohorts: map<Cohort, Counts>)
    requires n <= |f.events|
  {
    forall k :: CountsOf(cohorts, k) == TallyAll(f, n, InCohort(k))
  }

  lemma GroupedGrows(f: Feedback, n: nat, cohorts: map<Cohort, Counts>)
    requires n < |f.events| && f.events[n].google && Grouped(f, n, cohorts)
    ensures Grouped(f, n + 1, Joined(cohorts, CohortOf(f.events[n]), TallyOf(f, n)))
  {
    var k := CohortOf(f.events[n]);
    var after := Joined(cohorts, k, TallyOf(f, n));
    forall j ensures CountsOf(after, j) == TallyAll(f, n + 1, InCohort(j)) {
      assert CountsOf(cohorts, j) == TallyAll(f, n, InCohort(j));
    }
  }

  lemma GroupedSkips(f: Feedback, n: nat, cohorts: map<Cohort, Counts>)
    requires n < |f.events| && !f.events[n].google && Grouped(f, n, cohorts)
    ensures Grouped(f, n + 1, cohorts)
  {
    forall j ensures CountsOf(cohorts, j) == TallyAll(f, n + 1, InCohort(j)) {
      assert CountsOf(cohorts, j) == TallyAll(f, n, InCohort(j));
    }
  }

  function Joined(cohorts: map<Cohort, Counts>, k: Cohort, c: Counts): map<Cohort, Counts> {
    cohorts[k := Add(CountsOf(cohorts, k), c)]
  }

  /** The counters after the first `n` events. */
  ghost predicate Tallied(f: Feedback, n: nat, cohorts: map<Cohort, Counts>, global: Counts, legacy: nat) {
    && n <= |f.events|
    && global == TallyAll(f, n, InGoogle())
    && legacy == CountTo(n, Legacy(f))
    && Grouped(f, n, cohorts)
  }

  lemma GlobalGrows(f: Feedback, n: nat)
    requires n < |f.events| && f.events[n].google
    ensures TallyAll(f, n + 1, InGoogle()) == Add(TallyAll(f, n, InGoogle()), TallyOf(f, n))
    ensures CountTo(n + 1, Legacy(f)) == CountTo(n, Legacy(f))
  {
  }

  lemma TalliesLegacy(f: Feedback, n: nat, cohorts: map<Cohort, Counts>, global: Counts, legacy: nat)
    requires n < |f.events| && !f.events[n].google && Tallied(f, n, cohorts, global, legacy)
    ensures Tallied(f, n + 1, cohorts, global, legacy + 1)
  {
    GroupedSkips(f, n, cohorts);
  }

  lemma TalliesGoogle(f: Feedback, n: nat, cohorts: map<Cohort, Counts>, global: Counts, legacy: nat, c: Counts)
    requires n < |f.events| && f.events[n].google && Tallied(f, n, cohorts, global, legacy) && c == TallyOf(f, n)
    ensures Tallied(f, n + 1, Joined(cohorts, CohortOf(f.events[n]), c), Add(global, c), legacy)
  {
    GroupedGrows(f, n, cohorts);
    GlobalGrows(f, n);
  }

  /** `source_performance_snapshot` */
  method Snapshot(f: Feedback) returns (cohorts: map<Cohort, Counts>, global: Counts, legacy: nat)
    ensures global == TallyAll(f, |f.events|, InGoogle())
    ensures legacy == LegacySummary(f)
    ensures forall k :: CountsOf(cohorts, k) == TallyAll(f, |f.events|, InCohort(k))
    ensures Total(cohorts) == global
  {
    var active := ActiveOutcomes(f.outcomes);
    var dispositions := EventDispositions(f.transitions);
    cohorts, global, legacy := map[], ZERO, 0;
    for e := 0 to |f.events|
      invariant Tallied(f, e, cohorts, global, legacy) && Total(cohorts) == global
    {
      var d := f.events[e];
      if !d.google {
        TalliesLegacy(f, e, cohorts, global, legacy);
        legacy := legacy + 1;
      } else {
        var c := Tally(active, DispositionsOf(dispositions, e), e);
        TalliesGoogle(f, e, cohorts, global, legacy, c);
        TotalAdds(cohorts, CohortOf(d), c);
        cohorts := cohorts[CohortOf(d) := Add(CountsOf(cohorts, CohortOf(d)), c)];
        global := Add(global, c);
      }
    }
  }

  // ---------------------------------------------------------------------
  // The two agree
  // ---------------------------------------------------------------------

  /** The dictionary has a key exactly when some outcome for it is active, and holds one of those. */
  lemma {:induction false} ActiveByFacts(os: seq<Outcome>, n: nat, e: EventId, m: Metric)
    requires n <= |os|
    ensures (e, m) in ActiveBy(os, n) <==> exists i :: 0 <= i < n && Active(os, i) && Is(os[i], e, m)
    ensures (e, m) in ActiveBy(os, n) ==>
      exists i :: 0 <= i < n && Active(os, i) && Is(os[i], e, m) && os[i] == ActiveBy(os, n)[(e, m)]
  {
    if n > 0 {
      ActiveByFacts(os, n - 1, e, m);
    }
  }

  lemma {:induction false} DispositionsByFacts(ts: seq<Transition>, n: nat, e: EventId, d: Disposition)
    requires n <= |ts|
    ensures d in DispositionsOf(DispositionsBy(ts, n), e) <==> exists i :: 0 <= i < n && ts[i] == Transition(e, d)
  {
    if n > 0 {
      DispositionsByFacts(ts, n - 1, e, d);
    }
  }

  lemma DispositionsMean(f: Feedback, e: EventId)
    ensures var ds := DispositionsOf(DispositionsBy(f.transitions, |f.transitions|), e);
            && (forall d :: d in ds <==> HasDisposition(f, e, d))
            && (ds != {} <==> AnyTransition(f, e))
  {
    var ds := DispositionsOf(DispositionsBy(f.transitions, |f.transitions|), e);
    forall d ensures d in ds <==> HasDisposition(f, e, d) {
      DispositionsByFacts(f.transitions, |f.transitions|, e, d);
    }
    if AnyTransition(f, e) {
      var i :| 0 <= i < |f.transitions| && f.transitions[i].event == e;
      assert HasDisposition(f, e, f.transitions[i].disposition);
    }
  }

  /** An event the summary counts under both ratings. */
  predicate Torn(f: Feedback, e: EventId) {
    Google(f, e) && RatedAs(f, e, Good) && RatedAs(f, e, Poor)
  }

  function TornAt(f: Feedback): nat -> bool {
    (e: nat) => Torn(f, e)
  }

  /** What one event adds to the snapshot, in the summary's own terms. */
  lemma TallyMeans(f: Feedback, e: EventId)
    requires Google(f, e)
    ensures var t := TallyOf(f, e);
            && t.worked == One(WorkedAt(f)(e))
            && t.positive == One(PositiveAt(f)(e))
            && t.booked == One(BookedAt(f)(e))
  {
    ActiveByFacts(f.outcomes, |f.outcomes|, e, PositiveMetric);
    ActiveByFacts(f.outcomes, |f.outcomes|, e, BookedMetric);
    DispositionsMean(f, e);
    var ds := DispositionsOf(DispositionsBy(f.transitions, |f.transitions|), e);
    assert ds * {Positive, Booked} != {} <==> Positive in ds || Booked in ds by {
      assert Positive in ds ==> Positive in ds * {Positive, Booked};
      assert Booked in ds ==> Booked in ds * {Positive, Booked};
    }
  }

  /** Ratings count once in the snapshot; the summary counts a torn event twice. */
  lemma RatingMeans(f: Feedback, e: EventId)
    requires Google(f, e)
    ensures var t := TallyOf(f, e);
            && t.rated + One(Torn(f, e)) == One(RatedAs(f, e, Good)) + One(RatedAs(f, e, Poor))
            && (!Torn(f, e) ==> t.good == One(RatedAs(f, e, Good)) && t.poor == One(RatedAs(f, e, Poor)))
            && t.rated == t.good + t.poor
  {
    ActiveByFacts(f.outcomes, |f.outcomes|, e, Quality);
    var active := ActiveBy(f.outcomes, |f.outcomes|);
    if (e, Quality) in active {
      var os := f.outcomes;
      var i :| 0 <= i < |os| && Active(os, i) && Is(os[i], e, Quality) && os[i] == active[(e, Quality)];
      assert f.outcomes[i].kind in {Good, Poor};
      assert RatedAs(f, e, f.outcomes[i].kind);
    }
  }

  /** Deliveries, work, responses and bookings always agree. */
  lemma {:induction false} WorkCompares(f: Feedback, n: nat)
    requires n <= |f.events|
    ensures var t := TallyAll(f, n, InGoogle());
            && t.delivered == CountTo(n, DeliveredAt(f))
            && t.worked == CountTo(n, WorkedAt(f))
            && t.positive == CountTo(n, PositiveAt(f))
            && t.booked == CountTo(n, BookedAt(f))
  {
    if n > 0 {
      WorkCompares(f, n - 1);
      if Google(f, n - 1) {
        TallyMeans(f, n - 1);
      }
    }
  }

  /** Two running totals move alike at event `k`. */
  predicate Alike(a: nat -> int, b: nat -> int, k: nat) {
    a(k + 1) - a(k) == b(k + 1) - b(k)
  }

  /** Totals that start alike and always move alike are alike. */
  lemma {:induction false} SameTotals(n: nat, a: nat -> int, b: nat -> int)
    requires a(0) == b(0) && forall k :: 0 <= k < n ==> Alike(a, b, k)
    ensures a(n) == b(n)
  {
    if n > 0 {
      SameTotals(n - 1, a, b);
      assert Alike(a, b, n - 1);
    }
  }

  /** The snapshot's rating totals over the first `n` events. */
  function RatedTo(f: Feedback): nat -> int {
    (n: nat) => if n <= |f.events| then TallyAll(f, n, InGoogle()).rated else 0
  }

  function GoodTo(f: Feedback): nat -> int {
    (n: nat) => if n <= |f.events| then TallyAll(f, n, InGoogle()).good else 0
  }

  function PoorTo(f: Feedback): nat -> int {
    (n: nat) => if n <= |f.events| then TallyAll(f, n, InGoogle()).poor else 0
  }

  /** The same by the summary's queries. */
  function KindCount(f: Feedback, k: Kind): nat -> int {
    (n: nat) => CountTo(n, RatedAt(f, k))
  }

  function RatedCount(f: Feedback): nat -> int {
    (n: nat) => CountTo(n, RatedAt(f, Good)) + CountTo(n, RatedAt(f, Poor)) - CountTo(n, TornAt(f))
  }

  lemma AlikeBy(a: nat -> int, b: nat -> int, k: nat, x: int)
    requires a(k + 1) == a(k) + x && b(k + 1) == b(k) + x
    ensures Alike(a, b, k)
  {
  }

  /** What event `n` adds to the snapshot's rating totals. */
  function RatingsOf(f: Feedback, n: nat): (nat, nat, nat) {
    if Google(f, n) then (TallyOf(f, n).rated, TallyOf(f, n).good, TallyOf(f, n).poor) else (0, 0, 0)
  }

  lemma TotalsNext(f: Feedback, n: nat)
    requires n < |f.events|
    ensures RatedTo(f)(n + 1) == RatedTo(f)(n) + RatingsOf(f, n).0
    ensures GoodTo(f)(n + 1) == GoodTo(f)(n) + RatingsOf(f, n).1
    ensures PoorTo(f)(n + 1) == PoorTo(f)(n) + RatingsOf(f, n).2
  {
    if Google(f, n) {
      GlobalGrows(f, n);
    }
  }

  lemma CountNext(n: nat, p: nat -> bool)
    ensures CountTo(n + 1, p) == CountTo(n, p) + One(p(n))
  {
  }

  lemma CountsNext(f: Feedback, n: nat)
    ensures KindCount(f, Good)(n + 1) == KindCount(f, Good)(n) + One(RatedAt(f, Good)(n))
    ensures KindCount(f, Poor)(n + 1) == KindCount(f, Poor)(n) + One(RatedAt(f, Poor)(n))
    ensures RatedCount(f)(n + 1) ==
      RatedCount(f)(n) + One(RatedAt(f, Good)(n)) + One(RatedAt(f, Poor)(n)) - One(TornAt(f)(n))
  {
    CountNext(n, RatedAt(f, Good));
    CountNext(n, RatedAt(f, Poor));
    CountNext(n, TornAt(f));
  }

  lemma RatingsMean(f: Feedback, n: nat)
    ensures RatingsOf(f, n).0 == One(RatedAt(f, Good)(n)) + One(RatedAt(f, Poor)(n)) - One(TornAt(f)(n))
    ensures !Torn(f, n) ==>
      RatingsOf(f, n).1 == One(RatedAt(f, Good)(n)) && RatingsOf(f, n).2 == One(RatedAt(f, Poor)(n))
  {
    if Google(f, n) {
      RatingMeans(f, n);
    }
  }

  lemma RatingStep(f: Feedback, n: nat)
    requires n < |f.events|
    ensures Alike(RatedTo(f), RatedCount(f), n)
  {
    TotalsNext(f, n);
    CountsNext(f, n);
    RatingsMean(f, n);
    AlikeBy(RatedTo(f), RatedCount(f), n, RatingsOf(f, n).0);
  }

  lemma KindsStep(f: Feedback, n: nat)
    requires n < |f.events| && !Torn(f, n)
    ensures Alike(GoodTo(f), KindCount(f, Good), n) && Alike(PoorTo(f), KindCount(f, Poor), n)
  {
    TotalsNext(f, n);
    CountsNext(f, n);
    RatingsMean(f, n);
    AlikeBy(GoodTo(f), KindCount(f, Good), n, RatingsOf(f, n).1);
    AlikeBy(PoorTo(f), KindCount(f, Poor), n, RatingsOf(f, n).2);
  }

  /** Ratings differ by the torn events. */
  lemma RatingsCompare(f: Feedback, n: nat)
    requires n <= |f.events|
    ensures var t := TallyAll(f, n, InGoogle());
            t.rated + CountTo(n, TornAt(f)) == CountTo(n, RatedAt(f, Good)) + CountTo(n, RatedAt(f, Poor))
  {
    forall k | 0 <= k < n ensures Alike(RatedTo(f), RatedCount(f), k) {
      RatingStep(f, k);
    }
    SameTotals(n, RatedTo(f), RatedCount(f));
  }

  ghost predicate NoneTorn(f: Feedback, n: nat) {
    forall e :: 0 <= e < n ==> !Torn(f, e)
  }

  lemma NoneTornIff(f: Feedback, n: nat)
    ensures CountTo(n, TornAt(f)) == 0 <==> NoneTorn(f, n)
  {
    CountToZero(n, TornAt(f));
    if NoneTorn(f, n) {
      assert forall e :: 0 <= e < n ==> TornAt(f)(e) == Torn(f, e);
    } else {
      var e :| 0 <= e < n && Torn(f, e);
      assert TornAt(f)(e);
    }
  }

  lemma KindsAlike(f: Feedback, n: nat, k: nat)
    requires k < n <= |f.events| && NoneTorn(f, n)
    ensures Alike(GoodTo(f), KindCount(f, Good), k) && Alike(PoorTo(f), KindCount(f, Poor), k)
  {
    KindsStep(f, k);
  }

  /** Where nothing is torn, good and poor agree one by one. */
  lemma KindsCompare(f: Feedback, n: nat)
    requires n <= |f.events| && NoneTorn(f, n)
    ensures GoodTo(f)(n) == KindCount(f, Good)(n) && PoorTo(f)(n) == KindCount(f, Poor)(n)
  {
    forall k | 0 <= k < n
      ensures Alike(GoodTo(f), KindCount(f, Good), k) && Alike(PoorTo(f), KindCount(f, Poor), k)
    {
      KindsAlike(f, n, k);
    }
    SameTotals(n, GoodTo(f), KindCount(f, Good));
    SameTotals(n, PoorTo(f), KindCount(f, Poor));
  }

  /** Everything but the ratings always agrees; the ratings differ by the torn events. */
  lemma TalliesCompare(f: Feedback, n: nat)
    requires n <= |f.events|
    ensures var t := TallyAll(f, n, InGoogle());
            && t.delivered == CountTo(n, DeliveredAt(f))
            && t.worked == CountTo(n, WorkedAt(f))
            && t.positive == CountTo(n, PositiveAt(f))
            && t.booked == CountTo(n, BookedAt(f))
            && t.rated + CountTo(n, TornAt(f)) == CountTo(n, RatedAt(f, Good)) + CountTo(n, RatedAt(f, Poor))
            && (CountTo(n, TornAt(f)) == 0 ==>
                  t.good == CountTo(n, RatedAt(f, Good)) && t.poor == CountTo(n, RatedAt(f, Poor)))
  {
    WorkCompares(f, n);
    RatingsCompare(f, n);
    if CountTo(n, TornAt(f)) == 0 {
      NoneTornIff(f, n);
      KindsCompare(f, n);
    }
  }

  lemma {:induction false} CountToZero(n: nat, p: nat -> bool)
    ensures CountTo(n, p) == 0 <==> forall e :: 0 <= e < n ==> !p(e)
  {
    if n > 0 {
      CountToZero(n - 1, p);
    }
  }

  /** For any history at all: the screen and the snapshot agree exactly when no google event is torn. */
  lemma SummaryIsSnapshotIff(f: Feedback)
    ensures Summary(f) == TallyAll(f, |f.events|, InGoogle()) <==> forall e :: 0 <= e < |f.events| ==> !Torn(f, e)
    ensures Summary(f).rated == TallyAll(f, |f.events|, InGoogle()).rated
       <==> forall e :: 0 <= e < |f.events| ==> !Torn(f, e)
  {
    var n := |f.events|;
    TalliesCompare(f, n);
    CountToZero(n, TornAt(f));
    assert forall e :: 0 <= e < n ==> TornAt(f)(e) == Torn(f, e);
    assert CountTo(n, TornAt(f)) == 0 <==> forall e :: 0 <= e < n ==> !Torn(f, e) by {
      if e :| 0 <= e < n && Torn(f, e) {
        assert TornAt(f)(e);
      }
    }
  }

  /** Over every history the endpoints build, the fast summary is the row-by-row snapshot. */
  lemma SummaryRefinesSnapshot(ps: seq<Post>)
    ensures var f := PostedAll(ps); Summary(f) == TallyAll(f, |f.events|, InGoogle())
  {
    var f := PostedAll(ps);
    EndpointsKeepOneActive(ps);
    SummaryIsSnapshotIff(f);
  }

  const TORN := Feedback([Delivery(true, "plumber", "2026-01")], [Outcome(0, Good, None), Outcome(0, Poor, None)], [])

  /** Without the chain the two disagree: two unlinked ratings of one event. */
  lemma UnlinkedRatingsDisagree()
    ensures Summary(TORN) != TallyAll(TORN, 1, InGoogle())
  {
    var os := TORN.outcomes;
    assert Active(os, 0) && Is(os[0], 0, Quality) && os[0].kind == Good;
    assert Active(os, 1) && Is(os[1], 0, Quality) && os[1].kind == Poor;
    assert Torn(TORN, 0);
    SummaryIsSnapshotIff(TORN);
  }
}
