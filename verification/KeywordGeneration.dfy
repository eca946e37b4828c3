/**
 Keyword candidates (jawnix/keyword_generation.py): normalization, the accepted
 format, near duplicates, the filter every candidate passes, and the attempt
 loop that collects a batch.
 */
module KeywordGeneration {
  import opened Basics
  import opened Text
  import opened Sieve

  // ---------------------------------------------------------------------
  // Normalization
  // ---------------------------------------------------------------------

  /** A candidate as the provider sends it; only strings can be keywords. */
  datatype Raw = Line(text: string) | NotText

  predicate IsDigit(c: char) {
    '0' <= c <= '9'
  }

  function DigitsLength(s: string): (n: nat)
    ensures n <= |s|
  {
    if s == [] || !IsDigit(s[0]) then 0 else 1 + DigitsLength(s[1..])
  }

  /** White space, then a bullet, or digits with a full stop or parenthesis. */
  predicate HasMarker(s: string) {
    var t := SkipSpaces(s);
    && t != []
    && (|| t[0] in {'-', '*', '\U{2022}'}
        || (var n := DigitsLength(t); 0 < n < |t| && t[n] in {'.', ')'}))
  }

  /** Drops one list marker: a bullet, or digits with a full stop or parenthesis. */
  function DropMarker(s: string): (r: string)
    ensures r == s <==> !HasMarker(s)
    ensures HasMarker(s) ==> |r| < |s|
  {
    var t := SkipSpaces(s);
    if t == [] then s
    else if t[0] in {'-', '*', '\U{2022}'} then SkipSpaces(t[1..])
    else
      var n := DigitsLength(t);
      if 0 < n < |t| && t[n] in {'.', ')'} then SkipSpaces(t[n + 1..]) else s
  }

  predicate IsEdge(c: char) {
    c in {' ', '\t', '\r', '\n', '\"', '\'', '.', ',', ';', ':'}
  }

  predicate HasEdge(s: string) {
    s != [] && (IsEdge(s[0]) || IsEdge(s[|s| - 1]))
  }

  /** `normalize_keyword` */
  function Normalize(raw: Raw): string {
    match raw
    case NotText => []
    case Line(s) => Squeeze(Strip(DropMarker(s), IsEdge))
  }

  /** A bullet is dropped whatever follows it, another bullet included. */
  lemma BulletDropped(s: string)
    requires |s| >= 1 && !IsSpace(s[0]) && !IsEdge(s[0]) && !IsEdge(s[|s| - 1]) && Tidy(s)
    ensures Normalize(Line("- " + s)) == s
  {
    var t := "- " + s;
    assert t[1..][1..] == s;
    assert DropMarker(t) == s;
    TidyIsFixed(s);
  }

  /** Normalizing leaves a text alone exactly when it has no marker, no edge character and nothing to squeeze. */
  lemma NormalizeFixedIff(k: string)
    ensures Normalize(Line(k)) == k <==> !HasMarker(k) && !HasEdge(k) && Tidy(k)
  {
    var dropped := DropMarker(k);
    var stripped := Strip(dropped, IsEdge);
    SqueezeShrinks(stripped);
    StripFixedIff(dropped, IsEdge);
    if Normalize(Line(k)) == k {
      assert |k| <= |stripped| <= |dropped|;
      assert dropped == k && stripped == k;
    }
    TidyIsFixed(k);
  }

  /** A second pass changes what the first one returned exactly when a marker or an edge character is left. */
  lemma SecondPassChangesIff(raw: Raw)
    ensures var k := Normalize(raw); Normalize(Line(k)) != k <==> HasMarker(k) || HasEdge(k)
  {
    NormalizedIsTidy(raw);
    NormalizeFixedIff(Normalize(raw));
  }

  /** One shape of that: each pass drops one bullet. */
  lemma SecondBulletSurvives(once: string, twice: string)
    requires once == "- ab" && twice == "- - ab"
    ensures Normalize(Line(twice)) == once && Normalize(Line(once)) == "ab"
  {
    assert Tidy(once) && once[0] == '-' && once[3] == 'b';
    assert "- " + once == twice;
    BulletDropped(once);
    assert "- " + "ab" == once;
    BulletDropped("ab");
  }

  /** Another: white space that is no edge character hides an edge character from the strip. */
  lemma HiddenEdgeSurvives(w: string)
    requires w != [] && !HasMarker(w + ['.', '\U{b}']) && !IsEdge(w[0]) && (forall i :: 0 <= i < |w| ==> !IsSpace(w[i]))
    ensures Normalize(Line(w + ['.', '\U{b}'])) == w + ['.'] && HasEdge(w + ['.'])
  {
    var s := w + ['.', '\U{b}'];
    assert s[0] == w[0] && s[|s| - 1] == '\U{b}';
    assert Strip(DropMarker(s), IsEdge) == s;
    assert s == (w + ['.']) + ['\U{b}'];
    SqueezeTrailing(w + ['.'], '\U{b}');
  }

  lemma NormalizedIsTidy(raw: Raw)
    ensures Tidy(Normalize(raw))
  {
    match raw
    case Line(s) => SqueezeIsTidy(Strip(DropMarker(s), IsEdge));
    case NotText =>
  }

  // ---------------------------------------------------------------------
  // The accepted format
  // ---------------------------------------------------------------------

  datatype Reason = InvalidFormat | InvalidWordCount | BlockedCategory | Duplicate

  predicate IsInner(c: char) {
    IsAlnum(c) || c in {' ', '&', '\'', '/', '-'}
  }

  /** `KEYWORD_PATTERN` */
  predicate MatchesPattern(k: string) {
    && |k| >= 2
    && IsAlnum(k[0]) && IsAlnum(k[|k| - 1])
    && forall i :: 0 <= i < |k| ==> IsInner(k[i])
  }

  const BLOCKED: set<string> := {
    "attorney", "attorneys", "lawyer", "lawyers", "law", "legal", "paralegal", "paralegals", "litigation",
    "solicitor", "solicitors", "barrister", "barristers", "notary", "notaries"
  }

  const WEB_PARTS: set<string> := {"http://", "https://", "www.", " near me"}

  /** `_invalid_reason` */
  function InvalidReason(k: string): Option<Reason> {
    if !(2 <= |k| <= 60) || !MatchesPattern(k) then Some(InvalidFormat)
    else if !(1 <= WordCount(k) <= 6) then Some(InvalidWordCount)
    else if exists w :: w in Runs(Fold(k)) && w in BLOCKED then Some(BlockedCategory)
    else if exists part :: part in WEB_PARTS && Contains(Fold(k), part) then Some(InvalidFormat)
    else None
  }

  /** A keyword that went through normalization and passed the format rules. */
  predicate Accepted(k: string) {
    InvalidReason(k) == None && Tidy(k)
  }

  /** The pattern leaves no list marker and no edge character. */
  lemma PatternHasNoMarker(k: string)
    requires MatchesPattern(k)
    ensures !HasMarker(k) && !HasEdge(k)
  {
    assert !IsSpace(k[0]) && SkipSpaces(k) == k;
    var n := DigitsLength(k);
    assert n < |k| ==> IsInner(k[n]);
  }

  /** So normalization is the identity on everything accepted, and a stored term finds itself again. */
  lemma AcceptedIsFixed(k: string)
    requires Accepted(k)
    ensures Normalize(Line(k)) == k
  {
    PatternHasNoMarker(k);
    NormalizeFixedIff(k);
  }

  // ---------------------------------------------------------------------
  // Near duplicates
  // ---------------------------------------------------------------------

  const GENERIC_WORDS: set<string> := {
    "business", "businesses", "company", "companies", "contractor", "contractors", "service", "services",
    "shop", "shops", "specialist", "specialists", "store", "stores"
  }

  function Spelled(s: string): string {
    if s == [] then [] else (if s[0] == '&' then " and " else [s[0]]) + Spelled(s[1..])
  }

  predicate EndsWith(s: string, suffix: string) {
    |suffix| <= |s| && s[|s| - |suffix|..] == suffix
  }

  function Singular(w: string): string {
    if EndsWith(w, "ies") && |w| > 4 then w[..|w| - 3] + "y"
    else if EndsWith(w, "s") && !EndsWith(w, "ss") && |w| > 3 then w[..|w| - 1]
    else w
  }

  function Telling(ws: seq<string>): seq<string> {
    if ws == [] then []
    else (if ws[0] in GENERIC_WORDS || ws[0] == "and" then [] else [Singular(ws[0])]) + Telling(ws[1..])
  }

  /** `comparison_tokens` */
  function Tokens(s: string): seq<string> {
    Telling(Runs(Spelled(Fold(s))))
  }

  function TokenSet(s: string): set<string> {
    set t | t in Tokens(s)
  }

  /** Overlap of at least 0.8. */
  predicate Overlaps(a: set<string>, b: set<string>) {
    a != {} && b != {} && 10 * |a * b| >= 8 * |a + b|
  }

  /** The character matcher's verdict on two folded terms (a ratio of at least 0.88). */
  type Matcher = (string, string) -> bool

  /** `is_near_duplicate` */
  predicate NearDuplicate(c: string, e: string, fuzzy: Matcher) {
    || Fold(c) == Fold(e)
    || (Tokens(c) != [] && Tokens(c) == Tokens(e))
    || Overlaps(TokenSet(c), TokenSet(e))
    || fuzzy(Fold(c), Fold(e))
  }

  // ---------------------------------------------------------------------
  // The filter
  // ---------------------------------------------------------------------

  predicate Clashes(k: string, known: set<string>, fuzzy: Matcher) {
    exists e :: e in known && NearDuplicate(k, e, fuzzy)
  }

  function KeywordRules(fuzzy: Matcher): Rules<Raw, string> {
    Rules(raw => Normalize(raw), k => Accepted(k), (k, known) => Clashes(k, known, fuzzy))
  }

  /** What `_filter_candidates` selects. */
  function Filtered(cs: seq<Raw>, base: set<string>, remaining: int, fuzzy: Matcher): seq<string> {
    Sift(KeywordRules(fuzzy), cs, base, remaining, [])
  }

  /** Accepted keywords, none near a base term or an earlier one. */
  ghost predicate Distinct(ks: seq<string>, base: set<string>, fuzzy: Matcher) {
    Clean(KeywordRules(fuzzy), ks, base)
  }

  datatype Refusal = Refusal(candidate: string, reason: Reason)

  /** A refusal names a real fault: the format's, or a near duplicate among what was known. */
  ghost predicate Justified(r: Refusal, known: set<string>, fuzzy: Matcher) {
    if r.reason == Duplicate then InvalidReason(r.candidate) == None && Clashes(r.candidate, known, fuzzy)
    else InvalidReason(r.candidate) == Some(r.reason)
  }

  lemma JustifiedGrows(r: Refusal, known: set<string>, more: set<string>, fuzzy: Matcher)
    requires Justified(r, known, fuzzy) && known <= more
    ensures Justified(r, more, fuzzy)
  {
  }

  function WithReason(r: Reason): Refusal -> bool {
    (x: Refusal) => x.reason == r
  }

  function Tally(m: map<Reason, nat>, r: Reason): nat {
    if r in m then m[r] else 0
  }

  function RejectionOf(k: string, known: set<string>, fuzzy: Matcher): (r: Option<Reason>)
    ensures r.Some? ==> Justified(Refusal(k, r.value), known, fuzzy)
    ensures r.None? <==> InvalidReason(k) == None && !Clashes(k, known, fuzzy)
  {
    if k == [] then Some(InvalidFormat)
    else if InvalidReason(k).Some? then InvalidReason(k)
    else if Clashes(k, known, fuzzy) then Some(Duplicate)
    else None
  }

  /**
   `_filter_candidates`. Every candidate looked at is selected or refused for a
   reason that holds, the counters count the refusals, and only reaching the
   limit leaves candidates unseen.
   */
  method FilterCandidates(cs: seq<Raw>, excluded: seq<string>, accepted: seq<string>, remaining: int, fuzzy: Matcher)
    returns (selected: seq<string>, rejected: seq<Refusal>, reasons: map<Reason, nat>)
    ensures selected == Filtered(cs, SetOf(excluded) + SetOf(accepted), remaining, fuzzy)
    ensures Distinct(selected, SetOf(excluded) + SetOf(accepted), fuzzy)
    ensures forall r :: r in rejected ==> Justified(r, SetOf(excluded) + SetOf(accepted) + SetOf(selected), fuzzy)
    ensures forall r :: Tally(reasons, r) == Count(rejected, WithReason(r))
    ensures |selected| + |rejected| <= |cs|
    ensures |selected| != remaining ==> |selected| + |rejected| == |cs|
    ensures remaining >= 1 ==> |selected| <= remaining
  {
    var base := SetOf(excluded) + SetOf(accepted);
    selected, rejected, reasons := [], [], map[];
    var i := 0;
    assert cs[0..] == cs;
    while i < |cs|
      invariant i <= |cs| && |selected| + |rejected| == i
      invariant LeftToSift(cs, i, base, remaining, selected, fuzzy) == Filtered(cs, base, remaining, fuzzy)
      invariant RefusalsOk(rejected, reasons, base + SetOf(selected), fuzzy)
    {
      var k := Normalize(cs[i]);
      var reason := RejectionOf(k, base + SetOf(selected), fuzzy);
      CandidateStep(cs, i, base, remaining, selected, reason, fuzzy);
      i := i + 1;
      if reason.Some? {
        var refusal := Refusal(k, reason.value);
        RefusalsGrow(rejected, reasons, refusal, base + SetOf(selected), fuzzy);
        reasons := reasons[reason.value := Tally(reasons, reason.value) + 1];
        rejected := rejected + [refusal];
      } else {
        RefusalsStay(rejected, reasons, base + SetOf(selected), base + SetOf(selected + [k]), fuzzy);
        selected := selected + [k];
        if |selected| == remaining {
          break;
        }
      }
    }
    SiftFacts(KeywordRules(fuzzy), cs, base, remaining, []);
  }

  /** What the filter will hold once the candidates from `i` on are through it. */
  function LeftToSift(cs: seq<Raw>, i: nat, base: set<string>, remaining: int, selected: seq<string>, fuzzy: Matcher)
    : seq<string>
    requires i <= |cs|
  {
    Sift(KeywordRules(fuzzy), cs[i..], base, remaining, selected)
  }

  lemma CandidateStep(cs: seq<Raw>, i: nat, base: set<string>, remaining: int, selected: seq<string>,
                      reason: Option<Reason>, fuzzy: Matcher)
    requires i < |cs| && reason == RejectionOf(Normalize(cs[i]), base + SetOf(selected), fuzzy)
    ensures var k := Normalize(cs[i]);
      LeftToSift(cs, i, base, remaining, selected, fuzzy) ==
        if reason.Some? then LeftToSift(cs, i + 1, base, remaining, selected, fuzzy)
        else if |selected| + 1 == remaining then selected + [k]
        else LeftToSift(cs, i + 1, base, remaining, selected + [k], fuzzy)
  {
    NormalizedIsTidy(cs[i]);
    SiftStep(KeywordRules(fuzzy), cs, i, base, remaining, selected);
  }

  /** Every refusal is justified, and the counters count them. */
  ghost predicate RefusalsOk(rejected: seq<Refusal>, reasons: map<Reason, nat>, known: set<string>, fuzzy: Matcher) {
    && (forall r :: r in rejected ==> Justified(r, known, fuzzy))
    && (forall r :: Tally(reasons, r) == Count(rejected, WithReason(r)))
  }

  lemma RefusalsGrow(rejected: seq<Refusal>, reasons: map<Reason, nat>, refusal: Refusal, known: set<string>,
                     fuzzy: Matcher)
    requires RefusalsOk(rejected, reasons, known, fuzzy) && Justified(refusal, known, fuzzy)
    ensures var counted := reasons[refusal.reason := Tally(reasons, refusal.reason) + 1];
      RefusalsOk(rejected + [refusal], counted, known, fuzzy)
  {
    CountAppend(rejected, refusal);
  }

  lemma RefusalsStay(rejected: seq<Refusal>, reasons: map<Reason, nat>, known: set<string>, more: set<string>,
                     fuzzy: Matcher)
    requires RefusalsOk(rejected, reasons, known, fuzzy) && known <= more
    ensures RefusalsOk(rejected, reasons, more, fuzzy)
  {
    forall r | r in rejected ensures Justified(r, more, fuzzy) {
      JustifiedGrows(r, known, more, fuzzy);
    }
  }

  lemma CountAppend(xs: seq<Refusal>, x: Refusal)
    ensures forall r :: Count(xs + [x], WithReason(r)) == Count(xs, WithReason(r)) + if x.reason == r then 1 else 0
  {
    forall r ensures Count(xs + [x], WithReason(r)) == Count(xs, WithReason(r)) + if x.reason == r then 1 else 0 {
      CountConcat(xs, [x], WithReason(r));
    }
  }

  function Lines(ks: seq<string>): seq<Raw> {
    seq(|ks|, i requires 0 <= i < |ks| => Line(ks[i]))
  }

  /** A clean list of keywords spells itself. */
  lemma LinesSpell(ks: seq<string>, base: set<string>, fuzzy: Matcher)
    requires Distinct(ks, base, fuzzy)
    ensures Spells(KeywordRules(fuzzy), Lines(ks), ks)
  {
    forall i | 0 <= i < |ks| ensures Normalize(Line(ks[i])) == ks[i] {
      CleanAt(KeywordRules(fuzzy), ks, base, i);
      AcceptedIsFixed(ks[i]);
    }
  }

  /** Rechecking stored work against the same exclusions changes nothing. */
  lemma RecheckIsIdempotent(cs: seq<Raw>, base: set<string>, limit: int, fuzzy: Matcher)
    requires limit >= 1
    ensures Filtered(Lines(Filtered(cs, base, limit, fuzzy)), base, limit, fuzzy) == Filtered(cs, base, limit, fuzzy)
  {
    var once := Filtered(cs, base, limit, fuzzy);
    SiftFacts(KeywordRules(fuzzy), cs, base, limit, []);
    LinesSpell(once, base, fuzzy);
    SiftAgain(KeywordRules(fuzzy), cs, Lines(once), base, limit);
  }

  /** A limit of zero is never met, so a clean list of any length passes whole. */
  lemma ZeroLimitDoesNotLimit(ks: seq<string>, base: set<string>, fuzzy: Matcher)
    requires Distinct(ks, base, fuzzy)
    ensures Filtered(Lines(ks), base, 0, fuzzy) == ks
  {
    LinesSpell(ks, base, fuzzy);
    CleanPasses(KeywordRules(fuzzy), Lines(ks), ks, 0, base, 0);
    assert Lines(ks)[0..] == Lines(ks) && ks[..0] == [];
  }

  // ---------------------------------------------------------------------
  // The attempt loop
  // ---------------------------------------------------------------------

  const MAX_ATTEMPTS := 5

  /** What one request came to: a typed failure, or parsed candidates. */
  datatype Reply = Failure(retryable: bool, modelSpecific: bool) | Content(candidates: seq<Raw>)

  datatype Settings = Settings(batch: nat, oversample: bool, subfamilies: bool, models: nat)

  datatype Metrics = Metrics(candidates: nat, rejected: nat, surplus: nat, termModels: map<string, nat>)

  /** The normal forms of the excluded values, empty ones left out. */
  function Exclusions(values: seq<string>): set<string> {
    if values == [] then {} else Exclusions(values[..|values| - 1]) + NonEmpty(Normalize(Line(values[|values| - 1])))
  }

  function NonEmpty(k: string): set<string> {
    if k == [] then {} else {k}
  }

  /** An empty, oversized or non-text answer counts as a failed request. */
  function Checked(r: Reply, settings: Settings, requested: nat): Reply {
    if r.Failure? then r
    else if r.candidates == [] && settings.subfamilies then Failure(false, false)
    else if r.candidates == [] || (|r.candidates| > requested && !settings.oversample) || NotText in r.candidates
      then Failure(true, false)
    else r
  }

  function Requested(settings: Settings, remaining: nat): nat {
    if settings.oversample || settings.batch < remaining then settings.batch else remaining
  }

  /** What a run has gathered; `model` indexes the configured models. */
  datatype Gathered = Gathered(terms: seq<string>, metrics: Metrics, model: nat)

  /** The terms are distinct keywords, and every candidate was accepted, rejected or surplus. */
  ghost predicate GatheredOk(p: Gathered, base: set<string>, settings: Settings, fuzzy: Matcher) {
    && Distinct(p.terms, base, fuzzy)
    && p.model < settings.models
    && p.metrics.candidates == |p.terms| + p.metrics.rejected + p.metrics.surplus
    && p.metrics.termModels.Keys == SetOf(p.terms)
    && forall k :: k in p.metrics.termModels ==> p.metrics.termModels[k] < settings.models
  }

  function NextModel(p: Gathered, settings: Settings): Gathered {
    if p.model + 1 < settings.models then p.(model := p.model + 1) else p
  }

  function Gained(p: Gathered, seen: nat, selected: seq<string>, rejected: nat): Gathered
    requires |selected| + rejected <= seen
  {
    var m := p.metrics;
    Gathered(p.terms + selected,
             Metrics(m.candidates + seen, m.rejected + rejected, m.surplus + (seen - |selected| - rejected),
                     m.termModels + map k | k in selected :: p.model),
             p.model)
  }

  lemma GainedOk(p: Gathered, seen: nat, selected: seq<string>, rejected: nat, base: set<string>, settings: Settings,
                 fuzzy: Matcher)
    requires GatheredOk(p, base, settings, fuzzy) && |selected| + rejected <= seen
    requires Clean(KeywordRules(fuzzy), selected, base + SetOf(p.terms))
    ensures GatheredOk(Gained(p, seen, selected, rejected), base, settings, fuzzy)
  {
    CleanJoin(KeywordRules(fuzzy), p.terms, selected, base);
    var m := p.metrics.termModels + map k | k in selected :: p.model;
    assert m.Keys == SetOf(p.terms + selected);
  }

  /** The distinct normal forms of the exclusions; their order only shapes the prompt. */
  method NormalizedExclusions(values: seq<string>) returns (xs: seq<string>)
    ensures SetOf(xs) == Exclusions(values)
  {
    xs := [];
    for i := 0 to |values|
      invariant SetOf(xs) == Exclusions(values[..i])
    {
      var k := Normalize(Line(values[i]));
      assert values[..i + 1][..i] == values[..i];
      if k != [] && k !in xs {
        assert SetOf(xs + [k]) == SetOf(xs) + {k};
        xs := xs + [k];
      }
    }
    assert values[..|values|] == values;
  }

  /**
   `generate_keywords`: whether it returns or raises, the terms are distinct
   keywords outside the exclusions, at most `count` of them and exactly `count`
   when it returns, and every candidate is accounted for.
   */
  method GenerateKeywords(values: seq<string>, count: int, settings: Settings, replies: seq<Reply>, fuzzy: Matcher)
    returns (full: bool, p: Gathered)
    requires |replies| == MAX_ATTEMPTS && settings.models >= 1
    ensures GatheredOk(p, Exclusions(values), settings, fuzzy)
    ensures if count < 1 then !full && p.terms == [] else |p.terms| <= count && (full <==> |p.terms| == count)
  {
    full, p := false, Gathered([], Metrics(0, 0, 0, map[]), 0);
    if count < 1 {
      return;
    }
    var excluded := NormalizedExclusions(values);
    for attempt := 0 to MAX_ATTEMPTS
      invariant GatheredOk(p, SetOf(excluded), settings, fuzzy) && |p.terms| < count && !full
    {
      var remaining := count - |p.terms|;
      var requested := Requested(settings, remaining);
      match Checked(replies[attempt], settings, requested) {
        case Failure(retryable, modelSpecific) =>
          if !retryable && !(modelSpecific && p.model + 1 < settings.models) {
            return;
          }
          p := NextModel(p, settings);
        case Content(candidates) =>
          var selected, rejected, _ := FilterCandidates(candidates, excluded, p.terms, remaining, fuzzy);
          GainedOk(p, |candidates|, selected, |rejected|, SetOf(excluded), settings, fuzzy);
          p := Gained(p, |candidates|, selected, |rejected|);
          if |p.terms| == count {
            return true, p;
          }
          if 10 * |selected| < 3 * requested {
            p := NextModel(p, settings);
          }
      }
    }
  }
}
