/**
 Daily spend of keyword generation (jawnix/keyword_spend.py and the cost and
 reservation arithmetic of jawnix/anthropic_generation.py). Amounts are exact
 decimals, modelled as reals.
 */
module KeywordSpend {
  import opened Basics

  // ---------------------------------------------------------------------
  // What a request can cost
  // ---------------------------------------------------------------------

  const INPUT_CEILING := 1.10
  const OUTPUT_CEILING := 2.75
  const MILLION := 1000000.0
  const LONG_PROMPT := 100000
  const FRAMING := 8192

  datatype Geography = Global | UnitedStates | OtherPlace

  /** Token counts as the provider reports them; `short` and `long` split the cache writes when it says how. */
  datatype Usage = Usage(input: int, output: int, created: int, read: int, place: Geography, short: Option<int>,
                         long: Option<int>)

  function TotalInput(u: Usage): int {
    u.input + u.created + u.read
  }

  function OrElse(o: Option<int>, d: int): int {
    if o.Some? then o.value else d
  }

  predicate Readable(u: Usage) {
    && u.input >= 0 && u.output >= 0 && u.created >= 0 && u.read >= 0
    && u.place != OtherPlace
    && OrElse(u.short, u.created) >= 0 && OrElse(u.long, 0) >= 0
    && OrElse(u.short, u.created) + OrElse(u.long, 0) == u.created
  }

  function Multiplier(u: Usage): real {
    if TotalInput(u) > LONG_PROMPT then
      if u.place == UnitedStates then 5.0 * 1.1 else 5.0
    else
      if u.place == UnitedStates then 1.1 else 1.0
  }

  function Priced(u: Usage): real {
    u.input as real * 0.10 + u.output as real * 0.50 + OrElse(u.short, u.created) as real * 0.125
    + OrElse(u.long, 0) as real * 0.20 + u.read as real * 0.01
  }

  /** `anthropic_cost`; unreadable accounting is an error. */
  function Cost(u: Usage): Option<real> {
    if Readable(u) then Some(Multiplier(u) * Priced(u) / MILLION) else None
  }

  /** The most tokens a request may use. */
  datatype Limits = Limits(input: nat, output: nat)

  function Reservation(l: Limits): real {
    (l.input as real * INPUT_CEILING + l.output as real * OUTPUT_CEILING) / MILLION
  }

  predicate Within(u: Usage, l: Limits) {
    TotalInput(u) <= l.input && u.output <= l.output
  }

  /** Long cache writes are the dearest input there is. */
  lemma PricedBound(u: Usage)
    requires Readable(u)
    ensures 0.0 <= Priced(u) <= TotalInput(u) as real * 0.20 + u.output as real * 0.50
  {
    var short, long := OrElse(u.short, u.created), OrElse(u.long, 0);
    assert u.created as real == short as real + long as real;
    assert TotalInput(u) as real == u.input as real + u.created as real + u.read as real;
  }

  lemma ScaledBound(m: real, p: real, input: real, output: real, maxInput: real, maxOutput: real)
    requires m == 1.0 || m == 1.1 || m == 5.0 || m == 5.5
    requires 0.0 <= p <= input * 0.20 + output * 0.50
    requires input <= maxInput && output <= maxOutput
    ensures 0.0 <= m * p / MILLION <= (maxInput * INPUT_CEILING + maxOutput * OUTPUT_CEILING) / MILLION
  {
    var x, y := m * p, maxInput * INPUT_CEILING + maxOutput * OUTPUT_CEILING;
    assert 0.0 <= x <= 5.5 * p;
    assert 5.5 * p <= y;
    assert 0.0 <= x <= y;
  }

  /** No readable usage within its limits costs more than was reserved for it. */
  lemma CostWithinReservation(u: Usage, l: Limits)
    requires Readable(u) && Within(u, l)
    ensures 0.0 <= Cost(u).value <= Reservation(l)
  {
    PricedBound(u);
    assert TotalInput(u) as real <= l.input as real && u.output as real <= l.output as real;
    ScaledBound(Multiplier(u), Priced(u), TotalInput(u) as real, u.output as real, l.input as real, l.output as real);
  }

  /** The reservation is no larger than it has to be: some usage of every long prompt costs all of it. */
  lemma ReservationIsTight(l: Limits)
    requires l.input > LONG_PROMPT
    ensures var u := Usage(0, l.output, l.input, 0, UnitedStates, Some(0), Some(l.input));
            Within(u, l) && Cost(u) == Some(Reservation(l))
  {
    var u := Usage(0, l.output, l.input, 0, UnitedStates, Some(0), Some(l.input));
    assert Multiplier(u) == 5.5;
    assert Priced(u) == l.output as real * 0.50 + l.input as real * 0.20;
  }

  // ---------------------------------------------------------------------
  // The ledger
  // ---------------------------------------------------------------------

  type Day = nat

  datatype Status = Pending | Settled | Uncertain
  datatype Charge = Charge(day: Day, limits: Limits, reserved: real, metered: Option<real>, status: Status)

  /** A charge's id is its position. */
  datatype Ledger = Ledger(cap: real, charges: seq<Charge>)

  /** Added up over the charges of one day. */
  function Total(cs: seq<Charge>, amount: Charge -> real): real {
    if cs == [] then 0.0 else Total(cs[..|cs| - 1], amount) + amount(cs[|cs| - 1])
  }

  /** The metered cost once known, the reservation until then. */
  function Accounted(day: Day): Charge -> real {
    (c: Charge) => if c.day != day then 0.0 else if c.metered.Some? then c.metered.value else c.reserved
  }

  /** By how much a metered cost passed its reservation. */
  function Excess(day: Day): Charge -> real {
    (c: Charge) =>
      if c.day == day && c.metered.Some? && c.metered.value > c.reserved then c.metered.value - c.reserved else 0.0
  }

  function Committed(g: Ledger, day: Day): real {
    Total(g.charges, Accounted(day))
  }

  function Overrun(g: Ledger, day: Day): real {
    Total(g.charges, Excess(day))
  }

  predicate Blocks(c: Charge, day: Day) {
    c.day == day && c.status == Uncertain && c.metered.Some?
  }

  predicate Blocked(g: Ledger, day: Day) {
    exists i :: 0 <= i < |g.charges| && Blocks(g.charges[i], day)
  }

  /** `DatabaseKeywordBudget.reserve` */
  function Reserve(g: Ledger, day: Day, l: Limits, amount: real): Option<Ledger> {
    if amount < 0.0 || Blocked(g, day) || Committed(g, day) + amount > g.cap then None
    else Some(g.(charges := g.charges + [Charge(day, l, amount, None, Pending)]))
  }

  function Finished(c: Charge, cost: Option<real>): Charge {
    match cost
    case None => c.(status := Uncertain)
    case Some(x) => c.(metered := Some(x), status := if x > c.reserved then Uncertain else Settled)
  }

  /** `DatabaseKeywordBudget.settle`; an overrun is recorded before it is reported. */
  function Settle(g: Ledger, id: int, cost: Option<real>): Option<Ledger> {
    if !(0 <= id < |g.charges|) || g.charges[id].status != Pending || (cost.Some? && cost.value < 0.0) then None
    else Some(g.(charges := g.charges[id := Finished(g.charges[id], cost)]))
  }

  // ---------------------------------------------------------------------
  // Every run
  // ---------------------------------------------------------------------

  lemma TotalAppend(cs: seq<Charge>, c: Charge, amount: Charge -> real)
    ensures Total(cs + [c], amount) == Total(cs, amount) + amount(c)
  {
    assert (cs + [c])[..|cs|] == cs;
  }

  lemma {:induction false} TotalUpdate(cs: seq<Charge>, i: nat, c: Charge, amount: Charge -> real)
    requires i < |cs|
    ensures Total(cs[i := c], amount) == Total(cs, amount) - amount(cs[i]) + amount(c)
  {
    var n := |cs| - 1;
    if i == n {
      assert cs[i := c][..n] == cs[..n];
    } else {
      assert cs[i := c][..n] == cs[..n][i := c];
      TotalUpdate(cs[..n], i, c, amount);
    }
  }

  /** What the status says: a metered cost is there exactly once settled or overrun. */
  ghost predicate ChargeOk(c: Charge) {
    && c.reserved >= 0.0
    && (c.status == Pending ==> c.metered.None?)
    && (c.status == Settled ==> c.metered.Some? && 0.0 <= c.metered.value <= c.reserved)
    && (c.status == Uncertain && c.metered.Some? ==> c.metered.value > c.reserved)
  }

  ghost predicate LedgerOk(g: Ledger) {
    && (forall i :: 0 <= i < |g.charges| ==> ChargeOk(g.charges[i]))
    && (forall d :: Committed(g, d) <= g.cap + Overrun(g, d))
  }

  lemma ReserveOk(g: Ledger, day: Day, l: Limits, amount: real)
    requires LedgerOk(g) && Reserve(g, day, l, amount).Some?
    ensures LedgerOk(Reserve(g, day, l, amount).value)
  {
    var c := Charge(day, l, amount, None, Pending);
    var g' := Reserve(g, day, l, amount).value;
    forall d: Day ensures Committed(g', d) <= g'.cap + Overrun(g', d) {
      assert Committed(g, d) <= g.cap + Overrun(g, d);
      TotalAppend(g.charges, c, Accounted(d));
      TotalAppend(g.charges, c, Excess(d));
      OverrunPositive(g.charges, d);
    }
  }

  lemma {:induction false} OverrunPositive(cs: seq<Charge>, d: Day)
    ensures Total(cs, Excess(d)) >= 0.0
  {
    if cs != [] {
      OverrunPositive(cs[..|cs| - 1], d);
    }
  }

  lemma SettleOk(g: Ledger, id: int, cost: Option<real>)
    requires LedgerOk(g) && Settle(g, id, cost).Some?
    ensures LedgerOk(Settle(g, id, cost).value)
  {
    var c := Finished(g.charges[id], cost);
    var g' := Settle(g, id, cost).value;
    forall d: Day ensures Committed(g', d) <= g'.cap + Overrun(g', d) {
      assert Committed(g, d) <= g.cap + Overrun(g, d);
      TotalUpdate(g.charges, id, c, Accounted(d));
      TotalUpdate(g.charges, id, c, Excess(d));
    }
  }

  datatype Step =
    | DoReserve(day: Day, limits: Limits, amount: real)
    | DoSettle(id: int, cost: Option<real>)

  function Next(g: Ledger, t: Step): Ledger {
    match t
    case DoReserve(d, l, a) => (match Reserve(g, d, l, a) case None => g case Some(g') => g')
    case DoSettle(i, c) => (match Settle(g, i, c) case None => g case Some(g') => g')
  }

  function After(cap: real, ts: seq<Step>): Ledger {
    if ts == [] then Ledger(cap, []) else Next(After(cap, ts[..|ts| - 1]), ts[|ts| - 1])
  }

  /** In every run a day's commitments stay within the cap, plus what metering later overran. */
  lemma {:induction false} CapHolds(cap: real, ts: seq<Step>)
    requires cap >= 0.0
    ensures LedgerOk(After(cap, ts)) && After(cap, ts).cap == cap
  {
    if ts != [] {
      var g, t := After(cap, ts[..|ts| - 1]), ts[|ts| - 1];
      CapHolds(cap, ts[..|ts| - 1]);
      match t {
        case DoReserve(d, l, a) =>
          if Reserve(g, d, l, a).Some? {
            ReserveOk(g, d, l, a);
          }
        case DoSettle(i, c) =>
          if Settle(g, i, c).Some? {
            SettleOk(g, i, c);
          }
      }
    }
  }

  /** A day is blocked exactly when some metered cost overran its reservation. */
  lemma BlockedMeansOverrun(g: Ledger, d: Day)
    requires LedgerOk(g)
    ensures Blocked(g, d) <==> Overrun(g, d) > 0.0
  {
    OverrunIff(g.charges, d);
    if Blocked(g, d) {
      var i :| 0 <= i < |g.charges| && Blocks(g.charges[i], d);
      assert ChargeOk(g.charges[i]);
      assert Excess(d)(g.charges[i]) > 0.0;
    }
    if Overrun(g, d) > 0.0 {
      var i :| 0 <= i < |g.charges| && Excess(d)(g.charges[i]) > 0.0;
      assert ChargeOk(g.charges[i]);
      assert Blocks(g.charges[i], d);
    }
  }

  lemma {:induction false} OverrunIff(cs: seq<Charge>, d: Day)
    ensures Total(cs, Excess(d)) > 0.0 <==> exists i :: 0 <= i < |cs| && Excess(d)(cs[i]) > 0.0
  {
    if cs != [] {
      var n := |cs| - 1;
      OverrunIff(cs[..n], d);
      OverrunPositive(cs[..n], d);
      if i :| 0 <= i < |cs| && Excess(d)(cs[i]) > 0.0 {
        assert i < n ==> Excess(d)(cs[..n][i]) > 0.0;
      }
    }
  }

  /** After an overrun the day stays blocked, so it admits no reservation whatever else happens. */
  lemma {:induction false} BlockedStays(cap: real, ts: seq<Step>, k: nat, d: Day)
    requires k <= |ts| && Blocked(After(cap, ts[..k]), d)
    ensures Blocked(After(cap, ts), d)
    ensures forall l, amount :: Reserve(After(cap, ts), d, l, amount) == None
  {
    if k == |ts| {
      assert ts[..k] == ts;
    } else {
      var before := ts[..|ts| - 1];
      assert before[..k] == ts[..k];
      BlockedStays(cap, before, k, d);
      var g := After(cap, before);
      var i :| 0 <= i < |g.charges| && Blocks(g.charges[i], d);
      assert After(cap, ts).charges[i] == g.charges[i];
    }
  }

  /** Accounting is final: once a charge has left pending no step changes it. */
  lemma FinalIsFinal(g: Ledger, t: Step, i: nat)
    requires i < |g.charges| && g.charges[i].status != Pending
    ensures i < |Next(g, t).charges| && Next(g, t).charges[i] == g.charges[i]
  {
  }

  // ---------------------------------------------------------------------
  // The transport
  // ---------------------------------------------------------------------

  /** What came back: nothing usable, a provider error without usage, or a metered answer. */
  datatype Answer = Lost | ErrorReply | Metered(usage: Usage)

  function CostOf(a: Answer): Option<real> {
    match a
    case Lost => None
    case ErrorReply => Some(0.0)
    case Metered(u) => Cost(u)
  }

  function LimitsOf(bytes: nat, maxOutput: nat): Limits {
    Limits(bytes + FRAMING, maxOutput)
  }

  /** A request through the transport reserves for its limits; an answer settles it. */
  datatype Call =
    | Ask(day: Day, bytes: nat, maxOutput: nat)
    | Receive(id: nat, answer: Answer)

  function StepOf(c: Call): Step {
    match c
    case Ask(d, b, o) => DoReserve(d, LimitsOf(b, o), Reservation(LimitsOf(b, o)))
    case Receive(i, a) => DoSettle(i, CostOf(a))
  }

  function StepsOf(cs: seq<Call>): seq<Step> {
    seq(|cs|, i requires 0 <= i < |cs| => StepOf(cs[i]))
  }

  /** Call `k` reports usage for a charge on record. */
  predicate MetersAt(cap: real, cs: seq<Call>, k: nat)
    requires k < |cs|
  {
    cs[k].Receive? && cs[k].answer.Metered? && cs[k].id < |After(cap, StepsOf(cs[..k])).charges|
  }

  /** The provider keeps to the limits of the request it answers. */
  ghost predicate Honest(cap: real, cs: seq<Call>) {
    forall k :: 0 <= k < |cs| && MetersAt(cap, cs, k) ==>
      Within(cs[k].answer.usage, After(cap, StepsOf(cs[..k])).charges[cs[k].id].limits)
  }

  ghost predicate Funded(g: Ledger) {
    forall i :: 0 <= i < |g.charges| ==>
      && g.charges[i].reserved == Reservation(g.charges[i].limits)
      && (g.charges[i].metered.Some? ==> g.charges[i].metered.value <= g.charges[i].reserved)
  }

  lemma FundedNext(g: Ledger, c: Call)
    requires Funded(g)
    requires c.Receive? && c.answer.Metered? && c.id < |g.charges| ==> Within(c.answer.usage, g.charges[c.id].limits)
    ensures Funded(Next(g, StepOf(c)))
  {
    if c.Receive? && c.answer.Metered? && Settle(g, c.id, CostOf(c.answer)).Some? && Readable(c.answer.usage) {
      CostWithinReservation(c.answer.usage, g.charges[c.id].limits);
    }
  }

  lemma HonestBefore(cap: real, cs: seq<Call>)
    requires cs != [] && Honest(cap, cs)
    ensures Honest(cap, cs[..|cs| - 1])
  {
    var before := cs[..|cs| - 1];
    forall k | 0 <= k < |before| && MetersAt(cap, before, k)
      ensures Within(before[k].answer.usage, After(cap, StepsOf(before[..k])).charges[before[k].id].limits)
    {
      assert before[..k] == cs[..k];
      assert MetersAt(cap, cs, k);
    }
  }

  lemma AfterCalls(cap: real, cs: seq<Call>)
    requires cs != []
    ensures After(cap, StepsOf(cs)) == Next(After(cap, StepsOf(cs[..|cs| - 1])), StepOf(cs[|cs| - 1]))
  {
    assert StepsOf(cs)[..|cs| - 1] == StepsOf(cs[..|cs| - 1]);
  }

  lemma {:induction false} HonestRunsAreFunded(cap: real, cs: seq<Call>)
    requires cap >= 0.0 && Honest(cap, cs)
    ensures Funded(After(cap, StepsOf(cs)))
  {
    if cs != [] {
      var n := |cs| - 1;
      HonestBefore(cap, cs);
      HonestRunsAreFunded(cap, cs[..n]);
      AfterCalls(cap, cs);
      assert cs[n].Receive? && cs[n].answer.Metered? && cs[n].id < |After(cap, StepsOf(cs[..n])).charges| ==>
        MetersAt(cap, cs, n);
      FundedNext(After(cap, StepsOf(cs[..n])), cs[n]);
    }
  }

  /** While the provider keeps to the limits, no day ever commits more than the cap and no day is blocked. */
  lemma HonestRunsKeepCap(cap: real, cs: seq<Call>, d: Day)
    requires cap >= 0.0 && Honest(cap, cs)
    ensures Committed(After(cap, StepsOf(cs)), d) <= cap
    ensures !Blocked(After(cap, StepsOf(cs)), d)
  {
    var g := After(cap, StepsOf(cs));
    HonestRunsAreFunded(cap, cs);
    CapHolds(cap, StepsOf(cs));
    BlockedMeansOverrun(g, d);
    OverrunIff(g.charges, d);
    OverrunPositive(g.charges, d);
    if i :| 0 <= i < |g.charges| && Excess(d)(g.charges[i]) > 0.0 {
      assert false;
    }
  }

  /** The charge table, as `reserve` and `settle` update it. */
  class Budget {
    const cap: real
    var charges: seq<Charge>

    constructor (cap: real)
      requires cap >= 0.0
      ensures View() == After(cap, []) && LedgerOk(View())
    {
      this.cap := cap;
      charges := [];
      new;
      CapHolds(cap, []);
    }

    function View(): Ledger
      reads this
    {
      Ledger(cap, charges)
    }

    method TakeReservation(day: Day, l: Limits, amount: real) returns (id: Option<nat>)
      requires LedgerOk(View())
      modifies this`charges
      ensures LedgerOk(View())
      ensures id.Some? <==> Reserve(old(View()), day, l, amount).Some?
      ensures id.Some? ==> View() == Reserve(old(View()), day, l, amount).value && id.value == |old(charges)|
      ensures id.None? ==> View() == old(View())
    {
      if amount < 0.0 || Blocked(View(), day) || Committed(View(), day) + amount > cap {
        return None;
      }
      ReserveOk(View(), day, l, amount);
      id := Some(|charges|);
      charges := charges + [Charge(day, l, amount, None, Pending)];
    }

    /** `reported` is false when the caller sees an error: nothing recorded, or an overrun recorded. */
    method Finalize(id: int, cost: Option<real>) returns (reported: bool)
      requires LedgerOk(View())
      modifies this`charges
      ensures LedgerOk(View())
      ensures View() == Next(old(View()), DoSettle(id, cost))
      ensures reported <==>
        && Settle(old(View()), id, cost).Some?
        && (cost.Some? ==> cost.value <= old(charges)[id].reserved)
    {
      if !(0 <= id < |charges|) || charges[id].status != Pending || (cost.Some? && cost.value < 0.0) {
        return false;
      }
      SettleOk(View(), id, cost);
      reported := true;
      var c := charges[id];
      if cost.None? {
        c := c.(status := Uncertain);
      } else {
        c := c.(metered := cost, status := Settled);
        if cost.value > c.reserved {
          c := c.(status := Uncertain);
          reported := false;
        }
      }
      charges := charges[id := c];
    }
  }
}
