/**
 Emitting lead.assigned events (jawnix/metrics_emit.py and the requeue rule of
 jawnix/worker.py). A claim posts a burst of one request's events in waves and
 leaves an exclusive cursor. The cursor never passes an event the ingest side
 did not store, and every chain of claims ends.
 */
module MetricsEmit {
  import opened Basics
  import opened Ordering

  const CHUNK_SIZE := 24
  const CONCURRENCY := 4
  const MAX_ATTEMPTS := 10

  type EventId = nat

  /** The ingest side's answer to one POST: stored (200, 201, held 422), a network error or 5xx, any other status. */
  datatype Reply = Stored | Transient | Rejected

  /**
   What a claim cannot know: the answer for each event, whether the time budget
   is spent when the wave at an index would start, and whether a transient
   error surfaces before a rejection in a wave that has both.
   */
  datatype Net = Net(answer: EventId -> Reply, late: nat -> bool, transientFirst: nat -> bool)

  datatype Claim =
    | Raised(transient: bool)
    | Result(posted: nat, done: bool, next: Option<EventId>)

  function ById(): (EventId, EventId) -> bool {
    (a: EventId, b: EventId) => a < b
  }

  /** Rows as the query returns them: by id, none twice. */
  ghost predicate InOrder(es: seq<EventId>) {
    Increasing(es, ById())
  }

  predicate Beyond(e: EventId, after: Option<EventId>) {
    after.None? || after.value < e
  }

  /** The rows after the cursor, in order. */
  function Later(es: seq<EventId>, after: Option<EventId>): seq<EventId> {
    if es == [] then []
    else if Beyond(es[0], after) then [es[0]] + Later(es[1..], after)
    else Later(es[1..], after)
  }

  // ---------------------------------------------------------------------
  // One claim
  // ---------------------------------------------------------------------

  datatype Verdict = Fine | Hiccup | Refusal

  predicate Answered(wave: seq<EventId>, net: Net, reply: Reply) {
    wave != [] && (net.answer(wave[0]) == reply || Answered(wave[1..], net, reply))
  }

  /** The exception that leaves a wave, if any. */
  function WaveVerdict(wave: seq<EventId>, net: Net, index: nat): Verdict {
    var transient, rejected := Answered(wave, net, Transient), Answered(wave, net, Rejected);
    if !transient && !rejected then Fine
    else if transient && (net.transientFirst(index) || !rejected) then Hiccup
    else Refusal
  }

  /** The pool waits for every POST of the wave, so each stored answer counts, raised or not. */
  function StoredIn(wave: seq<EventId>, net: Net): set<EventId> {
    if wave == [] then {} else (if net.answer(wave[0]) == Stored then {wave[0]} else {}) + StoredIn(wave[1..], net)
  }

  function MaxId(wave: seq<EventId>): (m: EventId)
    requires wave != []
    ensures m in wave && forall e :: e in wave ==> e <= m
  {
    if |wave| == 1 then wave[0]
    else
      var m := MaxId(wave[1..]);
      assert wave == [wave[0]] + wave[1..];
      if m < wave[0] then wave[0] else m
  }

  datatype Stop =
    | Reached(index: nat, cursor: Option<EventId>)
    | Yielded(posted: nat, cursor: Option<EventId>)
    | Boom(transient: bool)

  /** The waves from `index` on; `index` events have been posted and `stored` kept by this claim so far. */
  function Waves(chunk: seq<EventId>, index: nat, workers: nat, cursor: Option<EventId>, stored: set<EventId>,
                 net: Net): (set<EventId>, Stop)
    requires workers > 0 && index <= |chunk|
    decreases |chunk| - index
  {
    if index == |chunk| || (index > 0 && net.late(index)) then (stored, Reached(index, cursor))
    else
      var end := Min(index + workers, |chunk|);
      var wave := chunk[index..end];
      var more := stored + StoredIn(wave, net);
      match WaveVerdict(wave, net, index)
      case Fine => Waves(chunk, end, workers, Some(MaxId(wave)), more, net)
      case Hiccup => (more, if index > 0 then Yielded(index, cursor) else Boom(true))
      case Refusal => (more, Boom(false))
  }

  /**
   `emit_lead_assigned`: what the ingest side stored, and the claim's result. Its
   deferral to a job of higher priority is dead code: on the metrics lane
   `higher_priority_job_waiting` is always false.
   */
  function Emit(es: seq<EventId>, after: Option<EventId>, limit: int, configured: bool, net: Net)
    : (set<EventId>, Claim)
  {
    var rows := Later(es, after);
    if !configured then ({}, Result(0, true, None))
    else if limit < 1 then ({}, Raised(false))
    else if rows == [] then ({}, if after.None? then Raised(false) else Result(0, true, None))
    else
      var chunk := rows[..Min(limit, |rows|)];
      var burst := Waves(chunk, 0, Min(CONCURRENCY, |chunk|), after, {}, net);
      match burst.1
      case Reached(index, cursor) =>
        (burst.0, if index < |chunk| || |rows| > limit then Result(index, false, cursor) else Result(index, true, None))
      case Yielded(posted, cursor) => (burst.0, Result(posted, false, cursor))
      case Boom(transient) => (burst.0, Raised(transient))
  }

  /** The wave loop. */
  method PostWaves(chunk: seq<EventId>, workers: nat, after: Option<EventId>, net: Net)
    returns (stored: set<EventId>, stop: Stop)
    requires workers > 0
    ensures (stored, stop) == Waves(chunk, 0, workers, after, {}, net)
  {
    var cursor, index := after, 0;
    stored := {};
    while index < |chunk|
      invariant index <= |chunk|
      invariant Waves(chunk, index, workers, cursor, stored, net) == Waves(chunk, 0, workers, after, {}, net)
    {
      if index > 0 && net.late(index) {
        break;
      }
      var wave := chunk[index..Min(index + workers, |chunk|)];
      stored := stored + StoredIn(wave, net);
      match WaveVerdict(wave, net, index) {
        case Fine =>
          cursor := Some(MaxId(wave));
          index := index + |wave|;
        case Hiccup =>
          return stored, if index > 0 then Yielded(index, cursor) else Boom(true);
        case Refusal =>
          return stored, Boom(false);
      }
    }
    stop := Reached(index, cursor);
  }

  /** The claim as the worker runs it. */
  method EmitLeadAssigned(es: seq<EventId>, after: Option<EventId>, limit: int, configured: bool, net: Net)
    returns (stored: set<EventId>, claim: Claim)
    requires InOrder(es)
    ensures (stored, claim) == Emit(es, after, limit, configured, net)
    ensures configured ==> Progress(es, after, stored, claim)
  {
    ClaimFacts(es, after, limit, net);
    if !configured {
      return {}, Result(0, true, None);
    }
    if limit < 1 {
      return {}, Raised(false);
    }
    var rows := Later(es, after);
    if rows == [] {
      return {}, if after.None? then Raised(false) else Result(0, true, None);
    }
    var chunk := rows[..Min(limit, |rows|)];
    var stop;
    stored, stop := PostWaves(chunk, Min(CONCURRENCY, |chunk|), after, net);
    match stop {
      case Reached(index, cursor) =>
        claim := if index < |chunk| || |rows| > limit then Result(index, false, cursor) else Result(index, true, None);
      case Yielded(posted, cursor) =>
        claim := Result(posted, false, cursor);
      case Boom(transient) =>
        claim := Raised(transient);
    }
  }

  // ---------------------------------------------------------------------
  // The cursor never skips
  // ---------------------------------------------------------------------

  lemma {:induction false} LaterMembers(es: seq<EventId>, after: Option<EventId>, e: EventId)
    ensures e in Later(es, after) <==> e in es && Beyond(e, after)
  {
    if es != [] {
      LaterMembers(es[1..], after, e);
      assert es == [es[0]] + es[1..];
    }
  }

  lemma InOrderTail(es: seq<EventId>)
    requires InOrder(es) && es != []
    ensures InOrder(es[1..]) && forall x :: x in es[1..] ==> es[0] < x
  {
  }

  lemma {:induction false} LaterIncreases(es: seq<EventId>, after: Option<EventId>)
    requires InOrder(es)
    ensures InOrder(Later(es, after))
  {
    if es != [] {
      InOrderTail(es);
      LaterIncreases(es[1..], after);
      var rest := Later(es[1..], after);
      if Beyond(es[0], after) {
        forall x | x in rest ensures es[0] < x {
          LaterMembers(es[1..], after, x);
        }
        IncreasingCons(es[0], rest, ById());
      }
    }
  }

  lemma LaterFacts(es: seq<EventId>, after: Option<EventId>)
    requires InOrder(es)
    ensures InOrder(Later(es, after))
    ensures forall e :: e in Later(es, after) <==> e in es && Beyond(e, after)
  {
    LaterIncreases(es, after);
    forall e ensures e in Later(es, after) <==> e in es && Beyond(e, after) {
      LaterMembers(es, after, e);
    }
  }

  /** The cursor that stands for the first `n` events of a chunk. */
  function CursorAt(chunk: seq<EventId>, n: nat, after: Option<EventId>): Option<EventId>
    requires n <= |chunk|
  {
    if n == 0 then after else Some(chunk[n - 1])
  }

  ghost predicate AllStored(chunk: seq<EventId>, n: nat, stored: set<EventId>)
    requires n <= |chunk|
  {
    forall i :: 0 <= i < n ==> chunk[i] in stored
  }

  lemma LastIsMax(wave: seq<EventId>)
    requires wave != [] && InOrder(wave)
    ensures MaxId(wave) == wave[|wave| - 1]
  {
    var i :| 0 <= i < |wave| && wave[i] == MaxId(wave);
    assert wave[|wave| - 1] in wave;
  }

  /** Where a burst may stop: after stored events only, with the cursor on the last of them. */
  ghost predicate StopOk(chunk: seq<EventId>, after: Option<EventId>, stored: set<EventId>, stop: Stop) {
    match stop
    case Reached(n, c) =>
      n <= |chunk| && (chunk != [] ==> n > 0) && c == CursorAt(chunk, n, after) && AllStored(chunk, n, stored)
    case Yielded(n, c) => n <= |chunk| && n > 0 && c == CursorAt(chunk, n, after) && AllStored(chunk, n, stored)
    case Boom(_) => true
  }

  lemma {:induction false} FineWaveStores(wave: seq<EventId>, net: Net, e: EventId)
    requires !Answered(wave, net, Transient) && !Answered(wave, net, Rejected) && e in wave
    ensures e in StoredIn(wave, net)
  {
    if wave[0] != e {
      assert wave == [wave[0]] + wave[1..];
      FineWaveStores(wave[1..], net, e);
    }
  }

  lemma FineWave(chunk: seq<EventId>, index: nat, end: nat, stored: set<EventId>, net: Net)
    requires index < end <= |chunk| && InOrder(chunk) && AllStored(chunk, index, stored)
    requires WaveVerdict(chunk[index..end], net, index) == Fine
    ensures AllStored(chunk, end, stored + StoredIn(chunk[index..end], net))
    ensures MaxId(chunk[index..end]) == chunk[end - 1]
  {
    var wave := chunk[index..end];
    LastIsMax(wave);
    forall i | index <= i < end ensures chunk[i] in StoredIn(wave, net) {
      assert chunk[i] == wave[i - index];
      FineWaveStores(wave, net, chunk[i]);
    }
  }

  lemma {:induction false} WavesFacts(chunk: seq<EventId>, index: nat, workers: nat, after: Option<EventId>,
                                      stored: set<EventId>, net: Net)
    requires workers > 0 && index <= |chunk| && InOrder(chunk) && AllStored(chunk, index, stored)
    ensures var r := Waves(chunk, index, workers, CursorAt(chunk, index, after), stored, net);
      StopOk(chunk, after, r.0, r.1)
    decreases |chunk| - index
  {
    if index < |chunk| && !(index > 0 && net.late(index)) {
      var end := Min(index + workers, |chunk|);
      var wave := chunk[index..end];
      if WaveVerdict(wave, net, index) == Fine {
        FineWave(chunk, index, end, stored, net);
        WavesFacts(chunk, end, workers, after, stored + StoredIn(wave, net), net);
      }
    }
  }

  /**
   A claim that is done stored every event beyond its cursor; one that is not moved the cursor
   over stored events only.
   */
  ghost predicate Progress(es: seq<EventId>, after: Option<EventId>, stored: set<EventId>, claim: Claim) {
    && (claim.Result? && claim.done ==> Covered(es, after, stored))
    && (claim.Result? && !claim.done ==> claim.next.Some? && Advanced(es, after, stored, claim.next.value))
  }

  ghost predicate Covered(es: seq<EventId>, after: Option<EventId>, stored: set<EventId>) {
    forall e :: e in es && Beyond(e, after) ==> e in stored
  }

  ghost predicate Advanced(es: seq<EventId>, after: Option<EventId>, stored: set<EventId>, next: EventId) {
    && next in es && Beyond(next, after)
    && forall e :: e in es && Beyond(e, after) && e <= next ==> e in stored
  }

  lemma BurstAdvances(es: seq<EventId>, after: Option<EventId>, rows: seq<EventId>, n: nat, chunk: seq<EventId>,
                      stored: set<EventId>)
    requires InOrder(rows) && forall e :: e in rows <==> e in es && Beyond(e, after)
    requires 0 < n <= |chunk| <= |rows| && chunk == rows[..|chunk|] && AllStored(chunk, n, stored)
    ensures Advanced(es, after, stored, chunk[n - 1])
    ensures n == |rows| ==> Covered(es, after, stored)
  {
    PrefixStored(rows, n, chunk, stored);
    assert rows[n - 1] in rows;
    if n == |rows| {
      assert chunk == rows;
    }
  }

  /** A burst that stopped in order moved the cursor over stored events, and over all of them if nothing is left. */
  ghost predicate StopMeans(es: seq<EventId>, after: Option<EventId>, rows: seq<EventId>, chunk: seq<EventId>,
                            stored: set<EventId>, stop: Stop) {
    match stop
    case Reached(n, c) =>
      && n <= |chunk| && c.Some? && Advanced(es, after, stored, c.value)
      && (n == |rows| ==> Covered(es, after, stored))
    case Yielded(_, c) => c.Some? && Advanced(es, after, stored, c.value)
    case Boom(_) => true
  }

  lemma StopAdvances(es: seq<EventId>, after: Option<EventId>, rows: seq<EventId>, chunk: seq<EventId>,
                     stored: set<EventId>, stop: Stop)
    requires InOrder(rows) && forall e :: e in rows <==> e in es && Beyond(e, after)
    requires 0 < |chunk| <= |rows| && chunk == rows[..|chunk|] && StopOk(chunk, after, stored, stop)
    ensures StopMeans(es, after, rows, chunk, stored, stop)
  {
    if stop.Reached? {
      BurstAdvances(es, after, rows, stop.index, chunk, stored);
    } else if stop.Yielded? {
      BurstAdvances(es, after, rows, stop.posted, chunk, stored);
    }
  }

  lemma ChunkInOrder(rows: seq<EventId>, n: nat)
    requires InOrder(rows) && n <= |rows|
    ensures InOrder(rows[..n])
  {
  }

  lemma BurstFacts(es: seq<EventId>, after: Option<EventId>, rows: seq<EventId>, chunk: seq<EventId>, workers: nat,
                   net: Net)
    requires InOrder(rows) && forall e :: e in rows <==> e in es && Beyond(e, after)
    requires workers > 0 && 0 < |chunk| <= |rows| && chunk == rows[..|chunk|]
    ensures var (stored, stop) := Waves(chunk, 0, workers, after, {}, net);
      StopMeans(es, after, rows, chunk, stored, stop)
  {
    ChunkInOrder(rows, |chunk|);
    WavesFacts(chunk, 0, workers, after, {}, net);
    var (stored, stop) := Waves(chunk, 0, workers, after, {}, net);
    StopAdvances(es, after, rows, chunk, stored, stop);
  }

  lemma ClaimFacts(es: seq<EventId>, after: Option<EventId>, limit: int, net: Net)
    requires InOrder(es)
    ensures Progress(es, after, Emit(es, after, limit, true, net).0, Emit(es, after, limit, true, net).1)
  {
    LaterFacts(es, after);
    var rows := Later(es, after);
    if limit >= 1 && rows != [] {
      var chunk := rows[..Min(limit, |rows|)];
      BurstFacts(es, after, rows, chunk, Min(CONCURRENCY, |chunk|), net);
    }
  }

  lemma PrefixStored(rows: seq<EventId>, n: nat, chunk: seq<EventId>, stored: set<EventId>)
    requires InOrder(rows) && 0 < n <= |chunk| <= |rows| && chunk == rows[..|chunk|] && AllStored(chunk, n, stored)
    ensures forall e :: e in rows && e <= rows[n - 1] ==> e in stored
  {
    forall e | e in rows && e <= rows[n - 1] ensures e in stored {
      var i :| 0 <= i < |rows| && rows[i] == e;
      assert i < n;
      assert chunk[i] == e;
    }
  }

  // ---------------------------------------------------------------------
  // Chains of claims
  // ---------------------------------------------------------------------

  datatype Status = Queued | Complete | Failed

  /** The job at the end of a chain, with what the ingest side has stored so far. */
  datatype Chain = Chain(after: Option<EventId>, attempts: nat, status: Status, stored: set<EventId>)

  /** The worker claims the queued job: requeue on progress, retry on a transient error, fail on anything else. */
  function Worked(es: seq<EventId>, c: Chain, net: Net): Chain {
    var (stored, claim) := Emit(es, c.after, CHUNK_SIZE, true, net);
    var all := c.stored + stored;
    match claim
    case Result(_, done, next) =>
      if done then Chain(c.after, c.attempts + 1, Complete, all) else Chain(next, 0, Queued, all)
    case Raised(transient) =>
      var status := if transient && c.attempts + 1 < MAX_ATTEMPTS then Queued else Failed;
      Chain(c.after, c.attempts + 1, status, all)
  }

  function Chased(es: seq<EventId>, c: Chain, nets: seq<Net>): Chain
    decreases |nets|
  {
    if nets == [] || c.status != Queued then c else Chased(es, Worked(es, c, nets[0]), nets[1..])
  }

  /** Every event the cursor has passed is stored, and a complete chain has stored them all. */
  ghost predicate ChainOk(es: seq<EventId>, c: Chain) {
    && (forall e :: e in es && !Beyond(e, c.after) ==> e in c.stored)
    && (c.status == Complete ==> forall e :: e in es ==> e in c.stored)
    && (c.status == Queued ==> c.attempts < MAX_ATTEMPTS)
  }

  /** Claims still possible: attempts left on this cursor, and a full set for each event beyond it. */
  function Left(es: seq<EventId>, c: Chain): int {
    if c.status == Queued then MAX_ATTEMPTS * |Later(es, c.after)| + MAX_ATTEMPTS - c.attempts else 0
  }

  /** Moving the cursor onto a later event leaves fewer events beyond it. */
  lemma {:induction false} LaterShrinks(es: seq<EventId>, after: Option<EventId>, next: EventId)
    requires InOrder(es) && next in es && Beyond(next, after)
    ensures |Later(es, Some(next))| < |Later(es, after)|
  {
    if es[0] == next {
      InOrderTail(es);
      LaterAll(es[1..], Some(next));
      LaterAll(es[1..], after);
    } else {
      LaterShrinks(es[1..], after, next);
    }
  }

  lemma {:induction false} LaterAll(es: seq<EventId>, after: Option<EventId>)
    requires forall e :: e in es ==> Beyond(e, after)
    ensures Later(es, after) == es
  {
    if es != [] {
      LaterAll(es[1..], after);
    }
  }

  lemma WorkedProgresses(es: seq<EventId>, c: Chain, net: Net)
    requires InOrder(es) && ChainOk(es, c) && c.status == Queued
    ensures ChainOk(es, Worked(es, c, net)) && Left(es, Worked(es, c, net)) < Left(es, c)
    ensures c.stored <= Worked(es, c, net).stored
  {
    ClaimFacts(es, c.after, CHUNK_SIZE, net);
    var claim := Emit(es, c.after, CHUNK_SIZE, true, net).1;
    if claim.Result? && !claim.done {
      LaterShrinks(es, c.after, claim.next.value);
    }
  }

  /** Whatever the network does, a chain keeps its promise and never loses a stored event. */
  lemma {:induction false} ChainKeepsOk(es: seq<EventId>, c: Chain, nets: seq<Net>)
    requires InOrder(es) && ChainOk(es, c)
    ensures ChainOk(es, Chased(es, c, nets)) && c.stored <= Chased(es, c, nets).stored
    decreases |nets|
  {
    if nets != [] && c.status == Queued {
      WorkedProgresses(es, c, nets[0]);
      ChainKeepsOk(es, Worked(es, c, nets[0]), nets[1..]);
    }
  }

  /** A chain that has as many claims as its measure allows has left the queue. */
  lemma {:induction false} ChainEnds(es: seq<EventId>, c: Chain, nets: seq<Net>)
    requires InOrder(es) && ChainOk(es, c) && |nets| >= Left(es, c)
    ensures Chased(es, c, nets).status != Queued
    decreases |nets|
  {
    if c.status == Queued {
      WorkedProgresses(es, c, nets[0]);
      ChainEnds(es, Worked(es, c, nets[0]), nets[1..]);
    }
  }

  /**
   From a fresh job: at most ten claims per event and ten more, and a chain
   that completes has had every event of the request stored.
   */
  lemma EveryChainEnds(es: seq<EventId>, nets: seq<Net>)
    requires InOrder(es) && |nets| >= MAX_ATTEMPTS * |es| + MAX_ATTEMPTS
    ensures var end := Chased(es, Chain(None, 0, Queued, {}), nets);
            && end.status != Queued
            && (end.status == Complete ==> forall e :: e in es ==> e in end.stored)
            && (forall e :: e in es && !Beyond(e, end.after) ==> e in end.stored)
  {
    var c := Chain(None, 0, Queued, {});
    LaterAll(es, None);
    ChainKeepsOk(es, c, nets);
    ChainEnds(es, c, nets);
  }
}
