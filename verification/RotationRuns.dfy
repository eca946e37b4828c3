/**
 Whole runs of the marketplace: every request step, roster change, inventory
 change, conflict decision and rotation turn, in any order, with Leads drawn by
 the rotation.
 */
module RotationRuns {
  import opened Basics
  import opened History
  import opened NichePolicy
  import opened Allocation
  import opened Billing
  import opened Requests
  import opened Rotation
  import opened RotationDesk
  import NoRepeat

  datatype Move =
    | Other(step: Requests.Step)
    | TurnOn(r: RequestId, clock: Clock)
    | DecideOn(key: ConflictKey, confirm: bool)

  ghost predicate CanMove(f: Floor, move: Move) {
    match move
    case Other(step) => !step.Allocate? && Requests.Enabled(f.world, step)
    case TurnOn(r, clock) => Rotating(f.world, r) && clock.instant <= clock.at
    case DecideOn(_, _) => true
  }

  ghost function After(f: Floor, move: Move): Floor
    requires WorldOk(f.world) && CanMove(f, move)
  {
    match move
    case Other(step) => f.(world := Requests.Next(f.world, step))
    case TurnOn(r, clock) => Turn(f, r, clock).floor
    case DecideOn(key, confirm) => f.(conflicts := DecideConflict(f.conflicts, key, confirm))
  }

  datatype Story = Story(floors: seq<Floor>, moves: seq<Move>)

  /** `After` is defined on floors that are in order; that they all are is `FloorsStayOk`. */
  ghost predicate IsMove(h: Story, i: int)
    requires |h.floors| == |h.moves| + 1 && 0 <= i < |h.moves|
  {
    WorldOk(h.floors[i].world) ==> CanMove(h.floors[i], h.moves[i]) && h.floors[i + 1] == After(h.floors[i], h.moves[i])
  }

  ghost predicate IsStory(h: Story) {
    && |h.floors| == |h.moves| + 1
    && WorldOk(h.floors[0].world)
    && forall i :: 0 <= i < |h.moves| ==> IsMove(h, i)
  }

  lemma MoveKeepsOk(f: Floor, move: Move)
    requires WorldOk(f.world) && CanMove(f, move)
    ensures WorldOk(After(f, move).world) && Forward(f.conflicts, After(f, move).conflicts)
  {
    match move {
      case Other(step) => Requests.StepKeepsOk(f.world, step);
      case TurnOn(r, clock) => TurnDoes(f, r, clock);
      case DecideOn(key, confirm) => DecisionMovesForward(f.conflicts, key, confirm);
    }
  }

  lemma {:induction false} FloorsStayOk(h: Story, i: nat)
    requires IsStory(h) && i < |h.floors|
    ensures WorldOk(h.floors[i].world)
  {
    if i > 0 {
      FloorsStayOk(h, i - 1);
      assert IsMove(h, i - 1);
      MoveKeepsOk(h.floors[i - 1], h.moves[i - 1]);
    }
  }

  // ---------------------------------------------------------------------
  // No repeats
  // ---------------------------------------------------------------------

  /** The distribution step a move amounts to, if it makes one. */
  ghost predicate DistMove(d: Dist, e: Dist, step: NoRepeat.Step) {
    && NoRepeat.DistOk(d) && NoRepeat.Enabled(d, step) && e == NoRepeat.Next(d, step)
    && (step.Allocate? ==> d.roster.CustomerActive(step.c))
  }

  /** Every move leaves the distribution alone or makes one distribution step, drawing only for active Customers. */
  lemma MoveProjects(f: Floor, move: Move)
    requires WorldOk(f.world) && CanMove(f, move)
    ensures After(f, move).world.dist == f.world.dist ||
      exists step :: DistMove(f.world.dist, After(f, move).world.dist, step)
  {
    match move {
      case Other(step) =>
        if step.DistStep? {
          assert DistMove(f.world.dist, After(f, move).world.dist, step.step);
        } else {
          DistOnlyMovesByCommit(f.world, step);
        }
      case TurnOn(r, clock) =>
        TurnDoes(f, r, clock);
        if After(f, move).world.dist != f.world.dist {
          assert DistMove(f.world.dist, After(f, move).world.dist, TurnDraw(f, r, clock));
        }
      case DecideOn(key, confirm) =>
    }
  }

  lemma MoveKeepsHistory(f: Floor, move: Move)
    requires WorldOk(f.world) && CanMove(f, move)
    requires NoRepeat.NoLeadTwice(f.world.dist.events) && NoRepeat.DaysApart(f.world.dist.events)
    ensures NoRepeat.NoLeadTwice(After(f, move).world.dist.events)
    ensures NoRepeat.DaysApart(After(f, move).world.dist.events)
  {
    MoveProjects(f, move);
    var d, e := f.world.dist, After(f, move).world.dist;
    if e != d {
      var step :| DistMove(d, e, step);
      NoRepeat.StepKeepsNoLeadTwice(d, step);
      NoRepeat.StepKeepsDaysApart(d, step);
    }
  }

  /** Over every run no Customer receives a Lead twice, and no Lead goes out twice within a day. */
  lemma {:induction false} NoRepeatInAnyRun(h: Story, i: nat)
    requires IsStory(h) && i < |h.floors|
    requires NoRepeat.NoLeadTwice(h.floors[0].world.dist.events) && NoRepeat.DaysApart(h.floors[0].world.dist.events)
    ensures NoRepeat.NoLeadTwice(h.floors[i].world.dist.events) && NoRepeat.DaysApart(h.floors[i].world.dist.events)
  {
    if i > 0 {
      NoRepeatInAnyRun(h, i - 1);
      FloorsStayOk(h, i - 1);
      assert IsMove(h, i - 1);
      MoveKeepsHistory(h.floors[i - 1], h.moves[i - 1]);
    }
  }

  // ---------------------------------------------------------------------
  // Shared history
  // ---------------------------------------------------------------------

  /** No move separates holders that share history. */
  lemma MoveNeverSplits(f: Floor, move: Move, x: Holder, y: Holder)
    requires WorldOk(f.world) && CanMove(f, move) && SameHistory(f.world.dist.roster, x, y)
    ensures SameHistory(After(f, move).world.dist.roster, x, y)
  {
    MoveProjects(f, move);
    var d, e := f.world.dist, After(f, move).world.dist;
    if e != d {
      var step :| DistMove(d, e, step);
      NoRepeat.StepNeverSplits(d, step, x, y);
    }
  }

  lemma {:induction false} StoryNeverSplits(h: Story, i: nat, j: nat, x: Holder, y: Holder)
    requires IsStory(h) && i <= j < |h.floors| && SameHistory(h.floors[i].world.dist.roster, x, y)
    ensures SameHistory(h.floors[j].world.dist.roster, x, y)
    decreases j
  {
    if i < j {
      StoryNeverSplits(h, i, j - 1, x, y);
      FloorsStayOk(h, j - 1);
      assert IsMove(h, j - 1);
      MoveNeverSplits(h.floors[j - 1], h.moves[j - 1], x, y);
    }
  }

  /** Event `k` was delivered by the move from `f` to `g`. */
  predicate NewIn(f: Floor, g: Floor, k: nat) {
    |f.world.dist.events| <= k < |g.world.dist.events|
  }

  /** Events only grow by a draw, and the new ones are what it drew. */
  lemma NewIsDrawn(d: Dist, e: Dist, step: NoRepeat.Step, k: nat)
    requires DistMove(d, e, step) && |d.events| <= k < |e.events|
    ensures NoRepeat.Draws(d, step) && k - |d.events| < |NoRepeat.Drawn(d, step)|
    ensures e.events[k] ==
      NewEvent(d.roster, step.c, step.request, step.at, NoRepeat.Drawn(d, step)[k - |d.events|])
  {
  }

  lemma DrawnAvoidsHistory(d: Dist, e: Dist, step: NoRepeat.Step, k: nat, held: nat, c: CustomerId, o: CustomerId)
    requires DistMove(d, e, step) && held < |d.events| <= k < |e.events|
    requires e.events[k].customer == Some(c) && d.events[held].customer == Some(o)
    requires e.events[k].lead == d.events[held].lead && SameHistory(d.roster, OfCustomer(c), OfCustomer(o))
    ensures !d.roster.CustomerActive(o)
  {
    NewIsDrawn(d, e, step, k);
    NoRepeat.DrawAvoidsHistory(d, step, NoRepeat.Drawn(d, step)[k - |d.events|], o, held);
  }

  /** A new delivery takes nothing that an active sharer of the recipient's history holds. */
  lemma DeliveryAvoidsHistory(f: Floor, move: Move, k: nat, held: nat, c: CustomerId, o: CustomerId)
    requires WorldOk(f.world) && CanMove(f, move) && NewIn(f, After(f, move), k) && held < |f.world.dist.events|
    requires After(f, move).world.dist.events[k].customer == Some(c)
    requires f.world.dist.events[held].customer == Some(o)
    requires After(f, move).world.dist.events[k].lead == f.world.dist.events[held].lead
    requires SameHistory(f.world.dist.roster, OfCustomer(c), OfCustomer(o))
    ensures !f.world.dist.roster.CustomerActive(o)
  {
    MoveProjects(f, move);
    var d, e := f.world.dist, After(f, move).world.dist;
    var step :| DistMove(d, e, step);
    DrawnAvoidsHistory(d, e, step, k, held, c, o);
  }

  /**
   Once two Customers have shared a history key, at whatever point of a run,
   no later move delivers to one a Lead the other holds while the other is active.
   */
  lemma SharedHistoryNeverRepeats(h: Story, i: nat, j: nat, k: nat, held: nat, c: CustomerId, o: CustomerId)
    requires IsStory(h) && i <= j < |h.moves|
    requires SameHistory(h.floors[i].world.dist.roster, OfCustomer(c), OfCustomer(o))
    requires NewIn(h.floors[j], h.floors[j + 1], k) && held < |h.floors[j].world.dist.events|
    requires h.floors[j + 1].world.dist.events[k].customer == Some(c)
    requires h.floors[j].world.dist.events[held].customer == Some(o)
    requires h.floors[j + 1].world.dist.events[k].lead == h.floors[j].world.dist.events[held].lead
    ensures !h.floors[j].world.dist.roster.CustomerActive(o)
  {
    StoryNeverSplits(h, i, j, OfCustomer(c), OfCustomer(o));
    FloorsStayOk(h, j);
    assert IsMove(h, j);
    DeliveryAvoidsHistory(h.floors[j], h.moves[j], k, held, c, o);
  }

  // ---------------------------------------------------------------------
  // One bypass per conflict
  // ---------------------------------------------------------------------

  lemma {:induction false} ConsumedStays(h: Story, i: nat, j: nat, key: ConflictKey)
    requires IsStory(h) && i <= j < |h.floors|
    requires key in h.floors[i].conflicts && h.floors[i].conflicts[key] == Consumed
    ensures key in h.floors[j].conflicts && h.floors[j].conflicts[key] == Consumed
    decreases j
  {
    if i < j {
      ConsumedStays(h, i, j - 1, key);
      FloorsStayOk(h, j - 1);
      assert IsMove(h, j - 1);
      MoveKeepsOk(h.floors[j - 1], h.moves[j - 1]);
    }
  }

  /** In every run a conflict about one pair and one snapshot authorizes at most one bypass. */
  lemma OneBypassPerConflict(h: Story, i: nat, j: nat, key: ConflictKey)
    requires IsStory(h) && i < |h.moves| && j < |h.moves|
    requires Uses(h.floors[i].conflicts, h.floors[i + 1].conflicts, key)
    requires Uses(h.floors[j].conflicts, h.floors[j + 1].conflicts, key)
    ensures i == j
  {
    if i < j {
      ConsumedStays(h, i + 1, j, key);
    } else if j < i {
      ConsumedStays(h, j + 1, i, key);
    }
  }

  // ---------------------------------------------------------------------
  // The chain of passes
  // ---------------------------------------------------------------------

  predicate RowApart(qs: seq<Request>, rs: seq<Request>, r: nat) {
    |rs| == |qs| && r < |qs| && rs == qs[r := rs[r]]
  }

  /** `rs` is `qs` with at most one row changed, or with a pending one added. */
  ghost predicate OneRowApart(qs: seq<Request>, rs: seq<Request>) {
    || rs == qs
    || (exists r: nat :: RowApart(qs, rs, r))
    || (|rs| == |qs| + 1 && rs[..|qs|] == qs && rs[|qs|].status == Pending)
  }

  /** Closing a request sets its status and may release its hold: one row. */
  lemma CloseTouchesOneRow(w: World, r: RequestId, status: Status)
    requires Known(w, r)
    ensures RowApart(w.books.requests, ReleaseHold(SetStatus(w, r, status), r).books.requests, r)
    ensures RowApart(w.books.requests, SetStatus(w, r, status).books.requests, r)
  {
  }

  lemma DecideTouchesOneRow(w: World, r: RequestId, action: Action, at: int)
    ensures OneRowApart(w.books.requests, Decided(w, r, action, at).books.requests)
  {
    if Known(w, r) {
      CloseTouchesOneRow(w, r, Rejected);
      CloseTouchesOneRow(w, r, Canceled);
      CloseTouchesOneRow(w, r, Generated);
      if Decided(w, r, action, at) != w {
        assert RowApart(w.books.requests, Decided(w, r, action, at).books.requests, r);
      }
    }
  }

  lemma NarrowTouchesOneRow(w: World, r: RequestId, proposed: set<State>)
    ensures OneRowApart(w.books.requests, Narrowed(w, r, proposed).books.requests)
  {
    if Narrowed(w, r, proposed) != w {
      var left := w.books.requests[r].states * proposed;
      var narrowed := SetRequest(w, r, w.books.requests[r].(states := left));
      CloseTouchesOneRow(narrowed, r, Canceled);
      assert RowApart(w.books.requests, Narrowed(w, r, proposed).books.requests, r);
    }
  }

  lemma StepTouchesOneRow(w: World, step: Requests.Step)
    requires WorldOk(w) && Requests.Enabled(w, step) && !step.Allocate?
    ensures OneRowApart(w.books.requests, Requests.Next(w, step).books.requests)
  {
    match step {
      case Decide(r, action, at) => DecideTouchesOneRow(w, r, action, at);
      case Withdraw(r) =>
        if Known(w, r) {
          CloseTouchesOneRow(w, r, Canceled);
        }
      case NarrowStates(r, proposed) => NarrowTouchesOneRow(w, r, proposed);
      case AllocationFailed(r) =>
        if Known(w, r) {
          CloseTouchesOneRow(w, r, Failed);
        }
      case DeliverySent(r) => CloseTouchesOneRow(w, r, Status.Delivered);
      case DeliveryFailed(r) => CloseTouchesOneRow(w, r, Failed);
      case GateBlocked(r, n) => assert RowApart(w.books.requests, Requests.Next(w, step).books.requests, r);
      case Reopen(r) => CloseTouchesOneRow(w, r, Status.Approved);
      case _ =>
    }
  }

  lemma OneRowOpensOne(qs: seq<Request>, rs: seq<Request>)
    requires OneRowApart(qs, rs)
    ensures Count(rs, QueuedRow()) <= Count(qs, QueuedRow()) + 1
  {
    if |rs| == |qs| + 1 {
      assert rs == qs + [rs[|qs|]];
      CountConcat(qs, [rs[|qs|]], QueuedRow());
    } else if rs != qs {
      var r: nat :| RowApart(qs, rs, r);
      CountUpdate(qs, r, rs[r], QueuedRow());
    }
  }

  /** Whatever else happens, one move puts at most one more request into rotation. */
  lemma MoveOpensOne(f: Floor, move: Move)
    requires WorldOk(f.world) && CanMove(f, move)
    ensures OpenCount(After(f, move)) <= OpenCount(f) + 1
  {
    match move {
      case Other(step) =>
        StepTouchesOneRow(f.world, step);
        OneRowOpensOne(f.world.books.requests, After(f, move).world.books.requests);
      case TurnOn(r, clock) => TurnDropsOpen(f, r, clock);
      case DecideOn(key, confirm) =>
    }
  }

  /** A whole pass of `fulfill_round_robin`, or any other move. */
  datatype Act = RunPass(p: Pass) | Do(move: Move)

  datatype Chronicle = Chronicle(floors: seq<Floor>, acts: seq<Act>)

  ghost predicate Acts(f: Floor, act: Act, g: Floor) {
    match act
    case RunPass(p) => IsPass(p) && p.floors[0] == f && p.floors[|p.floors| - 1] == g
    case Do(move) => WorldOk(f.world) ==> CanMove(f, move) && g == After(f, move)
  }

  ghost predicate ActAt(h: Chronicle, i: nat)
    requires i < |h.acts| && i + 1 < |h.floors|
  {
    Acts(h.floors[i], h.acts[i], h.floors[i + 1])
  }

  ghost predicate IsChronicle(h: Chronicle) {
    && |h.floors| == |h.acts| + 1
    && WorldOk(h.floors[0].world)
    && forall i :: 0 <= i < |h.acts| ==> ActAt(h, i)
  }

  /** A pass that puts itself back in the queue. */
  ghost predicate Repeats(act: Act) {
    act.RunPass? && IsPass(act.p) && Requeues(act.p)
  }

  /** How many acts were passes that re-queued themselves, and how many were other moves. */
  ghost function Repeated(acts: seq<Act>): nat {
    if acts == [] then 0 else Repeated(acts[..|acts| - 1]) + if Repeats(acts[|acts| - 1]) then 1 else 0
  }

  ghost function Others(acts: seq<Act>): nat {
    if acts == [] then 0 else Others(acts[..|acts| - 1]) + if acts[|acts| - 1].Do? then 1 else 0
  }

  lemma ActKeepsCount(f: Floor, act: Act, g: Floor)
    requires WorldOk(f.world) && Acts(f, act, g)
    ensures WorldOk(g.world)
    ensures OpenCount(g) + (if Repeats(act) then 1 else 0) <= OpenCount(f) + (if act.Do? then 1 else 0)
  {
    match act {
      case RunPass(p) => PassShortensQueue(p);
      case Do(move) =>
        MoveKeepsOk(f, move);
        MoveOpensOne(f, move);
    }
  }

  lemma CountsNext(acts: seq<Act>)
    requires acts != []
    ensures var init, last := acts[..|acts| - 1], acts[|acts| - 1];
      && Repeated(acts) == Repeated(init) + (if Repeats(last) then 1 else 0)
      && Others(acts) == Others(init) + (if last.Do? then 1 else 0)
  {
  }

  lemma SameAct(h: Chronicle, init: Chronicle, i: nat)
    requires i < |init.acts| && i + 1 < |init.floors| && init.floors <= h.floors && init.acts <= h.acts && ActAt(h, i)
    ensures ActAt(init, i)
  {
    assert init.floors[i] == h.floors[i] && init.floors[i + 1] == h.floors[i + 1] && init.acts[i] == h.acts[i];
  }

  lemma EarlierActs(h: Chronicle, init: Chronicle)
    requires IsChronicle(h) && |init.floors| == |init.acts| + 1 && init.floors <= h.floors && init.acts <= h.acts
    ensures IsChronicle(init)
  {
    assert init.floors[0] == h.floors[0];
    forall i | 0 <= i < |init.acts| ensures ActAt(init, i) {
      assert ActAt(h, i);
      SameAct(h, init, i);
    }
  }

  /**
   The self-enqueued chain ends. In every history of passes and other moves, in
   any order, passes that re-queue themselves are at most as many as the
   requests in rotation at the start and the moves made meanwhile.
   */
  lemma {:induction false} ChainTerminates(h: Chronicle)
    requires IsChronicle(h)
    ensures WorldOk(h.floors[|h.acts|].world)
    ensures Repeated(h.acts) + OpenCount(h.floors[|h.acts|]) <= OpenCount(h.floors[0]) + Others(h.acts)
    decreases |h.acts|
  {
    var n := |h.acts|;
    if n > 0 {
      var init := Chronicle(h.floors[..n], h.acts[..n - 1]);
      EarlierActs(h, init);
      ChainTerminates(init);
      assert ActAt(h, n - 1) && init.floors[n - 1] == h.floors[n - 1];
      ActKeepsCount(h.floors[n - 1], h.acts[n - 1], h.floors[n]);
      CountsNext(h.acts);
    }
  }
}
