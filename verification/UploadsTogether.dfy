/**
 An import among other imports (jawnix/lead_uploads.py): it dies and is retried
 any number of times, while between any two of its transactions other uploads
 register endpoints and publish. The endpoints it gets then depend on who came
 first, so this is no equality with one run; it is what the last run leaves.
 */
module UploadsTogether {
  import opened Basics
  import opened LeadUploads

  /** What other uploads commit in the shared stores. */
  datatype Elsewhere =
    | OthersRegister(ks: seq<Kept>)
    | OthersPublish(id: nat, leads: set<LeadId>)

  datatype Tick = Own(op: Op) | Other(what: Elsewhere)

  function Taken(members: map<LeadId, nat>, leads: set<LeadId>, id: nat): map<LeadId, nat> {
    members + map l | l in leads :: id
  }

  function Outside(db: Db, what: Elsewhere): Db {
    match what
    case OthersRegister(ks) => db.(registry := RegisterAll(db.registry, ks))
    case OthersPublish(id, leads) => db.(members := Taken(db.members, leads, id))
  }

  function Ticked(db: Db, t: Tick): Db {
    match t
    case Own(op) => Apply(db, op)
    case Other(what) => Outside(db, what)
  }

  function Ran(db: Db, ts: seq<Tick>): Db {
    if ts == [] then db else Ticked(Ran(db, ts[..|ts| - 1]), ts[|ts| - 1])
  }

  /** The transactions of the import among the ticks. */
  function OwnOps(ts: seq<Tick>): seq<Op> {
    if ts == [] then [] else OwnOps(ts[..|ts| - 1]) + if ts[|ts| - 1].Own? then [ts[|ts| - 1].op] else []
  }

  /** The index as other uploads alone would have left it. */
  function Theirs(members: map<LeadId, nat>, ts: seq<Tick>): map<LeadId, nat> {
    if ts == [] then members
    else
      var before, t := Theirs(members, ts[..|ts| - 1]), ts[|ts| - 1];
      if t.Other? && t.what.OthersPublish? then Taken(before, t.what.leads, t.what.id) else before
  }

  /** One attempt: it plans from what it finds and dies after any number of its transactions. */
  predicate IsTry(db: Db, u: Upload, ts: seq<Tick>) {
    OwnOps(ts) <= Plan(db, u)
  }

  function AfterAll(db: Db, tries: seq<seq<Tick>>): Db {
    if tries == [] then db else Ran(AfterAll(db, tries[..|tries| - 1]), tries[|tries| - 1])
  }

  function TheirsAfterAll(members: map<LeadId, nat>, tries: seq<seq<Tick>>): map<LeadId, nat> {
    if tries == [] then members else Theirs(TheirsAfterAll(members, tries[..|tries| - 1]), tries[|tries| - 1])
  }

  predicate AreTries(db: Db, u: Upload, tries: seq<seq<Tick>>) {
    tries != [] ==>
      && AreTries(db, u, tries[..|tries| - 1])
      && IsTry(AfterAll(db, tries[..|tries| - 1]), u, tries[|tries| - 1])
  }

  // ---------------------------------------------------------------------
  // What is true between any two transactions
  // ---------------------------------------------------------------------

  /** The listings hold these rows under this registry. */
  ghost predicate Wrote(rows: map<Phone, Listing>, g: Registry, ks: seq<Kept>) {
    Knows(g, ks) && rows + Listings(g, ks) == rows
  }

  /** Endpoints are in order and only phones of the file are listed. */
  ghost predicate InOrder(db: Db, u: Upload) {
    RegistryOk(db.registry) && db.rows.Keys <= PhonesOf(KeptRows(u.raw)) && db.record.status != Complete
  }

  predicate IsReady(db: Db) {
    db.remote.Some? && db.remote.value.status == Ready
  }

  /** The file is loaded and marked: exactly its listings are stored. */
  ghost predicate ReadyAt(db: Db, u: Upload) {
    && InOrder(db, u)
    && db.remote == Some(Remote(Ready, u.Totals()))
    && Knows(db.registry, KeptRows(u.raw)) && db.rows == Listings(db.registry, KeptRows(u.raw))
  }

  /** This attempt has made the transactions `done` of its load. */
  ghost predicate LoadingAt(db: Db, u: Upload, done: seq<Op>) {
    && InOrder(db, u) && !IsReady(db)
    && Loads(done) && done <= LoadOps(u.chunks)
    && Knows(db.registry, Registered(done)) && Wrote(db.rows, db.registry, Upserted(done))
  }

  ghost predicate BetweenTries(db: Db, u: Upload) {
    InOrder(db, u) && (IsReady(db) ==> ReadyAt(db, u))
  }

  // ---------------------------------------------------------------------
  // Other uploads
  // ---------------------------------------------------------------------

  lemma OthersExtend(db: Db, what: Elsewhere)
    requires RegistryOk(db.registry)
    ensures RegistryOk(Outside(db, what).registry) && Extends(db.registry, Outside(db, what).registry)
  {
    if what.OthersRegister? {
      RegisterAllFacts(db.registry, what.ks);
      RegisterAllOk(db.registry, what.ks);
    }
  }

  lemma WroteStays(rows: map<Phone, Listing>, g: Registry, h: Registry, ks: seq<Kept>)
    requires Wrote(rows, g, ks) && Extends(g, h)
    ensures Wrote(rows, h, ks)
  {
    SameListings(g, h, ks);
  }

  lemma OthersKeepLoading(db: Db, u: Upload, done: seq<Op>, what: Elsewhere)
    requires LoadingAt(db, u, done)
    ensures LoadingAt(Outside(db, what), u, done)
  {
    OthersExtend(db, what);
    WroteStays(db.rows, db.registry, Outside(db, what).registry, Upserted(done));
  }

  lemma OthersKeepReady(db: Db, u: Upload, what: Elsewhere)
    requires ReadyAt(db, u)
    ensures ReadyAt(Outside(db, what), u)
  {
    OthersExtend(db, what);
    SameListings(db.registry, Outside(db, what).registry, KeptRows(u.raw));
  }

  // ---------------------------------------------------------------------
  // The import's own transactions
  // ---------------------------------------------------------------------

  lemma RegisterKeepsLoading(db: Db, u: Upload, done: seq<Op>, c: Chunk)
    requires LoadingAt(db, u, done)
    ensures var e := Apply(db, RegisterOp(c));
      && RegistryOk(e.registry) && Knows(e.registry, Registered(done) + c.rows)
      && Wrote(e.rows, e.registry, Upserted(done))
  {
    RegisterAllFacts(db.registry, c.rows);
    RegisterAllOk(db.registry, c.rows);
    WroteStays(db.rows, db.registry, RegisterAll(db.registry, c.rows), Upserted(done));
  }

  /** Writing more keeps what was written. */
  lemma UpsertWrites(rows: map<Phone, Listing>, g: Registry, a: seq<Kept>, b: seq<Kept>)
    requires Wrote(rows, g, a) && Knows(g, b)
    ensures Wrote(UpsertChunk(rows, g, b), g, a + b)
  {
    ListingsConcat(g, a, b);
    assert UpsertChunk(rows, g, b) == rows + Listings(g, b);
    MergeKeeps(rows, Listings(g, a), Listings(g, b));
  }

  lemma MergeKeeps<K, V>(r: map<K, V>, a: map<K, V>, b: map<K, V>)
    requires r + a == r
    ensures (r + b) + (a + b) == r + b
  {
    assert forall k :: k in a ==> k in r && r[k] == (r + a)[k];
  }

  lemma PartOfLoad(u: Upload, done: seq<Op>)
    requires u.Valid() && done <= LoadOps(u.chunks)
    ensures Loads(done) && Upserted(done) <= KeptRows(u.raw)
  {
    var ops := LoadOps(u.chunks);
    LoadOpsFacts(u.chunks);
    LoadsPrefix(ops, |done|);
    PrefixRows(ops, |done|);
    assert ops[..|done|] == done;
  }

  lemma NextOp(u: Upload, done: seq<Op>, op: Op)
    requires u.Valid() && done + [op] <= LoadOps(u.chunks)
    ensures Loads(done + [op]) && Upserted(done + [op]) <= KeptRows(u.raw)
    ensures Registered(done + [op]) == Registered(done) + (if op.RegisterOp? then op.chunk.rows else [])
    ensures Upserted(done + [op]) == Upserted(done) + (if op.UpsertOp? then op.chunk.rows else [])
    ensures op.UpsertOp? ==> done != [] && done[|done| - 1] == RegisterOp(op.chunk)
    ensures !op.PublishOp? && !op.FailOp? && !op.MarkReady?
  {
    PartOfLoad(u, done + [op]);
    OneMore(done, op);
  }

  lemma PrefixPhones(ks: seq<Kept>, some: seq<Kept>)
    requires some <= ks
    ensures PhonesOf(some) <= PhonesOf(ks)
  {
    forall p | p in PhonesOf(some) ensures p in PhonesOf(ks) {
      var i :| 0 <= i < |some| && some[i].phone == p;
      assert ks[i].phone == p;
    }
  }

  lemma UpsertPhones(rows: map<Phone, Listing>, g: Registry, a: seq<Kept>, b: seq<Kept>, ks: seq<Kept>)
    requires rows.Keys <= PhonesOf(ks) && a + b <= ks
    ensures UpsertChunk(rows, g, b).Keys <= PhonesOf(ks)
  {
    ListingKeys(g, b);
    PrefixPhones(ks, a + b);
    forall p | p in PhonesOf(b) ensures p in PhonesOf(ks) {
      var i :| 0 <= i < |b| && b[i].phone == p;
      assert (a + b)[|a| + i].phone == p;
    }
    assert UpsertChunk(rows, g, b) == rows + Listings(g, b);
  }

  lemma KnowsLater(g: Registry, a: seq<Kept>, b: seq<Kept>)
    requires Knows(g, a + b)
    ensures Knows(g, b)
  {
    forall i | 0 <= i < |b| ensures b[i].phone in g.ids {
      assert (a + b)[|a| + i] == b[i];
    }
  }

  lemma LastRegistered(db: Db, done: seq<Op>, c: Chunk)
    requires done != [] && done[|done| - 1] == RegisterOp(c) && Knows(db.registry, Registered(done))
    ensures Knows(db.registry, c.rows)
  {
    KnowsLater(db.registry, Registered(done[..|done| - 1]), c.rows);
  }

  lemma UpsertKeepsLoading(db: Db, u: Upload, done: seq<Op>, c: Chunk)
    requires u.Valid() && LoadingAt(db, u, done) && done + [UpsertOp(c)] <= LoadOps(u.chunks)
    ensures LoadingAt(Apply(db, UpsertOp(c)), u, done + [UpsertOp(c)])
  {
    NextOp(u, done, UpsertOp(c));
    LastRegistered(db, done, c);
    UpsertWrites(db.rows, db.registry, Upserted(done), c.rows);
    UpsertPhones(db.rows, db.registry, Upserted(done), c.rows, KeptRows(u.raw));
    assert Registered(done) + [] == Registered(done);
  }

  lemma OwnKeepsLoading(db: Db, u: Upload, done: seq<Op>, op: Op)
    requires u.Valid() && LoadingAt(db, u, done) && done + [op] <= LoadOps(u.chunks)
    ensures LoadingAt(Apply(db, op), u, done + [op]) && Apply(db, op).members == db.members
  {
    NextOp(u, done, op);
    if op.UpsertOp? {
      UpsertKeepsLoading(db, u, done, op.chunk);
    } else {
      assert Upserted(done) + [] == Upserted(done);
      if op.RegisterOp? {
        RegisterKeepsLoading(db, u, done, op.chunk);
      } else {
        assert Registered(done) + [] == Registered(done);
      }
    }
  }

  /** Once the whole load is made, exactly the file's listings are stored. */
  lemma LoadedIsListed(db: Db, u: Upload)
    requires u.Valid() && LoadingAt(db, u, LoadOps(u.chunks))
    ensures Knows(db.registry, KeptRows(u.raw)) && db.rows == Listings(db.registry, KeptRows(u.raw))
  {
    LoadOpsFacts(u.chunks);
    ListingKeys(db.registry, KeptRows(u.raw));
  }

  // ---------------------------------------------------------------------
  // One attempt
  // ---------------------------------------------------------------------

  /** Where an attempt stands once its transactions `done` are made; a finished one is described by `PublishedAt`. */
  ghost predicate Stands(start: Db, db: Db, u: Upload, done: seq<Op>) {
    if IsReady(start) || |done| > |LoadOps(u.chunks)| then ReadyAt(db, u) else LoadingAt(db, u, done)
  }

  lemma TryStarts(db: Db, u: Upload)
    requires BetweenTries(db, u)
    ensures Stands(db, db, u, [])
  {
    if !IsReady(db) {
      assert Listings(db.registry, []) == map[];
      assert db.rows + map[] == db.rows;
    }
  }

  lemma OthersKeepStanding(start: Db, db: Db, u: Upload, done: seq<Op>, what: Elsewhere)
    requires Stands(start, db, u, done)
    ensures Stands(start, Outside(db, what), u, done)
  {
    if IsReady(start) || |done| > |LoadOps(u.chunks)| {
      OthersKeepReady(db, u, what);
    } else {
      OthersKeepLoading(db, u, done, what);
    }
  }

  lemma OwnKeepsStanding(start: Db, db: Db, u: Upload, done: seq<Op>, op: Op)
    requires u.Valid() && Importable(u) && BetweenTries(start, u) && Stands(start, db, u, done)
    requires done + [op] <= Plan(start, u) && !op.PublishOp?
    ensures Stands(start, Apply(db, op), u, done + [op]) && Apply(db, op).members == db.members
  {
    var n := |done|;
    assert Plan(start, u)[n] == op;
    if IsReady(start) {
      assert op == MarkWorking;
    } else {
      PlanSplits(start, u);
      var load := LoadOps(u.chunks);
      if n < |load| {
        assert done + [op] <= load;
        OwnKeepsLoading(db, u, done, op);
      } else {
        assert n == |load| && op == MarkReady(u.Totals());
        assert done == load;
        LoadedIsListed(db, u);
      }
    }
  }

  predicate NoPublish(ops: seq<Op>) {
    forall i :: 0 <= i < |ops| ==> !ops[i].PublishOp?
  }

  /** An attempt that has not published: where it stands, with the index as the others left it. */
  lemma {:induction false} TryStands(start: Db, u: Upload, ts: seq<Tick>)
    requires u.Valid() && Importable(u) && BetweenTries(start, u) && IsTry(start, u, ts) && NoPublish(OwnOps(ts))
    ensures Stands(start, Ran(start, ts), u, OwnOps(ts)) && Ran(start, ts).members == Theirs(start.members, ts)
  {
    if ts == [] {
      TryStarts(start, u);
    } else {
      var before, t := ts[..|ts| - 1], ts[|ts| - 1];
      assert OwnOps(before) <= OwnOps(ts);
      assert forall i :: 0 <= i < |OwnOps(before)| ==> OwnOps(before)[i] == OwnOps(ts)[i];
      TryStands(start, u, before);
      if t.Own? {
        assert OwnOps(ts)[|OwnOps(before)|] == t.op;
        OwnKeepsStanding(start, Ran(start, before), u, OwnOps(before), t.op);
      } else {
        assert OwnOps(before) + [] == OwnOps(before);
        OthersKeepStanding(start, Ran(start, before), u, OwnOps(before), t.what);
      }
    }
  }

  lemma StandsBetween(start: Db, db: Db, u: Upload, done: seq<Op>)
    requires Stands(start, db, u, done)
    ensures BetweenTries(db, u)
  {
  }

  /** Only the last transaction of a plan publishes. */
  lemma PublishIsLast(db: Db, u: Upload, ops: seq<Op>)
    requires Importable(u) && BetweenTries(db, u) && ops <= Plan(db, u) && ops != Plan(db, u)
    ensures NoPublish(ops)
  {
    if !IsReady(db) {
      PlanSplits(db, u);
      LoadOpsFacts(u.chunks);
      LoadsPublishNothing(LoadOps(u.chunks));
      ReadyThenPublish(LoadOps(u.chunks), MarkReady(u.Totals()), PublishOp(u.id, u.Totals()), ops);
    }
  }

  lemma ReadyThenPublish(load: seq<Op>, ready: Op, publish: Op, ops: seq<Op>)
    requires NoPublish(load) && !ready.PublishOp? && ops <= load + [ready, publish] && ops != load + [ready, publish]
    ensures NoPublish(ops)
  {
    forall i | 0 <= i < |ops| ensures !ops[i].PublishOp? {
      assert ops[i] == (load + [ready, publish])[i];
    }
  }

  lemma {:induction false} LoadsPublishNothing(ops: seq<Op>)
    requires Loads(ops)
    ensures NoPublish(ops)
  {
    if ops != [] {
      LoadsPublishNothing(ops[..|ops| - 1]);
      assert forall i :: 0 <= i < |ops| - 1 ==> ops[i] == ops[..|ops| - 1][i];
    }
  }

  /** Any number of attempts that died: the next one finds the stores in order, and nothing of the file is published. */
  lemma {:induction false} TriesStand(db: Db, u: Upload, tries: seq<seq<Tick>>)
    requires u.Valid() && Importable(u) && Untouched(db) && AreTries(db, u, tries)
    requires AfterAll(db, tries).record.status != Complete
    ensures BetweenTries(AfterAll(db, tries), u) && AfterAll(db, tries).members == TheirsAfterAll(db.members, tries)
  {
    if tries != [] {
      var before, ts := tries[..|tries| - 1], tries[|tries| - 1];
      var start := AfterAll(db, before);
      StaysComplete(start, u, ts);
      TriesStand(db, u, before);
      if OwnOps(ts) == Plan(start, u) {
        FullTryCompletes(start, u, ts);
      } else {
        PublishIsLast(start, u, OwnOps(ts));
        TryStands(start, u, ts);
        StandsBetween(start, Ran(start, ts), u, OwnOps(ts));
      }
    }
  }

  /** A finished import is left alone, whatever happens later. */
  lemma {:induction false} StaysComplete(start: Db, u: Upload, ts: seq<Tick>)
    requires IsTry(start, u, ts)
    ensures start.record.status == Complete ==>
      var e := Ran(start, ts);
      && e.rows == start.rows && e.record == start.record && e.remote == start.remote
      && e.members == Theirs(start.members, ts) && Extends(start.registry, e.registry)
  {
    if start.record.status == Complete && ts != [] {
      var before, t := ts[..|ts| - 1], ts[|ts| - 1];
      assert OwnOps(before) <= OwnOps(ts) && OwnOps(ts) == [];
      StaysComplete(start, u, before);
      assert t.Other?;
      if t.what.OthersRegister? {
        RegisterAllFacts(Ran(start, before).registry, t.what.ks);
      }
    }
  }

  /** The last own transaction of a full attempt, and what came after it. */
  lemma {:induction false} SplitLast(ts: seq<Tick>) returns (k: nat)
    requires OwnOps(ts) != []
    ensures k < |ts| && ts[k].Own? && OwnOps(ts[..k]) + [ts[k].op] == OwnOps(ts) == OwnOps(ts[..k + 1])
    ensures forall i :: k < i < |ts| ==> ts[i].Other?
  {
    var n := |ts| - 1;
    if ts[n].Own? {
      k := n;
      assert ts[..n + 1] == ts;
    } else {
      k := SplitLast(ts[..n]);
      assert ts[..n][..k] == ts[..k] && ts[..n][..k + 1] == ts[..k + 1];
    }
  }

  /** The state right after the import published, from the state right before. */
  ghost predicate PublishedAt(before: Db, db: Db, u: Upload) {
    && ReadyAt(before, u) && db == Apply(before, PublishOp(u.id, u.Totals()))
  }

  /** The Leads a file is listed under. */
  function LeadsOf(rows: map<Phone, Listing>): set<LeadId> {
    set p | p in rows :: rows[p].lead
  }

  lemma PublishedMembers(before: Db, db: Db, u: Upload)
    requires PublishedAt(before, db, u)
    ensures db.rows == before.rows && db.registry == before.registry && db.record.status == Complete
    ensures db.members == Taken(before.members, LeadsOf(db.rows), u.id) && db.record.progress == u.Totals()
  {
  }

  lemma PublishTick(start: Db, u: Upload, ts: seq<Tick>, k: nat)
    requires u.Valid() && Importable(u) && BetweenTries(start, u) && k < |ts| && ts[k].Own?
    requires OwnOps(ts[..k]) + [ts[k].op] == Plan(start, u)
    ensures PublishedAt(Ran(start, ts[..k]), Ran(start, ts[..k + 1]), u)
    ensures Ran(start, ts[..k]).members == Theirs(start.members, ts[..k])
  {
    var plan := Plan(start, u);
    var done := OwnOps(ts[..k]);
    assert done <= plan && |done| == |plan| - 1 && plan[|done|] == ts[k].op;
    PublishIsLast(start, u, done);
    TryStands(start, u, ts[..k]);
    assert ts[..k + 1][..k] == ts[..k];
    if !IsReady(start) {
      PlanSplits(start, u);
    }
  }

  lemma {:induction false} OthersOnly(db: Db, ts: seq<Tick>, k: nat)
    requires k <= |ts| && forall i :: k <= i < |ts| ==> ts[i].Other?
    ensures Ran(db, ts).record == Ran(db, ts[..k]).record
  {
    if k == |ts| {
      assert ts[..k] == ts;
    } else {
      var init := ts[..|ts| - 1];
      OthersOnly(db, init, k);
      assert init[..k] == ts[..k];
    }
  }

  lemma FullTryCompletes(start: Db, u: Upload, ts: seq<Tick>)
    requires u.Valid() && Importable(u) && BetweenTries(start, u) && OwnOps(ts) == Plan(start, u)
    ensures Ran(start, ts).record.status == Complete
  {
    if !IsReady(start) {
      PlanSplits(start, u);
    }
    var k := SplitLast(ts);
    PublishTick(start, u, ts, k);
    PublishedMembers(Ran(start, ts[..k]), Ran(start, ts[..k + 1]), u);
    OthersOnly(start, ts, k + 1);
  }

  // ---------------------------------------------------------------------
  // The result
  // ---------------------------------------------------------------------

  /**
   What a publication among others leaves: the file's last rows served, every other Lead as its
   own upload left it, and counts that add up.
   */
  ghost predicate ServesFile(db: Db, theirs: map<LeadId, nat>, u: Upload) {
    var ks := KeptRows(u.raw);
    && db.rows == Listings(db.registry, ks)
    && db.members == Taken(theirs, LeadsOf(db.rows), u.id)
    && (forall p :: p in PhonesOf(ks) ==> p in db.registry.ids && p in db.rows && db.rows[p].lead == db.registry.ids[p])
    && db.record.status == Complete && db.record.progress == u.Totals()
    && db.record.imported + db.record.updated == |PhonesOf(ks)| && db.record.imported >= 0
    && db.record.imported + db.record.updated + db.record.duplicates + db.record.progress.rejected == |u.raw|
  }

  lemma ListedUnderOwnId(g: Registry, ks: seq<Kept>, p: Phone)
    requires Knows(g, ks) && p in PhonesOf(ks)
    ensures p in g.ids && p in Listings(g, ks) && Listings(g, ks)[p].lead == g.ids[p]
  {
    UniqueFacts(ks);
    ListingKeys(g, ks);
    var i :| 0 <= i < |ks| && ks[i].phone == p;
    assert ks[i].phone in g.ids;
  }

  lemma ListedSize(g: Registry, ks: seq<Kept>, rows: map<Phone, Listing>)
    requires rows == Listings(g, ks)
    ensures |rows| == |PhonesOf(ks)|
  {
    ListingKeys(g, ks);
    assert |rows| == |rows.Keys|;
  }

  lemma CountsOf(before: Db, record: Record, id: nat, t: Progress, total: nat)
    requires OneLeadEach(before.rows) && |before.rows| == total && record == Published(before, id, t).record
    ensures record.imported + record.updated == total && record.imported >= 0 && record.duplicates == t.valid - total
  {
    PublishCounts(before, id, t);
  }

  lemma PublishedCounts(before: Db, db: Db, u: Upload)
    requires PublishedAt(before, db, u)
    ensures var phones := PhonesOf(KeptRows(u.raw));
      && db.record.imported + db.record.updated == |phones| && db.record.imported >= 0
      && db.record.duplicates == u.Totals().valid - |phones|
  {
    ListedSize(before.registry, KeptRows(u.raw), before.rows);
    LeadsInjective(before.registry, KeptRows(u.raw));
    CountsOf(before, db.record, u.id, u.Totals(), |PhonesOf(KeptRows(u.raw))|);
  }

  lemma PublishedServes(before: Db, db: Db, u: Upload)
    requires PublishedAt(before, db, u)
    ensures ServesFile(db, before.members, u)
  {
    var g, ks := before.registry, KeptRows(u.raw);
    PublishedMembers(before, db, u);
    PublishedCounts(before, db, u);
    forall p | p in PhonesOf(ks) ensures p in g.ids && p in Listings(g, ks) && Listings(g, ks)[p].lead == g.ids[p] {
      ListedUnderOwnId(g, ks, p);
    }
  }

  /**
   After any number of attempts cut short at any transaction, with other uploads
   registering and publishing in between, even between two transactions of one
   attempt, the attempt that publishes serves exactly this file's last rows under
   their own endpoints and leaves every other Lead where its own upload put it.
   */
  lemma InterleavedRetriesServe(db: Db, u: Upload, tries: seq<seq<Tick>>, ts: seq<Tick>)
    requires u.Valid() && Importable(u) && Untouched(db) && AreTries(db, u, tries)
    requires AfterAll(db, tries).record.status != Complete
    requires ts != [] && ts[|ts| - 1].Own? && OwnOps(ts) == Plan(AfterAll(db, tries), u)
    ensures ServesFile(Ran(AfterAll(db, tries), ts), Theirs(TheirsAfterAll(db.members, tries), ts), u)
  {
    var start, n := AfterAll(db, tries), |ts| - 1;
    TriesStand(db, u, tries);
    PublishTick(start, u, ts, n);
    assert ts[..n + 1] == ts;
    PublishedServes(Ran(start, ts[..n]), Ran(start, ts), u);
  }

  /** In particular the last valid row of each phone is what its Lead is served from. */
  lemma LastRowServesTogether(db: Db, theirs: map<LeadId, nat>, u: Upload, i: nat)
    requires ServesFile(db, theirs, u) && i < |KeptRows(u.raw)|
    requires forall j :: i < j < |KeptRows(u.raw)| ==> KeptRows(u.raw)[j].phone != KeptRows(u.raw)[i].phone
    ensures var k := KeptRows(u.raw)[i];
      && k.phone in db.rows && db.rows[k.phone].title == k.title && db.rows[k.phone].number == k.number
      && db.rows[k.phone].lead in db.members && db.members[db.rows[k.phone].lead] == u.id
  {
    UniqueIsLast(KeptRows(u.raw), i);
    assert KeptRows(u.raw)[i].phone in db.rows;
    assert db.rows[KeptRows(u.raw)[i].phone].lead in LeadsOf(db.rows);
  }

  /** Until then nothing of the file is published. */
  lemma NothingPublishedYet(db: Db, u: Upload, tries: seq<seq<Tick>>, l: LeadId)
    requires u.Valid() && Importable(u) && Untouched(db) && AreTries(db, u, tries)
    requires AfterAll(db, tries).record.status != Complete
    ensures l in AfterAll(db, tries).members <==> l in TheirsAfterAll(db.members, tries)
    ensures l in AfterAll(db, tries).members ==> AfterAll(db, tries).members[l] == TheirsAfterAll(db.members, tries)[l]
  {
    TriesStand(db, u, tries);
  }
}
