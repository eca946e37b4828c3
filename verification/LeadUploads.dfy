/**
 CSV uploads into DB2 (jawnix/lead_uploads.py): streaming chunks, one
 transaction per store per chunk, and a single publication at the end. A worker
 may die between any two transactions and the job is then run again from the
 file.
 */
module LeadUploads {
  import opened Basics

  type Phone = nat
  type LeadId = nat

  const CHUNK_ROWS := 5000
  const CHUNK_BYTES := 8 * 1024 * 1024

  /** One parsed CSV row: its normalized phone if it has one, its title, and the title's encoded size. */
  datatype RawRow = RawRow(phone: Option<Phone>, title: string, nullByte: bool, bytes: nat)

  /** A valid row with its line number and the encoded size of its title. */
  datatype Kept = Kept(phone: Phone, title: string, number: nat, bytes: nat)

  /** A chunk and the progress counters at the moment it is yielded. */
  datatype Progress = Progress(processed: nat, valid: nat, rejected: nat)
  datatype Chunk = Chunk(rows: seq<Kept>, progress: Progress)

  predicate RowOk(row: RawRow) {
    row.phone.Some? && !row.nullByte
  }

  /** The valid rows among the first rows of a file; data starts on line 2. */
  function KeptRows(raw: seq<RawRow>): (ks: seq<Kept>)
    ensures |ks| <= |raw|
  {
    if raw == [] then []
    else
      var last := raw[|raw| - 1];
      KeptRows(raw[..|raw| - 1]) + KeptOf(last, |raw| + 1)
  }

  function ProgressOf(raw: seq<RawRow>): Progress {
    Progress(|raw|, |KeptRows(raw)|, |raw| - |KeptRows(raw)|)
  }

  function Concat(chunks: seq<Chunk>): seq<Kept> {
    if chunks == [] then [] else Concat(chunks[..|chunks| - 1]) + chunks[|chunks| - 1].rows
  }

  /** What a chunk weighs: its titles and 32 bytes a row. */
  function Weight(rows: seq<Kept>): nat {
    if rows == [] then 0 else Weight(rows[..|rows| - 1]) + rows[|rows| - 1].bytes + 32
  }

  /** At most the row bound, and under the byte bound but for its last row. */
  predicate Fits(rows: seq<Kept>) {
    |rows| <= CHUNK_ROWS && (rows != [] ==> Weight(rows[..|rows| - 1]) < CHUNK_BYTES)
  }

  /** The chunks are the file's valid rows in order, each within its bounds, and end with the file's totals. */
  ghost predicate IsChunking(chunks: seq<Chunk>, raw: seq<RawRow>) {
    && Concat(chunks) == KeptRows(raw)
    && (forall i :: 0 <= i < |chunks| ==> Fits(chunks[i].rows))
    && (raw == [] ==> chunks == [])
    && (raw != [] ==> chunks != [] && chunks[|chunks| - 1].progress == ProgressOf(raw))
  }

  function KeptOf(row: RawRow, number: nat): seq<Kept> {
    if RowOk(row) then [Kept(row.phone.value, row.title, number, row.bytes)] else []
  }

  lemma KeptNext(raw: seq<RawRow>, i: nat)
    requires i < |raw|
    ensures KeptRows(raw[..i + 1]) == KeptRows(raw[..i]) + KeptOf(raw[i], i + 2)
  {
    assert raw[..i + 1][..i] == raw[..i];
  }

  /** Chunks yielded so far and the rows still waiting are the valid rows read. */
  ghost predicate Reading(chunks: seq<Chunk>, rows: seq<Kept>, kept: seq<Kept>) {
    && Concat(chunks) + rows == kept
    && Fits(rows)
    && forall k :: 0 <= k < |chunks| ==> Fits(chunks[k].rows)
  }

  /** Room for one more row. */
  predicate HasRoom(rows: seq<Kept>, size: nat) {
    |rows| < CHUNK_ROWS && size < CHUNK_BYTES && size == Weight(rows)
  }

  lemma ReadRow(chunks: seq<Chunk>, rows: seq<Kept>, kept: seq<Kept>, row: Kept, size: nat)
    requires Reading(chunks, rows, kept) && HasRoom(rows, size)
    ensures Reading(chunks, rows + [row], kept + [row]) && Weight(rows + [row]) == size + row.bytes + 32
  {
    assert (rows + [row])[..|rows|] == rows;
    assert Concat(chunks) + (rows + [row]) == Concat(chunks) + rows + [row];
  }

  lemma Yield(chunks: seq<Chunk>, rows: seq<Kept>, kept: seq<Kept>, progress: Progress)
    requires Reading(chunks, rows, kept)
    ensures Reading(chunks + [Chunk(rows, progress)], [], kept)
  {
    var all := chunks + [Chunk(rows, progress)];
    assert all[..|chunks|] == chunks;
    assert Concat(all) == Concat(chunks) + rows;
  }

  /** Nothing is waiting, and the last chunk carries the counters. */
  ghost predicate Flushed(chunks: seq<Chunk>, rows: seq<Kept>, progress: Progress) {
    rows == [] && chunks != [] && chunks[|chunks| - 1].progress == progress
  }

  /** Where the reader stands after `i` rows. */
  ghost predicate ReadSoFar(raw: seq<RawRow>, i: nat, chunks: seq<Chunk>, rows: seq<Kept>, size: nat,
                            progress: Progress) {
    && i <= |raw| && progress == ProgressOf(raw[..i])
    && Reading(chunks, rows, KeptRows(raw[..i])) && HasRoom(rows, size)
    && ReportedAt(i, chunks, rows, progress)
  }

  /** Every so many rows the counters have gone out with a chunk. */
  ghost predicate ReportedAt(i: nat, chunks: seq<Chunk>, rows: seq<Kept>, progress: Progress) {
    if i == 0 then chunks == [] && rows == [] else i % CHUNK_ROWS == 0 ==> Flushed(chunks, rows, progress)
  }

  /** `csv_chunks`, over rows the CSV reader has already parsed. */
  method CsvChunks(raw: seq<RawRow>) returns (chunks: seq<Chunk>, progress: Progress)
    ensures IsChunking(chunks, raw)
    ensures progress == ProgressOf(raw)
    ensures progress.valid + progress.rejected == progress.processed
  {
    var rows, size;
    chunks, rows, size, progress := ReadAll(raw);
    ReadEverything(raw, chunks, rows, size, progress);
    chunks := FlushRest(chunks, rows, progress, raw);
  }

  /** The loop over the rows. */
  method ReadAll(raw: seq<RawRow>) returns (chunks: seq<Chunk>, rows: seq<Kept>, size: nat, progress: Progress)
    ensures ReadSoFar(raw, |raw|, chunks, rows, size, progress)
  {
    chunks, rows, size, progress := [], [], 0, Progress(0, 0, 0);
    ReadNothing(raw);
    for i := 0 to |raw|
      invariant ReadSoFar(raw, i, chunks, rows, size, progress)
    {
      chunks, rows, size, progress := NextRow(raw, i, chunks, rows, size, progress);
    }
  }

  lemma ReadNothing(raw: seq<RawRow>)
    ensures ReadSoFar(raw, 0, [], [], 0, Progress(0, 0, 0))
  {
    assert raw[..0] == [];
  }

  lemma ReadEverything(raw: seq<RawRow>, chunks: seq<Chunk>, rows: seq<Kept>, size: nat, progress: Progress)
    requires ReadSoFar(raw, |raw|, chunks, rows, size, progress)
    ensures Reading(chunks, rows, KeptRows(raw)) && progress == ProgressOf(raw)
    ensures ReportedAt(|raw|, chunks, rows, progress)
  {
    assert raw[..|raw|] == raw;
  }

  /** One iteration of the reader. */
  method NextRow(raw: seq<RawRow>, i: nat, chunks: seq<Chunk>, rows: seq<Kept>, size: nat, progress: Progress)
    returns (after: seq<Chunk>, left: seq<Kept>, weight: nat, now: Progress)
    requires i < |raw| && ReadSoFar(raw, i, chunks, rows, size, progress)
    ensures ReadSoFar(raw, i + 1, after, left, weight, now)
  {
    KeptNext(raw, i);
    ghost var kept := KeptRows(raw[..i + 1]);
    var waiting;
    now, waiting, weight := ReadOne(raw[i], i, progress, rows, size, chunks, KeptRows(raw[..i]));
    assert now == ProgressOf(raw[..i + 1]);
    after, left, weight := FlushIfDue(chunks, waiting, weight, now, kept);
  }

  /** The rows waiting at the end of the file. */
  method FlushRest(chunks: seq<Chunk>, rows: seq<Kept>, progress: Progress, ghost raw: seq<RawRow>)
    returns (all: seq<Chunk>)
    requires Reading(chunks, rows, KeptRows(raw)) && progress == ProgressOf(raw)
    requires ReportedAt(|raw|, chunks, rows, progress)
    ensures IsChunking(all, raw)
  {
    all := chunks;
    if rows != [] || progress.processed % CHUNK_ROWS != 0 {
      Yield(chunks, rows, KeptRows(raw), progress);
      all := chunks + [Chunk(rows, progress)];
    }
  }

  /** Yields the waiting rows when they fill a chunk, and in any case every so many rows read. */
  method FlushIfDue(chunks: seq<Chunk>, rows: seq<Kept>, size: nat, progress: Progress, ghost kept: seq<Kept>)
    returns (after: seq<Chunk>, left: seq<Kept>, weight: nat)
    requires Reading(chunks, rows, kept) && size == Weight(rows)
    ensures Reading(after, left, kept) && HasRoom(left, weight)
    ensures progress.processed % CHUNK_ROWS == 0 ==> Flushed(after, left, progress)
  {
    var due := |rows| >= CHUNK_ROWS || size >= CHUNK_BYTES || progress.processed % CHUNK_ROWS == 0;
    after, left, weight := chunks, rows, size;
    if due {
      Yield(chunks, rows, kept, progress);
      after, left, weight := chunks + [Chunk(rows, progress)], [], 0;
    }
  }

  /** One row: counted, and kept if it is valid. */
  method ReadOne(row: RawRow, i: nat, before: Progress, kept: seq<Kept>, weight: nat, ghost chunks: seq<Chunk>,
                 ghost all: seq<Kept>)
    returns (progress: Progress, rows: seq<Kept>, size: nat)
    requires Reading(chunks, kept, all) && HasRoom(kept, weight)
    ensures Reading(chunks, rows, all + KeptOf(row, i + 2)) && size == Weight(rows)
    ensures progress.processed == before.processed + 1
    ensures if RowOk(row) then progress.valid == before.valid + 1 && progress.rejected == before.rejected
            else progress.valid == before.valid && progress.rejected == before.rejected + 1
  {
    progress, rows, size := before.(processed := before.processed + 1), kept, weight;
    if !RowOk(row) {
      progress := progress.(rejected := progress.rejected + 1);
      assert all + KeptOf(row, i + 2) == all;
    } else {
      progress := progress.(valid := progress.valid + 1);
      var next := Kept(row.phone.value, row.title, i + 2, row.bytes);
      ReadRow(chunks, rows, all, next, size);
      rows := rows + [next];
      size := size + row.bytes + 32;
    }
  }

  // ---------------------------------------------------------------------
  // The stores
  // ---------------------------------------------------------------------

  /** Canonical endpoints: every phone ever seen has one Lead id. */
  datatype Registry = Registry(ids: map<Phone, LeadId>, next: LeadId)

  /** A DB2 listing of this upload; the pair of upload and Lead is its key. */
  datatype Listing = Listing(lead: LeadId, title: string, number: nat)

  datatype RemoteStatus = Loading | Ready
  datatype Remote = Remote(status: RemoteStatus, progress: Progress)

  datatype UploadStatus = Waiting | Working | Complete | Rejected
  datatype Record = Record(status: UploadStatus, progress: Progress, imported: int, updated: nat, duplicates: int)

  /** `members` is the DB2 eligibility index: the upload each Lead is served from. */
  datatype Db = Db(
    registry: Registry,
    rows: map<Phone, Listing>,
    remote: Option<Remote>,
    members: map<LeadId, nat>,
    record: Record)

  /** The upload being imported. `readable` covers its checksum and its phone column. */
  datatype Upload = Upload(id: nat, raw: seq<RawRow>, chunks: seq<Chunk>, readable: bool) {
    ghost predicate Valid() {
      IsChunking(chunks, raw)
    }

    function Totals(): Progress {
      ProgressOf(raw)
    }
  }

  function Register(g: Registry, p: Phone): Registry {
    if p in g.ids then g else Registry(g.ids[p := g.next], g.next + 1)
  }

  /** `_canonical_ids`: INSERT ... ON CONFLICT DO NOTHING for a chunk's phones. */
  function RegisterAll(g: Registry, ks: seq<Kept>): Registry {
    if ks == [] then g else Register(RegisterAll(g, ks[..|ks| - 1]), ks[|ks| - 1].phone)
  }

  function IdOf(g: Registry, p: Phone): LeadId {
    if p in g.ids then g.ids[p] else 0
  }

  function ListingOf(g: Registry, k: Kept): Listing {
    Listing(IdOf(g, k.phone), k.title, k.number)
  }

  /** `{row[0]: row for row in rows}`: the last row of each phone of a chunk. */
  function Unique(ks: seq<Kept>): map<Phone, Kept> {
    if ks == [] then map[] else Unique(ks[..|ks| - 1])[ks[|ks| - 1].phone := ks[|ks| - 1]]
  }

  /** ON CONFLICT DO UPDATE with the chunk's unique rows. */
  function UpsertChunk(rows: map<Phone, Listing>, g: Registry, ks: seq<Kept>): map<Phone, Listing> {
    rows + map p | p in Unique(ks) :: ListingOf(g, Unique(ks)[p])
  }

  /** `_publish`: the index takes every listing over; the counts say how. */
  function Published(db: Db, id: nat, t: Progress): Db {
    var leads := set p | p in db.rows :: db.rows[p].lead;
    var total := |db.rows|;
    var updated := |leads * db.members.Keys|;
    db.(members := db.members + map l | l in leads :: id,
        record := Record(Complete, t, total - updated, updated, t.valid - total))
  }

  // ---------------------------------------------------------------------
  // Transactions
  // ---------------------------------------------------------------------

  datatype Op =
    | MarkWorking
    | OpenRemote
    | RegisterOp(chunk: Chunk)
    | UpsertOp(chunk: Chunk)
    | NoteOp(chunk: Chunk)
    | MarkReady(totals: Progress)
    | PublishOp(id: nat, totals: Progress)
    | FailOp(totals: Progress)

  function Apply(db: Db, op: Op): Db {
    match op
    case MarkWorking => db.(record := db.record.(status := Working))
    case OpenRemote => if db.remote.Some? then db else db.(remote := Some(Remote(Loading, Progress(0, 0, 0))))
    case RegisterOp(c) => db.(registry := RegisterAll(db.registry, c.rows))
    case UpsertOp(c) =>
      db.(rows := UpsertChunk(db.rows, db.registry, c.rows),
          remote := if db.remote.Some? then Some(db.remote.value.(progress := c.progress)) else None)
    case NoteOp(c) => db.(record := db.record.(progress := c.progress))
    case MarkReady(t) => db.(remote := Some(Remote(Ready, t)))
    case PublishOp(id, t) => Published(db, id, t)
    case FailOp(t) => db.(record := db.record.(status := Rejected, progress := t))
  }

  function RunOps(db: Db, ops: seq<Op>): Db {
    if ops == [] then db else Apply(RunOps(db, ops[..|ops| - 1]), ops[|ops| - 1])
  }

  /** The three transactions of each chunk, in order. */
  function ChunkOps(chunks: seq<Chunk>): seq<Op> {
    if chunks == [] then []
    else
      var c := chunks[|chunks| - 1];
      ChunkOps(chunks[..|chunks| - 1]) + [RegisterOp(c), UpsertOp(c), NoteOp(c)]
  }

  predicate Importable(u: Upload) {
    u.readable && u.Totals().processed > 0 && u.Totals().valid > 0
  }

  /** What `import_lead_upload` commits, from the state it starts in. */
  function Plan(db: Db, u: Upload): seq<Op> {
    if db.record.status == Complete then []
    else if db.remote.Some? && db.remote.value.status == Ready then
      [MarkWorking, PublishOp(u.id, db.remote.value.progress)]
    else if !u.readable then [MarkWorking, OpenRemote, FailOp(Progress(0, 0, 0))]
    else [MarkWorking, OpenRemote] + ChunkOps(u.chunks) +
         (if Importable(u) then [MarkReady(u.Totals()), PublishOp(u.id, u.Totals())] else [FailOp(u.Totals())])
  }

  /** A run that dies after `cut` transactions, or finishes first. */
  function Attempt(db: Db, u: Upload, cut: nat): Db {
    var plan := Plan(db, u);
    RunOps(db, if cut < |plan| then plan[..cut] else plan)
  }

  function Full(db: Db, u: Upload): Db {
    RunOps(db, Plan(db, u))
  }

  function Attempts(db: Db, u: Upload, cuts: seq<nat>): Db {
    if cuts == [] then db else Attempt(Attempts(db, u, cuts[..|cuts| - 1]), u, cuts[|cuts| - 1])
  }

  // ---------------------------------------------------------------------
  // Registering and upserting twice is doing it once
  // ---------------------------------------------------------------------

  /** `h` knows every phone `g` knows, under the same id. */
  ghost predicate Extends(g: Registry, h: Registry) {
    forall p :: p in g.ids ==> p in h.ids && h.ids[p] == g.ids[p]
  }

  ghost predicate Knows(g: Registry, ks: seq<Kept>) {
    forall i :: 0 <= i < |ks| ==> ks[i].phone in g.ids
  }

  lemma {:induction false} RegisterAllFacts(g: Registry, ks: seq<Kept>)
    ensures Extends(g, RegisterAll(g, ks)) && Knows(RegisterAll(g, ks), ks)
  {
    if ks != [] {
      RegisterAllFacts(g, ks[..|ks| - 1]);
    }
  }

  lemma {:induction false} RegisterConcat(g: Registry, a: seq<Kept>, b: seq<Kept>)
    ensures RegisterAll(g, a + b) == RegisterAll(RegisterAll(g, a), b)
  {
    if b == [] {
      assert a + b == a;
    } else {
      assert (a + b)[..|a + b| - 1] == a + b[..|b| - 1];
      RegisterConcat(g, a, b[..|b| - 1]);
    }
  }

  lemma {:induction false} RegisterKnown(g: Registry, ks: seq<Kept>)
    requires Knows(g, ks)
    ensures RegisterAll(g, ks) == g
  {
    if ks != [] {
      assert ks[|ks| - 1].phone in g.ids;
      assert Knows(g, ks[..|ks| - 1]);
      RegisterKnown(g, ks[..|ks| - 1]);
    }
  }

  /** Registering a prefix first changes nothing. */
  lemma RegisterAbsorbs(g: Registry, ks: seq<Kept>, n: nat)
    requires n <= |ks|
    ensures RegisterAll(RegisterAll(g, ks[..n]), ks) == RegisterAll(g, ks)
  {
    var h := RegisterAll(g, ks[..n]);
    assert ks == ks[..n] + ks[n..];
    RegisterConcat(g, ks[..n], ks[n..]);
    RegisterConcat(h, ks[..n], ks[n..]);
    RegisterAllFacts(g, ks[..n]);
    RegisterKnown(h, ks[..n]);
  }

  lemma {:induction false} UniqueFacts(ks: seq<Kept>)
    ensures forall p :: p in Unique(ks) ==> Unique(ks)[p].phone == p && Unique(ks)[p] in ks
    ensures forall i :: 0 <= i < |ks| ==> ks[i].phone in Unique(ks)
  {
    if ks != [] {
      UniqueFacts(ks[..|ks| - 1]);
    }
  }

  /** Each phone keeps its last row. */
  lemma {:induction false} UniqueIsLast(ks: seq<Kept>, i: nat)
    requires i < |ks| && forall j :: i < j < |ks| ==> ks[j].phone != ks[i].phone
    ensures ks[i].phone in Unique(ks) && Unique(ks)[ks[i].phone] == ks[i]
  {
    if i < |ks| - 1 {
      assert ks[|ks| - 1].phone != ks[i].phone;
      UniqueIsLast(ks[..|ks| - 1], i);
    }
  }

  lemma {:induction false} UniqueConcat(a: seq<Kept>, b: seq<Kept>)
    ensures Unique(a + b) == Unique(a) + Unique(b)
  {
    if b == [] {
      assert a + b == a;
    } else {
      assert (a + b)[..|a + b| - 1] == a + b[..|b| - 1];
      UniqueConcat(a, b[..|b| - 1]);
    }
  }

  function Listings(g: Registry, ks: seq<Kept>): map<Phone, Listing> {
    map p | p in Unique(ks) :: ListingOf(g, Unique(ks)[p])
  }

  lemma MergeAssociates<K, V>(a: map<K, V>, b: map<K, V>, c: map<K, V>)
    ensures (a + b) + c == a + (b + c)
  {
  }

  lemma MergeAbsorbs<K, V>(a: map<K, V>, b: map<K, V>, c: map<K, V>)
    requires b.Keys <= c.Keys
    ensures (a + b) + c == a + c
  {
  }

  lemma ListingsConcat(g: Registry, a: seq<Kept>, b: seq<Kept>)
    ensures Listings(g, a + b) == Listings(g, a) + Listings(g, b)
  {
    UniqueConcat(a, b);
  }

  lemma SameListings(g: Registry, h: Registry, ks: seq<Kept>)
    requires Knows(g, ks) && Extends(g, h)
    ensures Listings(g, ks) == Listings(h, ks)
  {
    UniqueFacts(ks);
    forall p | p in Unique(ks) ensures IdOf(g, Unique(ks)[p].phone) == IdOf(h, Unique(ks)[p].phone) {
      var i :| 0 <= i < |ks| && ks[i] == Unique(ks)[p];
      assert ks[i].phone in g.ids;
    }
  }

  /** Upserting chunk by chunk is upserting the whole at once, under any later registry. */
  lemma UpsertConcat(rows: map<Phone, Listing>, g: Registry, h: Registry, a: seq<Kept>, b: seq<Kept>)
    requires Knows(g, b) && Extends(g, h)
    ensures UpsertChunk(rows + Listings(h, a), g, b) == rows + Listings(h, a + b)
  {
    SameListings(g, h, b);
    ListingsConcat(h, a, b);
    MergeAssociates(rows, Listings(h, a), Listings(h, b));
    assert UpsertChunk(rows + Listings(h, a), g, b) == (rows + Listings(h, a)) + Listings(g, b);
  }

  /** Upserting a prefix first changes nothing. */
  lemma UpsertAbsorbs(rows: map<Phone, Listing>, g: Registry, ks: seq<Kept>, n: nat)
    requires n <= |ks|
    ensures (rows + Listings(g, ks[..n])) + Listings(g, ks) == rows + Listings(g, ks)
  {
    assert ks == ks[..n] + ks[n..];
    ListingsConcat(g, ks[..n], ks[n..]);
    MergeAbsorbs(rows, Listings(g, ks[..n]), Listings(g, ks));
  }

  // ---------------------------------------------------------------------
  // What a prefix of the transactions leaves
  // ---------------------------------------------------------------------

  function Registered(ops: seq<Op>): seq<Kept> {
    if ops == [] then []
    else Registered(ops[..|ops| - 1]) + (if ops[|ops| - 1].RegisterOp? then ops[|ops| - 1].chunk.rows else [])
  }

  function Upserted(ops: seq<Op>): seq<Kept> {
    if ops == [] then []
    else Upserted(ops[..|ops| - 1]) + (if ops[|ops| - 1].UpsertOp? then ops[|ops| - 1].chunk.rows else [])
  }

  /** Every chunk is registered right before it is upserted, and nothing is published. */
  ghost predicate Loads(ops: seq<Op>) {
    ops != [] ==>
      var n := |ops| - 1;
      && Loads(ops[..n])
      && !ops[n].PublishOp? && !ops[n].FailOp? && !ops[n].MarkReady?
      && (ops[n].UpsertOp? ==> n > 0 && ops[n - 1] == RegisterOp(ops[n].chunk))
  }

  lemma {:induction false} RunRegistry(db: Db, ops: seq<Op>)
    ensures RunOps(db, ops).registry == RegisterAll(db.registry, Registered(ops))
  {
    if ops != [] {
      var init, op := ops[..|ops| - 1], ops[|ops| - 1];
      RunRegistry(db, init);
      if op.RegisterOp? {
        RegisterConcat(db.registry, Registered(init), op.chunk.rows);
      } else {
        assert Registered(init) + [] == Registered(init);
      }
    }
  }

  lemma {:induction false} RunRows(db: Db, ops: seq<Op>, g: Registry)
    requires Loads(ops) && Extends(RunOps(db, ops).registry, g)
    ensures RunOps(db, ops).rows == db.rows + Listings(g, Upserted(ops))
  {
    if ops == [] {
      assert db.rows + map[] == db.rows;
    } else {
      var n := |ops| - 1;
      var init, op := ops[..n], ops[n];
      var mid := RunOps(db, init);
      assert Extends(mid.registry, g) by {
        if op.RegisterOp? {
          RegisterAllFacts(mid.registry, op.chunk.rows);
        }
      }
      RunRows(db, init, g);
      if op.UpsertOp? {
        assert ops[n - 1] == RegisterOp(op.chunk);
        assert init[n - 1] == ops[n - 1];
        RegisterAllFacts(RunOps(db, init[..n - 1]).registry, op.chunk.rows);
        UpsertConcat(db.rows, mid.registry, g, Upserted(init), op.chunk.rows);
      } else {
        assert Upserted(init) + [] == Upserted(init);
      }
    }
  }

  /** The stores a load does not touch, and the status it keeps. */
  lemma {:induction false} RunKeeps(db: Db, ops: seq<Op>)
    requires Loads(ops)
    ensures var e := RunOps(db, ops);
      && e.members == db.members
      && (db.record.status != Complete ==> e.record.status != Complete)
      && e.record.imported == db.record.imported && e.record.updated == db.record.updated
      && e.record.duplicates == db.record.duplicates
      && (e.remote.Some? && e.remote.value.status == Ready ==> db.remote.Some? && db.remote.value.status == Ready)
      && (db.remote.Some? ==> e.remote.Some?)
  {
    if ops != [] {
      var init := ops[..|ops| - 1];
      RunKeeps(db, init);
    }
  }

  lemma {:induction false} PrefixRows(ops: seq<Op>, n: nat)
    requires n <= |ops|
    ensures Registered(ops[..n]) <= Registered(ops) && Upserted(ops[..n]) <= Upserted(ops)
  {
    if n == |ops| {
      assert ops[..n] == ops;
    } else {
      var init := ops[..|ops| - 1];
      PrefixRows(init, n);
      assert init[..n] == ops[..n];
    }
  }

  lemma {:induction false} RunConcat(db: Db, a: seq<Op>, b: seq<Op>)
    ensures RunOps(db, a + b) == RunOps(RunOps(db, a), b)
  {
    if b == [] {
      assert a + b == a;
    } else {
      assert (a + b)[..|a + b| - 1] == a + b[..|b| - 1];
      RunConcat(db, a, b[..|b| - 1]);
    }
  }

  lemma RunOne(db: Db, a: Op)
    ensures RunOps(db, [a]) == Apply(db, a)
  {
    assert [a][..0] == [];
  }

  lemma RunTwo(db: Db, a: Op, b: Op)
    ensures RunOps(db, [a, b]) == Apply(Apply(db, a), b)
  {
    assert [a, b][..1] == [a];
    RunOne(db, a);
  }

  lemma RunThree(db: Db, a: Op, b: Op, c: Op)
    ensures RunOps(db, [a, b, c]) == Apply(Apply(Apply(db, a), b), c)
  {
    assert [a, b, c][..2] == [a, b];
    RunTwo(db, a, b);
  }

  // ---------------------------------------------------------------------
  // Crashing and retrying
  // ---------------------------------------------------------------------

  /** The next attempt will read the file. */
  predicate Unfinished(db: Db) {
    db.record.status != Complete && !(db.remote.Some? && db.remote.value.status == Ready)
  }

  /** Everything up to the verdict on the file. */
  function LoadOps(chunks: seq<Chunk>): seq<Op> {
    [MarkWorking, OpenRemote] + ChunkOps(chunks)
  }

  /** What one more transaction registers and writes. */
  lemma OneMore(done: seq<Op>, op: Op)
    ensures Registered(done + [op]) == Registered(done) + (if op.RegisterOp? then op.chunk.rows else [])
    ensures Upserted(done + [op]) == Upserted(done) + (if op.UpsertOp? then op.chunk.rows else [])
    ensures Loads(done + [op]) <==>
      && Loads(done) && !op.PublishOp? && !op.FailOp? && !op.MarkReady?
      && (op.UpsertOp? ==> done != [] && done[|done| - 1] == RegisterOp(op.chunk))
  {
    var more := done + [op];
    assert more[..|done|] == done && more[|done|] == op;
    assert done != [] ==> more[|done| - 1] == done[|done| - 1];
  }

  lemma ChunkAdds(a: seq<Op>, c: Chunk)
    requires Loads(a)
    ensures var ops := a + [RegisterOp(c), UpsertOp(c), NoteOp(c)];
      && Loads(ops) && Registered(ops) == Registered(a) + c.rows && Upserted(ops) == Upserted(a) + c.rows
  {
    var b := a + [RegisterOp(c)];
    var d := b + [UpsertOp(c)];
    OneMore(a, RegisterOp(c));
    OneMore(b, UpsertOp(c));
    OneMore(d, NoteOp(c));
    assert a + [RegisterOp(c), UpsertOp(c), NoteOp(c)] == d + [NoteOp(c)];
    assert Upserted(b) == Upserted(a) + [] == Upserted(a);
    assert Registered(d) == Registered(b) + [] == Registered(b);
    assert Registered(d + [NoteOp(c)]) == Registered(d) + [] && Upserted(d + [NoteOp(c)]) == Upserted(d) + [];
  }

  lemma NoChunks()
    ensures Loads(LoadOps([])) && Registered(LoadOps([])) == [] && Upserted(LoadOps([])) == []
  {
    OneMore([], MarkWorking);
    OneMore([MarkWorking], OpenRemote);
    assert LoadOps([]) == [MarkWorking] + [OpenRemote] && [] + [MarkWorking] == [MarkWorking];
  }

  lemma {:induction false} LoadOpsFacts(chunks: seq<Chunk>)
    ensures Loads(LoadOps(chunks))
    ensures Registered(LoadOps(chunks)) == Concat(chunks) && Upserted(LoadOps(chunks)) == Concat(chunks)
    ensures |LoadOps(chunks)| >= 2
  {
    if chunks == [] {
      NoChunks();
    } else {
      var init, c := chunks[..|chunks| - 1], chunks[|chunks| - 1];
      LoadOpsFacts(init);
      assert LoadOps(chunks) == LoadOps(init) + [RegisterOp(c), UpsertOp(c), NoteOp(c)];
      ChunkAdds(LoadOps(init), c);
    }
  }

  /** The remote row after a load: where the last chunk left it. */
  lemma {:induction false} LoadRemote(db: Db, chunks: seq<Chunk>)
    requires Unfinished(db)
    ensures RunOps(db, LoadOps(chunks)).remote == (
      if chunks != [] then Some(Remote(Loading, chunks[|chunks| - 1].progress))
      else if db.remote.Some? then db.remote else Some(Remote(Loading, Progress(0, 0, 0))))
  {
    if chunks == [] {
      assert LoadOps(chunks) == [MarkWorking, OpenRemote];
      RunTwo(db, MarkWorking, OpenRemote);
    } else {
      var init, c := chunks[..|chunks| - 1], chunks[|chunks| - 1];
      LoadRemote(db, init);
      var a, tail := LoadOps(init), [RegisterOp(c), UpsertOp(c), NoteOp(c)];
      assert LoadOps(chunks) == a + tail;
      RunConcat(db, a, tail);
      RunThree(RunOps(db, a), RegisterOp(c), UpsertOp(c), NoteOp(c));
    }
  }

  /** The stores once the whole file is loaded. */
  ghost predicate HoldsFile(db: Db, e: Db, ks: seq<Kept>) {
    && e.registry == RegisterAll(db.registry, ks)
    && e.rows == db.rows + Listings(RegisterAll(db.registry, ks), ks)
    && e.members == db.members
  }

  lemma LoadHoldsFile(db: Db, u: Upload)
    requires u.Valid()
    ensures HoldsFile(db, RunOps(db, LoadOps(u.chunks)), KeptRows(u.raw))
  {
    var ops := LoadOps(u.chunks);
    LoadOpsFacts(u.chunks);
    RunRegistry(db, ops);
    RunRows(db, ops, RegisterAll(db.registry, KeptRows(u.raw)));
    RunKeeps(db, ops);
  }

  lemma {:induction false} LoadsPrefix(ops: seq<Op>, n: nat)
    requires Loads(ops) && n <= |ops|
    ensures Loads(ops[..n])
  {
    if n == |ops| {
      assert ops[..n] == ops;
    } else {
      var init := ops[..|ops| - 1];
      LoadsPrefix(init, n);
      assert init[..n] == ops[..n];
    }
  }

  /** Registering the file after a prefix of a load ends where registering it at once would have. */
  lemma PrefixRegistered(db: Db, u: Upload, n: nat)
    requires u.Valid() && n <= |LoadOps(u.chunks)|
    ensures var d := RunOps(db, LoadOps(u.chunks)[..n]); var g := RegisterAll(db.registry, KeptRows(u.raw));
      d.members == db.members && RegisterAll(d.registry, KeptRows(u.raw)) == g && Extends(d.registry, g)
  {
    var ops, ks := LoadOps(u.chunks), KeptRows(u.raw);
    LoadOpsFacts(u.chunks);
    LoadsPrefix(ops, n);
    PrefixRows(ops, n);
    RunKeeps(db, ops[..n]);
    RunRegistry(db, ops[..n]);
    var i := |Registered(ops[..n])|;
    assert Registered(ops[..n]) == ks[..i];
    RegisterAbsorbs(db.registry, ks, i);
    RegisterAllFacts(RunOps(db, ops[..n]).registry, ks);
  }

  /** And writing the file over what the prefix wrote leaves the file. */
  lemma PrefixWritten(db: Db, u: Upload, n: nat, g: Registry)
    requires u.Valid() && n <= |LoadOps(u.chunks)|
    requires g == RegisterAll(db.registry, KeptRows(u.raw)) && Extends(RunOps(db, LoadOps(u.chunks)[..n]).registry, g)
    ensures UpsertChunk(RunOps(db, LoadOps(u.chunks)[..n]).rows, g, KeptRows(u.raw)) ==
      UpsertChunk(db.rows, g, KeptRows(u.raw))
  {
    var ops, ks := LoadOps(u.chunks), KeptRows(u.raw);
    LoadOpsFacts(u.chunks);
    LoadsPrefix(ops, n);
    PrefixRows(ops, n);
    RunRows(db, ops[..n], g);
    OverPrefix(db.rows, g, ks, Upserted(ops[..n]));
  }

  lemma OverPrefix(rows: map<Phone, Listing>, g: Registry, ks: seq<Kept>, some: seq<Kept>)
    requires some <= ks
    ensures UpsertChunk(rows + Listings(g, some), g, ks) == UpsertChunk(rows, g, ks)
  {
    assert ks[..|some|] == some;
    UpsertAbsorbs(rows, g, ks, |some|);
    UpsertIsMerge(rows, g, ks);
    UpsertIsMerge(rows + Listings(g, some), g, ks);
  }

  lemma UpsertIsMerge(rows: map<Phone, Listing>, g: Registry, ks: seq<Kept>)
    ensures UpsertChunk(rows, g, ks) == rows + Listings(g, ks)
  {
  }

  /** Loading the file on top of any prefix of a load leaves the same stores. */
  lemma PrefixAbsorbed(db: Db, u: Upload, n: nat, e: Db)
    requires u.Valid() && n <= |LoadOps(u.chunks)|
    requires HoldsFile(RunOps(db, LoadOps(u.chunks)[..n]), e, KeptRows(u.raw))
    ensures HoldsFile(db, e, KeptRows(u.raw))
  {
    PrefixRegistered(db, u, n);
    PrefixWritten(db, u, n, RegisterAll(db.registry, KeptRows(u.raw)));
  }

  lemma PrefixUnfinished(db: Db, u: Upload, n: nat)
    requires u.Valid() && Unfinished(db) && n <= |LoadOps(u.chunks)|
    ensures Unfinished(RunOps(db, LoadOps(u.chunks)[..n]))
    ensures var d := RunOps(db, LoadOps(u.chunks)[..n]);
      && d.record.imported == db.record.imported && d.record.updated == db.record.updated
      && d.record.duplicates == db.record.duplicates
      && (u.chunks == [] ==> d.remote == db.remote || d.remote == RunOps(db, LoadOps(u.chunks)).remote)
  {
    LoadOpsFacts(u.chunks);
    LoadsPrefix(LoadOps(u.chunks), n);
    RunKeeps(db, LoadOps(u.chunks)[..n]);
    if u.chunks == [] {
      var ops := LoadOps(u.chunks);
      assert ops == [MarkWorking, OpenRemote];
      assert ops[..0] == [] && ops[..1] == [MarkWorking] && ops[..2] == ops;
      RunOne(db, MarkWorking);
    }
  }

  /** The end of an uninterrupted import of an unfinished upload. */
  ghost function Ending(db: Db, e: Db, u: Upload): Db {
    if Importable(u) then
      Published(Db(e.registry, e.rows, Some(Remote(Ready, u.Totals())), e.members, db.record), u.id, u.Totals())
    else
      Db(e.registry, e.rows, e.remote, e.members, db.record.(status := Rejected, progress := u.Totals()))
  }

  /** What follows the load. */
  function Verdict(u: Upload): seq<Op> {
    if Importable(u) then [MarkReady(u.Totals()), PublishOp(u.id, u.Totals())] else [FailOp(u.Totals())]
  }

  lemma PlanSplits(db: Db, u: Upload)
    requires u.readable && Unfinished(db)
    ensures Plan(db, u) == LoadOps(u.chunks) + Verdict(u)
  {
  }

  /** A run that gets past the load is the load and then part of the verdict. */
  lemma AttemptAfterLoad(db: Db, u: Upload, more: nat)
    requires u.readable && Unfinished(db) && more <= |Verdict(u)|
    ensures Attempt(db, u, |LoadOps(u.chunks)| + more) == RunOps(RunOps(db, LoadOps(u.chunks)), Verdict(u)[..more])
  {
    var load, verdict := LoadOps(u.chunks), Verdict(u);
    PlanSplits(db, u);
    assert (load + verdict)[..|load| + more] == load + verdict[..more];
    RunConcat(db, load, verdict[..more]);
    if more == |verdict| {
      assert verdict[..more] == verdict;
    }
  }

  lemma VerdictRuns(e: Db, u: Upload)
    ensures RunOps(e, Verdict(u)[..0]) == e
    ensures RunOps(e, Verdict(u)[..1]) == Apply(e, Verdict(u)[0])
    ensures Importable(u) ==>
      RunOps(e, Verdict(u)[..2]) == Apply(Apply(e, MarkReady(u.Totals())), PublishOp(u.id, u.Totals()))
  {
    var v := Verdict(u);
    assert v[..1] == [v[0]];
    RunOne(e, v[0]);
    if Importable(u) {
      assert v[..2] == [v[0], v[1]];
      RunTwo(e, v[0], v[1]);
    }
  }

  /** A run with more transactions to spare than it needs finishes. */
  lemma AttemptPast(db: Db, u: Upload, cut: nat)
    requires u.readable && Unfinished(db) && cut >= |LoadOps(u.chunks)| + |Verdict(u)|
    ensures Attempt(db, u, cut) == RunOps(RunOps(db, LoadOps(u.chunks)), Verdict(u)[..|Verdict(u)|])
  {
    AttemptAfterLoad(db, u, |Verdict(u)|);
    PlanSplits(db, u);
  }

  /** The stores after `cut` transactions, once the load is behind. */
  ghost function Judged(e: Db, u: Upload, more: nat): Db {
    if more == 0 then e
    else if !Importable(u) then Apply(e, FailOp(u.Totals()))
    else if more == 1 then Apply(e, MarkReady(u.Totals()))
    else Apply(Apply(e, MarkReady(u.Totals())), PublishOp(u.id, u.Totals()))
  }

  lemma VerdictAttempt(db: Db, u: Upload, cut: nat, e: Db)
    requires u.readable && Unfinished(db) && cut >= |LoadOps(u.chunks)| && e == RunOps(db, LoadOps(u.chunks))
    ensures Attempt(db, u, cut) == Judged(e, u, cut - |LoadOps(u.chunks)|)
    ensures |Plan(db, u)| == |LoadOps(u.chunks)| + if Importable(u) then 2 else 1
  {
    var more := cut - |LoadOps(u.chunks)|;
    PlanSplits(db, u);
    VerdictRuns(e, u);
    if more < |Verdict(u)| {
      AttemptAfterLoad(db, u, more);
    } else {
      AttemptPast(db, u, cut);
    }
  }

  lemma AttemptWhileLoading(db: Db, u: Upload, cut: nat)
    requires u.readable && Unfinished(db) && cut <= |LoadOps(u.chunks)|
    ensures Attempt(db, u, cut) == RunOps(db, LoadOps(u.chunks)[..cut]) && cut < |Plan(db, u)|
  {
    PlanSplits(db, u);
    assert (LoadOps(u.chunks) + Verdict(u))[..cut] == LoadOps(u.chunks)[..cut];
  }

  /** The first two cuts of any run. */
  lemma AttemptStarts(db: Db, u: Upload)
    ensures Attempt(db, u, 0) == db
    ensures db.record.status == Complete ==> Plan(db, u) == [] && forall cut :: Attempt(db, u, cut) == db
    ensures db.record.status != Complete ==> |Plan(db, u)| >= 2 && Attempt(db, u, 1) == Apply(db, MarkWorking)
  {
    if db.record.status != Complete {
      assert Plan(db, u)[..1] == [MarkWorking];
      RunOne(db, MarkWorking);
    }
  }

  lemma AttemptWhenReady(db: Db, u: Upload, cut: nat)
    requires db.record.status != Complete && db.remote.Some? && db.remote.value.status == Ready && cut >= 2
    ensures Attempt(db, u, cut) == Apply(Apply(db, MarkWorking), PublishOp(u.id, db.remote.value.progress))
    ensures |Plan(db, u)| == 2
  {
    RunTwo(db, MarkWorking, PublishOp(u.id, db.remote.value.progress));
  }

  lemma AttemptUnreadable(db: Db, u: Upload, cut: nat)
    requires !u.readable && Unfinished(db) && cut >= 2
    ensures |Plan(db, u)| == 3
    ensures Attempt(db, u, cut) ==
      if cut == 2 then Apply(Apply(db, MarkWorking), OpenRemote)
      else Apply(Apply(Apply(db, MarkWorking), OpenRemote), FailOp(Progress(0, 0, 0)))
  {
    assert Plan(db, u)[..2] == [MarkWorking, OpenRemote];
    RunTwo(db, MarkWorking, OpenRemote);
    RunThree(db, MarkWorking, OpenRemote, FailOp(Progress(0, 0, 0)));
  }

  lemma FullAfterLoad(db: Db, u: Upload)
    requires u.readable && Unfinished(db)
    ensures Full(db, u) == RunOps(RunOps(db, LoadOps(u.chunks)), Verdict(u)[..|Verdict(u)|])
  {
    AttemptAfterLoad(db, u, |Verdict(u)|);
    PlanSplits(db, u);
  }

  lemma PublishedEnding(db: Db, e: Db, id: nat, t: Progress)
    ensures Apply(Apply(e, MarkReady(t)), PublishOp(id, t))
         == Published(Db(e.registry, e.rows, Some(Remote(Ready, t)), e.members, db.record), id, t)
  {
  }

  lemma EndingIs(db: Db, e: Db, u: Upload)
    requires e.record.imported == db.record.imported && e.record.updated == db.record.updated
          && e.record.duplicates == db.record.duplicates
    ensures RunOps(e, Verdict(u)[..|Verdict(u)|]) == Ending(db, e, u)
  {
    VerdictRuns(e, u);
    if Importable(u) {
      PublishedEnding(db, e, u.id, u.Totals());
    }
  }

  lemma FullIsEnding(db: Db, u: Upload)
    requires u.Valid() && u.readable && Unfinished(db)
    ensures Full(db, u) == Ending(db, RunOps(db, LoadOps(u.chunks)), u)
  {
    LoadOpsFacts(u.chunks);
    RunKeeps(db, LoadOps(u.chunks));
    FullAfterLoad(db, u);
    EndingIs(db, RunOps(db, LoadOps(u.chunks)), u);
  }

  /** Two unfinished states that load to the same stores end the same. */
  lemma SameEnding(db: Db, d: Db, u: Upload)
    requires u.Valid() && u.readable && Unfinished(db) && Unfinished(d)
    requires HoldsFile(db, RunOps(d, LoadOps(u.chunks)), KeptRows(u.raw))
    requires d.record.imported == db.record.imported && d.record.updated == db.record.updated
          && d.record.duplicates == db.record.duplicates
    requires u.chunks == [] ==> d.remote == db.remote || d.remote == RunOps(db, LoadOps(u.chunks)).remote
    ensures Full(d, u) == Full(db, u)
  {
    FullIsEnding(db, u);
    FullIsEnding(d, u);
    LoadHoldsFile(db, u);
    LoadRemote(db, u.chunks);
    LoadRemote(d, u.chunks);
  }

  lemma CrashWhileLoading(db: Db, u: Upload, n: nat)
    requires u.Valid() && u.readable && Unfinished(db) && n <= |LoadOps(u.chunks)|
    ensures Full(RunOps(db, LoadOps(u.chunks)[..n]), u) == Full(db, u)
  {
    var d := RunOps(db, LoadOps(u.chunks)[..n]);
    PrefixUnfinished(db, u, n);
    LoadHoldsFile(d, u);
    PrefixAbsorbed(db, u, n, RunOps(d, LoadOps(u.chunks)));
    SameEnding(db, d, u);
  }

  /** Publication overwrites the record, so what it said before does not matter. */
  lemma PublishForgetsRecord(d: Db, id: nat, t: Progress)
    ensures Apply(Apply(d, MarkWorking), PublishOp(id, t)) == Apply(d, PublishOp(id, t))
  {
  }

  lemma ReadyRuns(d: Db, u: Upload)
    requires d.record.status != Complete && d.remote == Some(Remote(Ready, u.Totals()))
    ensures Full(d, u) == Apply(d, PublishOp(u.id, u.Totals()))
  {
    RunTwo(d, MarkWorking, PublishOp(u.id, u.Totals()));
    PublishForgetsRecord(d, u.id, u.Totals());
  }

  /** After the file is marked ready a retry publishes from the stored listing. */
  lemma CrashWhenReady(db: Db, u: Upload)
    requires u.Valid() && u.readable && Unfinished(db) && Importable(u)
    ensures Full(Apply(RunOps(db, LoadOps(u.chunks)), MarkReady(u.Totals())), u) == Full(db, u)
  {
    var e := RunOps(db, LoadOps(u.chunks));
    LoadOpsFacts(u.chunks);
    RunKeeps(db, LoadOps(u.chunks));
    FullAfterLoad(db, u);
    VerdictRuns(e, u);
    ReadyRuns(Apply(e, MarkReady(u.Totals())), u);
  }

  /** A refused file is refused again, with the same record. */
  lemma RefusedAgain(db: Db, u: Upload)
    requires u.Valid() && u.readable && Unfinished(db) && !Importable(u)
    ensures Full(Full(db, u), u) == Full(db, u)
  {
    var n := |LoadOps(u.chunks)|;
    var e := RunOps(db, LoadOps(u.chunks));
    assert LoadOps(u.chunks)[..n] == LoadOps(u.chunks);
    CrashWhileLoading(db, u, n);
    PrefixUnfinished(db, u, n);
    FullIsEnding(db, u);
    FullIsEnding(e, u);
    var f := Full(db, u);
    RunIgnoresRecord(e, f, u);
    FullIsEnding(f, u);
  }

  /** What a load leaves in the stores does not depend on the record. */
  lemma {:induction false} OpsIgnoreRecord(a: Db, b: Db, ops: seq<Op>)
    requires b == a.(record := b.record) && Loads(ops)
    ensures RunOps(b, ops) == RunOps(a, ops).(record := RunOps(b, ops).record)
  {
    if ops != [] {
      OpsIgnoreRecord(a, b, ops[..|ops| - 1]);
    }
  }

  lemma RunIgnoresRecord(e: Db, f: Db, u: Upload)
    requires u.Valid() && f == e.(record := f.record)
    ensures RunOps(f, LoadOps(u.chunks)) == RunOps(e, LoadOps(u.chunks)).(record := RunOps(f, LoadOps(u.chunks)).record)
  {
    LoadOpsFacts(u.chunks);
    OpsIgnoreRecord(e, f, LoadOps(u.chunks));
  }

  lemma CrashWhilePublishing(db: Db, u: Upload, cut: nat)
    requires db.record.status != Complete && db.remote.Some? && db.remote.value.status == Ready
    ensures Full(Attempt(db, u, cut), u) == Full(db, u)
  {
    var publish := PublishOp(u.id, db.remote.value.progress);
    var plan := [MarkWorking, publish];
    assert Plan(db, u) == plan;
    assert plan[..0] == [] && plan[..1] == [MarkWorking];
    RunOne(db, MarkWorking);
    RunTwo(db, MarkWorking, publish);
    RunTwo(Apply(db, MarkWorking), MarkWorking, publish);
  }

  lemma CrashUnreadable(db: Db, u: Upload, cut: nat)
    requires Unfinished(db) && !u.readable
    ensures Full(Attempt(db, u, cut), u) == Full(db, u)
  {
    var fail := FailOp(Progress(0, 0, 0));
    var plan := [MarkWorking, OpenRemote, fail];
    assert Plan(db, u) == plan;
    assert plan[..0] == [] && plan[..1] == [MarkWorking] && plan[..2] == [MarkWorking, OpenRemote];
    RunOne(db, MarkWorking);
    RunTwo(db, MarkWorking, OpenRemote);
    RunThree(db, MarkWorking, OpenRemote, fail);
    var d := Attempt(db, u, cut);
    assert Plan(d, u) == plan;
    RunThree(d, MarkWorking, OpenRemote, fail);
  }

  /** Dying after any number of transactions and running again ends where one run would have. */
  lemma CrashAbsorbed(db: Db, u: Upload, cut: nat)
    requires u.Valid()
    ensures Full(Attempt(db, u, cut), u) == Full(db, u)
  {
    if db.record.status == Complete {
      assert Plan(db, u) == [];
    } else if !Unfinished(db) {
      CrashWhilePublishing(db, u, cut);
    } else if !u.readable {
      CrashUnreadable(db, u, cut);
    } else {
      var plan, load := Plan(db, u), LoadOps(u.chunks);
      if cut <= |load| {
        assert plan[..cut] == load[..cut];
        assert cut < |plan|;
        CrashWhileLoading(db, u, cut);
      } else if Importable(u) && cut == |load| + 1 {
        assert plan[..cut] == load + [MarkReady(u.Totals())];
        assert (load + [MarkReady(u.Totals())])[..|load|] == load;
        CrashWhenReady(db, u);
      } else if Importable(u) {
        FullIsEnding(db, u);
        assert Plan(Full(db, u), u) == [];
      } else {
        RefusedAgain(db, u);
      }
    }
  }

  /**
   Crashed at any points any number of times and then run to the end, an import
   leaves exactly the state of one uninterrupted run: the same index, listings,
   endpoints and counts.
   */
  lemma {:induction false} RetriesConverge(db: Db, u: Upload, cuts: seq<nat>)
    requires u.Valid()
    ensures Full(Attempts(db, u, cuts), u) == Full(db, u)
  {
    if cuts != [] {
      CrashAbsorbed(Attempts(db, u, cuts[..|cuts| - 1]), u, cuts[|cuts| - 1]);
      RetriesConverge(db, u, cuts[..|cuts| - 1]);
    }
  }

  // ---------------------------------------------------------------------
  // What is published
  // ---------------------------------------------------------------------

  /** Publication is the last transaction: the index changes only in a run that finishes. */
  lemma NoPrefixPublished(db: Db, u: Upload, cut: nat)
    requires u.Valid() && cut < |Plan(db, u)|
    ensures Attempt(db, u, cut).members == db.members && Attempt(db, u, cut).record.status != Complete
  {
    var plan, load := Plan(db, u), LoadOps(u.chunks);
    if u.readable && Unfinished(db) {
      LoadOpsFacts(u.chunks);
      if cut <= |load| {
        assert plan[..cut] == load[..cut];
        LoadsPrefix(load, cut);
        RunKeeps(db, load[..cut]);
      } else {
        assert plan[..cut] == load + [MarkReady(u.Totals())];
        assert (load + [MarkReady(u.Totals())])[..|load|] == load;
        RunKeeps(db, load);
      }
    } else {
      assert plan[..0] == [] && plan[..1] == [MarkWorking];
      RunOne(db, MarkWorking);
      if cut == 2 {
        assert plan[..2] == [MarkWorking, OpenRemote];
        RunTwo(db, MarkWorking, OpenRemote);
      }
    }
  }

  /** Phones and Lead ids correspond one to one. */
  ghost predicate RegistryOk(g: Registry) {
    && (forall p :: p in g.ids ==> g.ids[p] < g.next)
    && (forall p, q :: p in g.ids && q in g.ids && g.ids[p] == g.ids[q] ==> p == q)
  }

  lemma {:induction false} RegisterAllOk(g: Registry, ks: seq<Kept>)
    requires RegistryOk(g)
    ensures RegistryOk(RegisterAll(g, ks))
  {
    if ks != [] {
      RegisterAllOk(g, ks[..|ks| - 1]);
    }
  }

  lemma {:induction false} ImageSize(rows: map<Phone, Listing>, ps: set<Phone>)
    requires ps <= rows.Keys
    requires forall p, q :: p in rows && q in rows && rows[p].lead == rows[q].lead ==> p == q
    ensures |set p | p in ps :: rows[p].lead| == |ps|
  {
    if ps != {} {
      var p :| p in ps;
      ImageSize(rows, ps - {p});
      var rest := set q | q in ps - {p} :: rows[q].lead;
      assert (set q | q in ps :: rows[q].lead) == rest + {rows[p].lead};
    }
  }

  /** The valid phones of the file. */
  function PhonesOf(ks: seq<Kept>): set<Phone> {
    set i | 0 <= i < |ks| :: ks[i].phone
  }

  lemma {:induction false} PhoneCount(ks: seq<Kept>)
    ensures |PhonesOf(ks)| <= |ks|
  {
    if ks != [] {
      var init := ks[..|ks| - 1];
      PhoneCount(init);
      assert PhonesOf(ks) == PhonesOf(init) + {ks[|ks| - 1].phone} by {
        forall p | p in PhonesOf(init) ensures p in PhonesOf(ks) {
          var i :| 0 <= i < |init| && init[i].phone == p;
          assert ks[i].phone == p;
        }
        assert ks[|ks| - 1].phone in PhonesOf(ks);
      }
    }
  }

  lemma ListingKeys(g: Registry, ks: seq<Kept>)
    ensures Listings(g, ks).Keys == PhonesOf(ks)
  {
    UniqueFacts(ks);
    forall p | p in Listings(g, ks) ensures p in PhonesOf(ks) {
      var i :| 0 <= i < |ks| && ks[i] == Unique(ks)[p];
      assert ks[i].phone == p;
    }
    forall p | p in PhonesOf(ks) ensures p in Listings(g, ks) {
      var i :| 0 <= i < |ks| && ks[i].phone == p;
    }
  }

  /** A first import of an upload: nothing of it is stored yet. */
  ghost predicate Untouched(db: Db) {
    db.record.status != Complete && db.remote.None? && db.rows == map[] && RegistryOk(db.registry)
  }

  /** The registry after the file is loaded. */
  function Endpoints(db: Db, u: Upload): Registry {
    RegisterAll(db.registry, KeptRows(u.raw))
  }

  lemma ImportedIs(db: Db, u: Upload)
    requires u.Valid() && Importable(u) && Untouched(db)
    ensures Full(db, u) == Published(
      Db(Endpoints(db, u), Listings(Endpoints(db, u), KeptRows(u.raw)), Some(Remote(Ready, u.Totals())), db.members,
        db.record),
      u.id, u.Totals())
  {
    var g, ks := Endpoints(db, u), KeptRows(u.raw);
    FullIsEnding(db, u);
    LoadHoldsFile(db, u);
    MergeEmpty(Listings(g, ks));
    var e := RunOps(db, LoadOps(u.chunks));
    assert e.registry == g && e.rows == Listings(g, ks) && e.members == db.members;
  }

  lemma MergeEmpty<K, V>(a: map<K, V>)
    ensures map[] + a == a
  {
  }

  lemma EndpointsFacts(db: Db, u: Upload)
    requires Untouched(db)
    ensures RegistryOk(Endpoints(db, u)) && Knows(Endpoints(db, u), KeptRows(u.raw))
    ensures Listings(Endpoints(db, u), KeptRows(u.raw)).Keys == PhonesOf(KeptRows(u.raw))
  {
    RegisterAllOk(db.registry, KeptRows(u.raw));
    RegisterAllFacts(db.registry, KeptRows(u.raw));
    ListingKeys(Endpoints(db, u), KeptRows(u.raw));
  }

  predicate ListedIn(d: Db, l: LeadId) {
    exists p :: p in d.rows && d.rows[p].lead == l
  }

  /**
   Publishing serves exactly the listed Leads from this upload, leaves every other Lead where it
   was, and accounts for every valid row.
   */
  lemma PublishTakesOver(d: Db, id: nat, t: Progress, l: LeadId)
    ensures var e := Published(d, id, t);
      && (l in e.members <==> l in d.members || ListedIn(d, l))
      && (ListedIn(d, l) ==> e.members[l] == id)
      && (l in d.members && !ListedIn(d, l) ==> e.members[l] == d.members[l])
      && e.record.imported + e.record.updated + e.record.duplicates == t.valid
      && (e.rows, e.registry, e.remote) == (d.rows, d.registry, d.remote)
  {
    var leads := set p | p in d.rows :: d.rows[p].lead;
    assert l in leads <==> ListedIn(d, l);
  }

  /** No two phones are listed under one Lead. */
  ghost predicate OneLeadEach(rows: map<Phone, Listing>) {
    forall p, q :: p in rows && q in rows && rows[p].lead == rows[q].lead ==> p == q
  }

  /** What publishing injective listings counts. */
  lemma PublishCounts(d: Db, id: nat, t: Progress)
    requires OneLeadEach(d.rows)
    ensures var r := Published(d, id, t).record;
      && r.imported + r.updated == |d.rows| && r.imported >= 0 && r.duplicates == t.valid - |d.rows|
  {
    var leads := set p | p in d.rows :: d.rows[p].lead;
    ImageSize(d.rows, d.rows.Keys);
    assert leads == set p | p in d.rows.Keys :: d.rows[p].lead;
    SubsetSize(leads * d.members.Keys, leads);
  }

  /**
   An uninterrupted import publishes each valid phone once; the counts add up to
   the rows read, and none of them is negative.
   */
  lemma ImportCounts(db: Db, u: Upload)
    requires u.Valid() && Importable(u) && Untouched(db)
    ensures var r := Full(db, u).record; var phones := PhonesOf(KeptRows(u.raw));
      && r.status == Complete && r.progress == u.Totals() && r.progress.processed == |u.raw|
      && r.imported + r.updated + r.duplicates + r.progress.rejected == r.progress.processed
      && r.imported + r.updated == |phones|
      && r.imported >= 0 && r.duplicates >= 0 && r.duplicates == |KeptRows(u.raw)| - |phones|
  {
    var g, ks := Endpoints(db, u), KeptRows(u.raw);
    ImportedIs(db, u);
    EndpointsFacts(db, u);
    PhoneCount(ks);
    LeadsInjective(g, ks);
    var d := Db(g, Listings(g, ks), Some(Remote(Ready, u.Totals())), db.members, db.record);
    PublishCounts(d, u.id, u.Totals());
    assert |d.rows| == |d.rows.Keys|;
  }

  lemma LeadsInjective(g: Registry, ks: seq<Kept>)
    requires RegistryOk(g) && Knows(g, ks)
    ensures OneLeadEach(Listings(g, ks))
  {
    UniqueFacts(ks);
    forall p | p in Unique(ks) ensures p in g.ids && Unique(ks)[p].phone == p {
      var i :| 0 <= i < |ks| && ks[i] == Unique(ks)[p];
      assert ks[i].phone in g.ids;
    }
  }

  /** The last valid row of a phone is the listing its Lead is served from. */
  lemma LastRowServes(db: Db, u: Upload, i: nat)
    requires u.Valid() && Importable(u) && Untouched(db)
    requires var ks := KeptRows(u.raw);
      i < |ks| && forall j :: i < j < |ks| ==> ks[j].phone != ks[i].phone
    ensures var f := Full(db, u); var k := KeptRows(u.raw)[i];
      && k.phone in f.rows && f.rows[k.phone].title == k.title && f.rows[k.phone].number == k.number
      && f.rows[k.phone].lead in f.members && f.members[f.rows[k.phone].lead] == u.id
  {
    ImportedIs(db, u);
    UniqueIsLast(KeptRows(u.raw), i);
    var f, k := Full(db, u), KeptRows(u.raw)[i];
    assert k.phone in f.rows && f.rows[k.phone] == ListingOf(f.registry, k);
  }

  /** Leads of other uploads keep the listing they had. */
  lemma OthersUntouched(db: Db, u: Upload, l: LeadId)
    requires u.Valid() && Importable(u) && Untouched(db)
    requires forall p :: p in Full(db, u).rows ==> Full(db, u).rows[p].lead != l
    ensures l in Full(db, u).members <==> l in db.members
    ensures l in db.members ==> Full(db, u).members[l] == db.members[l]
  {
    ImportedIs(db, u);
  }

  // ---------------------------------------------------------------------
  // The import as it runs
  // ---------------------------------------------------------------------

  /** The last row of each phone in a chunk. */
  method Deduplicate(ks: seq<Kept>) returns (unique: map<Phone, Kept>)
    ensures unique == Unique(ks)
  {
    unique := map[];
    for i := 0 to |ks|
      invariant unique == Unique(ks[..i])
    {
      assert ks[..i + 1][..i] == ks[..i];
      unique := unique[ks[i].phone := ks[i]];
    }
    assert ks[..|ks|] == ks;
  }

  /** The listings once the phones `done` are written. */
  ghost function Written(rows: map<Phone, Listing>, g: Registry, unique: map<Phone, Kept>,
                         done: set<Phone>): map<Phone, Listing>
    requires done <= unique.Keys
  {
    rows + map p | p in done :: ListingOf(g, unique[p])
  }

  lemma WrittenGrows(rows: map<Phone, Listing>, g: Registry, unique: map<Phone, Kept>, done: set<Phone>, p: Phone)
    requires done <= unique.Keys && p in unique
    ensures Written(rows, g, unique, done + {p}) == Written(rows, g, unique, done)[p := ListingOf(g, unique[p])]
  {
  }

  lemma WrittenAll(rows: map<Phone, Listing>, g: Registry, ks: seq<Kept>, done: set<Phone>)
    requires done == Unique(ks).Keys
    ensures Written(rows, g, Unique(ks), done) == UpsertChunk(rows, g, ks)
  {
  }

  class Importer {
    var registry: Registry
    var rows: map<Phone, Listing>
    var remote: Option<Remote>
    var members: map<LeadId, nat>
    var record: Record

    ghost function View(): Db
      reads this
    {
      Db(registry, rows, remote, members, record)
    }

    /** `_canonical_ids` */
    method CanonicalIds(ks: seq<Kept>)
      modifies this`registry
      ensures registry == RegisterAll(old(registry), ks)
    {
      for i := 0 to |ks|
        invariant registry == RegisterAll(old(registry), ks[..i])
      {
        assert ks[..i + 1][..i] == ks[..i];
        if ks[i].phone !in registry.ids {
          registry := Registry(registry.ids[ks[i].phone := registry.next], registry.next + 1);
        }
      }
      assert ks[..|ks|] == ks;
    }

    method WriteRows(unique: map<Phone, Kept>)
      modifies this`rows
      ensures rows == Written(old(rows), registry, unique, unique.Keys)
    {
      ghost var before, done: set<Phone> := rows, {};
      var todo := unique.Keys;
      assert rows == Written(before, registry, unique, {});
      while todo != {}
        invariant todo <= unique.Keys && done == unique.Keys - todo
        invariant rows == Written(before, registry, unique, done)
        decreases |todo|
      {
        var p :| p in todo;
        WrittenGrows(before, registry, unique, done, p);
        todo, done := todo - {p}, done + {p};
        rows := rows[p := ListingOf(registry, unique[p])];
      }
      assert done == unique.Keys;
    }

    /** The upsert of `_retain_chunk`: deduplicate the chunk, then write phone by phone. */
    method RetainRows(ks: seq<Kept>)
      modifies this`rows
      ensures rows == UpsertChunk(old(rows), registry, ks)
    {
      var unique := Deduplicate(ks);
      WrittenAll(rows, registry, ks, unique.Keys);
      WriteRows(unique);
    }

    /**
     `import_lead_upload`, dying once `cut` transactions have committed. Whatever
     the number, the stores are those of that many planned transactions.
     */
    method Import(u: Upload, cut: nat) returns (died: bool)
      requires u.Valid()
      modifies this
      ensures View() == Attempt(old(View()), u, cut)
      ensures died <==> cut < |Plan(old(View()), u)|
    {
      ghost var start := View();
      AttemptStarts(start, u);
      if record.status == Complete {
        return false;
      }
      if cut == 0 {
        return true;
      }
      record := record.(status := Working);
      if cut == 1 {
        return true;
      }
      if remote.Some? && remote.value.status == Ready {
        AttemptWhenReady(start, u, cut);
        Publish(u.id, remote.value.progress);
        return false;
      }
      if remote.None? {
        remote := Some(Remote(Loading, Progress(0, 0, 0)));
      }
      RunTwo(start, MarkWorking, OpenRemote);
      if !u.readable {
        died := Refuse(u, cut, start);
        return;
      }
      died := LoadChunks(u, cut, start);
      if !died {
        died := Conclude(u, cut, start);
      } else {
        AttemptWhileLoading(start, u, cut);
      }
    }

    /** A file whose checksum or phone column is wrong. */
    method Refuse(u: Upload, cut: nat, ghost start: Db) returns (died: bool)
      requires !u.readable && Unfinished(start) && cut >= 2 && View() == RunOps(start, [MarkWorking, OpenRemote])
      modifies this`record
      ensures View() == Attempt(start, u, cut)
      ensures died <==> cut < |Plan(start, u)|
    {
      AttemptUnreadable(start, u, cut);
      RunTwo(start, MarkWorking, OpenRemote);
      if cut == 2 {
        return true;
      }
      record := record.(status := Rejected, progress := Progress(0, 0, 0));
      return false;
    }

    /** The verdict on a loaded file, and its publication. */
    method Conclude(u: Upload, cut: nat, ghost start: Db) returns (died: bool)
      requires u.readable && Unfinished(start) && cut >= |LoadOps(u.chunks)|
      requires View() == RunOps(start, LoadOps(u.chunks))
      modifies this
      ensures View() == Attempt(start, u, cut)
      ensures died <==> cut < |Plan(start, u)|
    {
      LoadLength(u.chunks);
      VerdictAttempt(start, u, cut, View());
      died := Judge(u, cut - (2 + 3 * |u.chunks|));
    }

    /** `left` transactions are still granted. */
    method Judge(u: Upload, left: nat) returns (died: bool)
      modifies this
      ensures View() == Judged(old(View()), u, left)
      ensures died <==> left < if Importable(u) then 2 else 1
    {
      if left == 0 {
        return true;
      }
      if !Importable(u) {
        record := record.(status := Rejected, progress := u.Totals());
        return false;
      }
      remote := Some(Remote(Ready, u.Totals()));
      if left == 1 {
        return true;
      }
      Publish(u.id, u.Totals());
      return false;
    }

    /**
     One chunk: endpoints, listings, progress, each committed before the next; `left`
     transactions are still granted.
     */
    method LoadChunk(c: Chunk, left: nat) returns (died: bool)
      modifies this
      ensures died <==> left < 3
      ensures View() == ChunkRun(old(View()), c, left)
    {
      if left == 0 {
        return true;
      }
      CanonicalIds(c.rows);
      if left == 1 {
        return true;
      }
      RetainRows(c.rows);
      if remote.Some? {
        remote := Some(remote.value.(progress := c.progress));
      }
      if left == 2 {
        return true;
      }
      record := record.(progress := c.progress);
      return false;
    }

    /** The loop over chunks: three transactions each, any of which may be the last. */
    method LoadChunks(u: Upload, cut: nat, ghost start: Db) returns (died: bool)
      requires cut >= 2 && View() == RunOps(start, [MarkWorking, OpenRemote])
      modifies this
      ensures died <==> cut < |LoadOps(u.chunks)|
      ensures View() == RunOps(start, if died then LoadOps(u.chunks)[..cut] else LoadOps(u.chunks))
    {
      ghost var load := LoadOps(u.chunks);
      LoadLength(u.chunks);
      assert load[..2] == [MarkWorking, OpenRemote];
      var spent := 2;
      for i := 0 to |u.chunks|
        invariant spent == 2 + 3 * i <= cut
        invariant View() == RunOps(start, load[..spent])
      {
        ChunkRunIs(start, u.chunks, i, cut - spent);
        died := LoadChunk(u.chunks[i], cut - spent);
        if died {
          return;
        }
        spent := spent + 3;
      }
      assert load[..spent] == load;
      return false;
    }

    /** `_publish` */
    method Publish(id: nat, t: Progress)
      modifies this
      ensures View() == Published(old(View()), id, t)
    {
      var leads := set p | p in rows :: rows[p].lead;
      var total, updated := |rows|, |leads * members.Keys|;
      members := members + map l | l in leads :: id;
      record := Record(Complete, t, total - updated, updated, t.valid - total);
    }
  }

  lemma RunNext(db: Db, ops: seq<Op>, n: nat)
    requires n < |ops|
    ensures RunOps(db, ops[..n + 1]) == Apply(RunOps(db, ops[..n]), ops[n])
  {
    assert ops[..n + 1][..n] == ops[..n];
  }

  lemma {:induction false} LoadLength(chunks: seq<Chunk>)
    ensures |LoadOps(chunks)| == 2 + 3 * |chunks|
  {
    if chunks != [] {
      LoadLength(chunks[..|chunks| - 1]);
    }
  }

  lemma {:induction false} LoadOpsAt(chunks: seq<Chunk>, i: nat)
    requires i < |chunks|
    ensures |LoadOps(chunks)| >= 2 + 3 * i + 3
    ensures LoadOps(chunks)[2 + 3 * i] == RegisterOp(chunks[i])
    ensures LoadOps(chunks)[2 + 3 * i + 1] == UpsertOp(chunks[i])
    ensures LoadOps(chunks)[2 + 3 * i + 2] == NoteOp(chunks[i])
  {
    var init, c := chunks[..|chunks| - 1], chunks[|chunks| - 1];
    LoadLength(init);
    LoadLength(chunks);
    assert LoadOps(chunks) == LoadOps(init) + [RegisterOp(c), UpsertOp(c), NoteOp(c)];
    if i < |init| {
      LoadOpsAt(init, i);
    }
  }

  /** A chunk's three transactions, or as many of them as are granted. */
  ghost function ChunkRun(db: Db, c: Chunk, left: nat): Db {
    if left == 0 then db
    else if left == 1 then Apply(db, RegisterOp(c))
    else if left == 2 then Apply(Apply(db, RegisterOp(c)), UpsertOp(c))
    else Apply(Apply(Apply(db, RegisterOp(c)), UpsertOp(c)), NoteOp(c))
  }

  lemma ChunkRunIs(db: Db, chunks: seq<Chunk>, i: nat, left: nat)
    requires i < |chunks|
    ensures |LoadOps(chunks)| >= 5 + 3 * i
    ensures var load, n := LoadOps(chunks), 2 + 3 * i;
      RunOps(db, load[..n + Min(left, 3)]) == ChunkRun(RunOps(db, load[..n]), chunks[i], left)
  {
    var load, n := LoadOps(chunks), 2 + 3 * i;
    LoadOpsAt(chunks, i);
    RunNext(db, load, n);
    RunNext(db, load, n + 1);
    RunNext(db, load, n + 2);
  }
}
