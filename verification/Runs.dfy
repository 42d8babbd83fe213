/** Safety of the store over whole runs, under any interleaving and any number of crashes. */
module Runs {
  import opened Bytes
  import opened Paths
  import opened Tables
  import opened Storage
  import StorageSafety
  import Transactions
  import Manifest
  import Snapshot

  ghost predicate StepAt(h: Hash, ss: seq<State>, es: seq<Event>, i: nat)
    requires |ss| == |es| + 1
  {
    i < |es| ==> Enabled(h, ss[i], es[i]) && ss[i + 1] == Next(h, ss[i], es[i])
  }

  ghost predicate Run(h: Hash, ss: seq<State>, es: seq<Event>) {
    && |ss| == |es| + 1 && Init(ss[0])
    && forall i: nat {:trigger StepAt(h, ss, es, i)} :: StepAt(h, ss, es, i)
  }

  lemma InitInv(h: Hash, s: State)
    requires Init(s)
    ensures Inv(h, s)
  {
  }

  lemma {:induction false} RunInv(h: Hash, ss: seq<State>, es: seq<Event>, i: nat)
    requires Run(h, ss, es) && i < |ss|
    ensures Inv(h, ss[i])
  {
    if i == 0 {
      InitInv(h, ss[0]);
    } else {
      RunInv(h, ss, es, i - 1);
      assert StepAt(h, ss, es, i - 1);
      StorageSafety.StepKeeps(h, ss[i - 1], es[i - 1]);
    }
  }

  // ---------------------------------------------------------------- what later states keep

  /** A published blob that no row names, nor is about to. */
  ghost predicate Retired(s: State, n: Name) {
    n in s.published && Unheld(s.db, n) && (s.open.Some? ==> s.open.value.t.Commit? && s.open.value.t.file.blob != n)
  }

  ghost predicate After(s: State, r: State) {
    && Later(s.db, r.db)
    && (forall n | n in s.published :: n in r.published && r.published[n] == s.published[n])
    && (forall n | Retired(s, n) :: Retired(r, n))
  }

  lemma AfterTransitive(a: State, b: State, c: State)
    requires After(a, b) && After(b, c)
    ensures After(a, c)
  {
  }

  lemma RetiredAcross(s: State, t: Transaction, n: Name)
    requires Good(s.db) && Allowed(s.db, t) && Unheld(s.db, n) && (t.Commit? ==> t.file.blob != n)
    ensures Unheld(Apply(s.db, t), n)
  {
    Transactions.ApplyHeld(s.db, t);
    StorageSafety.UnheldBlobs(s.db, n);
    StorageSafety.HeldBlobs(Apply(s.db, t), n);
  }

  lemma SqlAfter(h: Hash, s: State, e: Event)
    requires Inv(h, s) && Enabled(h, s, e) && (e.Sql? || e.CommitSql?)
    ensures After(s, Next(h, s, e))
  {
    var t := if e.Sql? then e.t else s.open.value.t;
    TransactionAfter(s, t, Next(h, s, e));
  }

  lemma TransactionAfter(s: State, t: Transaction, r: State)
    requires Good(s.db) && Allowed(s.db, t) && Transactions.FreshFile(s.db, t)
    requires t.Commit? ==> s.open.Some? && s.open.value.t == t
    requires r.db == Apply(s.db, t) && r.published == s.published && r.open.None?
    ensures After(s, r)
  {
    Transactions.ApplyKeeps(s.db, t);
    forall n | Retired(s, n)
      ensures Retired(r, n)
    {
      RetiredAcross(s, t, n);
    }
  }

  lemma PrepareAfter(s: State, temp: Name, t: Transaction)
    requires Blobs(s) && temp in s.tmp && t.Commit? && Fresh(s, t.file.blob)
    ensures After(s, AfterPrepare(s, temp, t))
  {
  }

  /** Steps that neither change a row nor open a commit. */
  lemma QuietFrame(h: Hash, s: State, e: Event)
    requires Enabled(h, s, e) && !e.Sql? && !e.CommitSql? && !e.Prepare?
    ensures var r := Next(h, s, e);
            && r.published == s.published && r.db == s.db.(uploads := r.db.uploads)
            && (r.open == s.open || r.open.None?)
  {
    if StorageSafety.UploadRowEvent(e) {
      StorageSafety.RowStepFrame(h, s, e);
    } else if StorageSafety.RequestEvent(e) {
      StorageSafety.FileStepFrame(h, s, e);
    }
  }

  lemma QuietAfter(s: State, r: State)
    requires Good(s.db)
    requires r.published == s.published && r.db == s.db.(uploads := r.db.uploads)
    requires r.open == s.open || r.open.None?
    ensures After(s, r)
  {
  }

  lemma StepAfter(h: Hash, s: State, e: Event)
    requires Inv(h, s) && Enabled(h, s, e)
    ensures After(s, Next(h, s, e))
  {
    if e.Sql? || e.CommitSql? {
      SqlAfter(h, s, e);
    } else if e.Prepare? {
      PrepareAfter(s, e.temp, e.t);
    } else {
      QuietFrame(h, s, e);
      QuietAfter(s, Next(h, s, e));
    }
  }

  lemma {:induction false} RunAfter(h: Hash, ss: seq<State>, es: seq<Event>, i: nat, j: nat)
    requires Run(h, ss, es) && i <= j < |ss|
    ensures After(ss[i], ss[j])
    decreases j
  {
    if i < j {
      RunAfter(h, ss, es, i, j - 1);
      StepAfterAt(h, ss, es, j - 1);
      AfterTransitive(ss[i], ss[j - 1], ss[j]);
    }
  }

  lemma StepAfterAt(h: Hash, ss: seq<State>, es: seq<Event>, i: nat)
    requires Run(h, ss, es) && i < |es|
    ensures After(ss[i], ss[i + 1])
  {
    RunInv(h, ss, es, i);
    assert StepAt(h, ss, es, i);
    StepAfter(h, ss[i], es[i]);
  }

  // ---------------------------------------------------------------- content is never lost

  /** The bytes behind a row, as a reader finds them on disk. */
  ghost predicate Readable(h: Hash, s: State, f: FileRef) {
    && f.blob in s.blobs && s.blobs[f.blob].Regular?
    && h(s.blobs[f.blob].content) == f.digest && |s.blobs[f.blob].content| == f.size
  }

  /**
   * In every reachable state each blob named by a live entry or a trash row is named by that row
   * alone, is on disk and has the recorded digest and size; and no live file is above another.
   */
  lemma ContentNeverLost(h: Hash, ss: seq<State>, es: seq<Event>, i: nat)
    requires Run(h, ss, es) && i < |ss|
    ensures OneHolder(ss[i].db) && Antichain(ss[i].db)
    ensures forall p | IsLive(ss[i].db, p) :: Readable(h, ss[i], ss[i].db.entries[p].file)
    ensures forall id | id in ss[i].db.trash :: Readable(h, ss[i], ss[i].db.trash[id].file)
  {
    RunInv(h, ss, es, i);
    var s := ss[i];
    forall f | Held(s.db, f)
      ensures Readable(h, s, f)
    {
      assert Stored(h, s, f);
    }
    assert forall p | IsLive(s.db, p) :: Held(s.db, s.db.entries[p].file);
    assert forall id | id in s.db.trash :: Held(s.db, s.db.trash[id].file);
  }

  /** A blob that awaits its unlink at some point of a run is named by no row from then on. */
  lemma UnlinkedNeverNamedAgain(h: Hash, ss: seq<State>, es: seq<Event>, i: nat, j: nat, n: Name)
    requires Run(h, ss, es) && i <= j < |ss| && n in ss[i].unlinks
    ensures Unheld(ss[j].db, n)
  {
    RunInv(h, ss, es, i);
    StorageSafety.HeldBlobs(ss[i].db, n);
    assert Retired(ss[i], n);
    RunAfter(h, ss, es, i, j);
  }

  /** The transaction that a step applies, if it applies one. */
  ghost function Applied(s: State, e: Event): Option<Transaction> {
    if e.Sql? then Some(e.t) else if e.CommitSql? && s.open.Some? then Some(s.open.value.t) else None
  }

  lemma StepKeepsHeld(h: Hash, s: State, e: Event, f: FileRef)
    requires Inv(h, s) && Enabled(h, s, e) && Held(s.db, f)
    ensures Held(Next(h, s, e).db, f) <==>
              !(Applied(s, e).Some? && Transactions.Loses(s.db, Applied(s, e).value, f))
  {
    if e.Sql? || e.CommitSql? {
      HeldAcross(s, Applied(s, e).value, f);
    } else {
      if !e.Prepare? {
        QuietFrame(h, s, e);
      }
      StorageSafety.UploadsDoNotMatter(s.db, Next(h, s, e).db.uploads);
    }
  }

  lemma HeldAcross(s: State, t: Transaction, f: FileRef)
    requires Good(s.db) && Allowed(s.db, t) && Transactions.FreshFile(s.db, t) && Held(s.db, f)
    ensures Held(Apply(s.db, t), f) <==> !Transactions.Loses(s.db, t, f)
  {
    Transactions.ContentLostExactly(s.db, t, f);
  }

  /**
   * A content that some row names stays named, and on disk, until a step replaces it by a commit at its
   * path or purges it from the trash: no deletion, restoration, folder operation or crash ends it.
   */
  lemma {:induction false} HeldUntilReplacedOrPurged(
    h: Hash, ss: seq<State>, es: seq<Event>, i: nat, j: nat, f: FileRef) returns (k: nat)
    requires Run(h, ss, es) && i <= j < |ss| && Held(ss[i].db, f)
    ensures Held(ss[j].db, f) ==> Readable(h, ss[j], f)
    ensures !Held(ss[j].db, f) ==>
              && i <= k < j && Held(ss[k].db, f) && Applied(ss[k], es[k]).Some?
              && Transactions.Loses(ss[k].db, Applied(ss[k], es[k]).value, f)
    decreases j - i
  {
    k := i;
    if Held(ss[j].db, f) {
      HeldIsReadable(h, ss, es, j, f);
    } else {
      HeldNext(h, ss, es, i, f);
      if Held(ss[i + 1].db, f) {
        k := HeldUntilReplacedOrPurged(h, ss, es, i + 1, j, f);
      }
    }
  }

  lemma HeldIsReadable(h: Hash, ss: seq<State>, es: seq<Event>, j: nat, f: FileRef)
    requires Run(h, ss, es) && j < |ss| && Held(ss[j].db, f)
    ensures Readable(h, ss[j], f)
  {
    RunInv(h, ss, es, j);
    assert Stored(h, ss[j], f);
  }

  lemma HeldNext(h: Hash, ss: seq<State>, es: seq<Event>, i: nat, f: FileRef)
    requires Run(h, ss, es) && i < |es| && Held(ss[i].db, f)
    ensures Held(ss[i + 1].db, f) <==>
              !(Applied(ss[i], es[i]).Some? && Transactions.Loses(ss[i].db, Applied(ss[i], es[i]).value, f))
  {
    RunInv(h, ss, es, i);
    assert StepAt(h, ss, es, i);
    StepKeepsHeld(h, ss[i], es[i], f);
  }

  // ---------------------------------------------------------------- revisions

  /** The step that makes a compare-and-set of `base` at `path` take effect. */
  ghost predicate Accepts(s: State, e: Event, path: Path, base: nat) {
    || (e.Sql? && Transactions.Replaces(e.t, path, base))
    || (e.CommitSql? && s.open.Some? && Transactions.Replaces(s.open.value.t, path, base))
  }

  /** For each path and base revision at most one upload, edit or delete is accepted in a whole run. */
  lemma AcceptedAtMostOnce(h: Hash, ss: seq<State>, es: seq<Event>, i: nat, j: nat, path: Path, base: nat)
    requires Run(h, ss, es) && i < |es| && j < |es|
    requires Accepts(ss[i], es[i], path, base) && Accepts(ss[j], es[j], path, base)
    ensures i == j && Revision(ss[i].db, path) == base < Revision(ss[i + 1].db, path)
  {
    assert StepAt(h, ss, es, i) && StepAt(h, ss, es, j);
    AcceptedReplaces(h, ss, es, i, path, base);
    if i < j {
      AcceptedBlocks(h, ss, es, i, j, path, base);
    } else if j < i {
      AcceptedBlocks(h, ss, es, j, i, path, base);
    }
  }

  /** An accepted compare-and-set was allowed, and its step applied it. */
  lemma AcceptedTransaction(h: Hash, s: State, e: Event, path: Path, base: nat) returns (t: Transaction)
    requires Enabled(h, s, e) && Accepts(s, e, path, base)
    ensures Transactions.Replaces(t, path, base) && Allowed(s.db, t) && Next(h, s, e).db == Apply(s.db, t)
  {
    t := if e.Sql? then e.t else s.open.value.t;
  }

  lemma AcceptedReplaces(h: Hash, ss: seq<State>, es: seq<Event>, i: nat, path: Path, base: nat)
    requires Run(h, ss, es) && i < |es| && Accepts(ss[i], es[i], path, base)
    ensures Revision(ss[i].db, path) == base < Revision(ss[i + 1].db, path)
  {
    RunInv(h, ss, es, i);
    assert StepAt(h, ss, es, i);
    var t := AcceptedTransaction(h, ss[i], es[i], path, base);
    LaterRefl(ss[i + 1].db);
    Transactions.NoLostUpdate(ss[i].db, t, ss[i + 1].db, t, path, base);
  }

  lemma LaterRefl(db: Db)
    ensures Later(db, db)
  {
  }

  lemma RevisionsNeverFall(a: Db, b: Db, p: Path)
    requires Revisions(a) && Later(a, b)
    ensures Revision(a, p) <= Revision(b, p)
  {
  }

  /**
   * Along a run every path keeps its row or gets a revision above everything issued before; revisions
   * of different paths differ, and none exceeds the generation.
   */
  lemma RevisionsStrictlyIncrease(h: Hash, ss: seq<State>, es: seq<Event>, i: nat, j: nat, p: Path, q: Path)
    requires Run(h, ss, es) && i <= j < |ss| && p in ss[j].db.entries
    ensures 1 <= ss[j].db.entries[p].revision <= ss[j].db.generation
    ensures || (p in ss[i].db.entries && ss[i].db.entries[p] == ss[j].db.entries[p])
            || Revision(ss[i].db, p) <= ss[i].db.generation < ss[j].db.entries[p].revision
    ensures q in ss[i].db.entries && ss[i].db.entries[q].revision == ss[j].db.entries[p].revision ==> q == p
  {
    RunInv(h, ss, es, i);
    RunInv(h, ss, es, j);
    RunAfter(h, ss, es, i, j);
    if q in ss[i].db.entries && ss[i].db.entries[q].revision == ss[j].db.entries[p].revision {
      Transactions.RevisionNeverReused(ss[i].db, ss[j].db, q, p);
    }
  }

  lemma AcceptedBlocks(h: Hash, ss: seq<State>, es: seq<Event>, i: nat, j: nat, path: Path, base: nat)
    requires Run(h, ss, es) && i < j < |es| && Accepts(ss[i], es[i], path, base)
    ensures !Accepts(ss[j], es[j], path, base)
  {
    AcceptedReplaces(h, ss, es, i, path, base);
    RunInv(h, ss, es, i + 1);
    RunAfter(h, ss, es, i + 1, j);
    RevisionsNeverFall(ss[i + 1].db, ss[j].db, path);
    if Accepts(ss[j], es[j], path, base) {
      AcceptedReplaces(h, ss, es, j, path, base);
    }
  }

  /** States of a run are states of one history, as manifest pages and folder snapshots need. */
  lemma RunInOrder(h: Hash, ss: seq<State>, es: seq<Event>, times: seq<nat>)
    requires Run(h, ss, es) && forall i | 0 <= i < |times| :: times[i] < |ss|
    requires forall i, j | 0 <= i <= j < |times| :: times[i] <= times[j]
    ensures Manifest.InOrder(seq(|times|, i requires 0 <= i < |times| => ss[times[i]].db))
  {
    forall i | 0 <= i < |times|
      ensures Good(ss[times[i]].db)
    {
      RunInv(h, ss, es, times[i]);
    }
    forall i, j | 0 <= i <= j < |times|
      ensures Later(ss[times[i]].db, ss[times[j]].db)
    {
      RunAfter(h, ss, es, times[i], times[j]);
    }
  }

  /** A client may page at any moments of a run: pages of one generation are exactly the manifest of each of them. */
  lemma PagedManifest(
    h: Hash, ss: seq<State>, es: seq<Event>, times: seq<nat>, pages: seq<Manifest.ManifestPage>, limit: nat, k: nat)
    requires Run(h, ss, es) && (forall i | 0 <= i < |times| :: times[i] < |ss|)
    requires forall i, j | 0 <= i <= j < |times| :: times[i] <= times[j]
    requires Manifest.Paging(seq(|times|, i requires 0 <= i < |times| => ss[times[i]].db), pages, limit)
    requires pages[|pages| - 1].next == None && k < |times|
    requires forall i | 0 <= i < |pages| :: pages[i].generation == pages[0].generation
    ensures Flatten(Manifest.Bodies(pages)) == Manifest.Full(ss[times[k]].db.entries)
    ensures Manifest.IsManifest(ss[times[k]].db.entries, Flatten(Manifest.Bodies(pages)))
  {
    var dbs := seq(|times|, i requires 0 <= i < |times| => ss[times[i]].db);
    RunInOrder(h, ss, es, times);
    Manifest.PagesFormManifest(dbs, pages, limit);
    assert dbs[k] == ss[times[k]].db;
  }

  /** A folder snapshot that still matches later in a run: nothing below the folder changed, or the hash collides. */
  lemma MatchingSnapshot(h: Hash, ss: seq<State>, es: seq<Event>, i: nat, j: nat, dir: Path)
    requires Run(h, ss, es) && i <= j < |ss| && ss[j].db.generation < Snapshot.Pow256(8)
    requires h(Snapshot.Encode(Files(ss[i].db, dir))) == h(Snapshot.Encode(Files(ss[j].db, dir)))
    ensures || Snapshot.FolderUnchanged(ss[i].db, ss[j].db, dir)
            || Snapshot.Collision(h, Snapshot.Encode(Files(ss[i].db, dir)), Snapshot.Encode(Files(ss[j].db, dir)))
  {
    RunInv(h, ss, es, i);
    RunInv(h, ss, es, j);
    RunAfter(h, ss, es, i, j);
    Snapshot.SnapshotPinsFolder(h, ss[i].db, ss[j].db, dir);
  }

  // ---------------------------------------------------------------- one content per path and revision

  /** The content a live row names, by the history of published blobs. */
  ghost function ContentOf(s: State, p: Path): bytes
    requires IsLive(s.db, p) && s.db.entries[p].file.blob in s.published
  {
    s.published[s.db.entries[p].file.blob]
  }

  lemma LiveContent(h: Hash, s: State, p: Path)
    requires Inv(h, s) && IsLive(s.db, p)
    ensures s.db.entries[p].file.blob in s.published
    ensures s.blobs[s.db.entries[p].file.blob] == Regular(ContentOf(s, p))
    ensures |ContentOf(s, p)| == s.db.entries[p].file.size && h(ContentOf(s, p)) == s.db.entries[p].file.digest
  {
  }

  lemma RevisionNamesContent(h: Hash, ss: seq<State>, es: seq<Event>, i: nat, j: nat, p: Path)
    requires Run(h, ss, es) && i <= j < |ss|
    requires IsLive(ss[i].db, p) && IsLive(ss[j].db, p)
    requires ss[i].db.entries[p].revision == ss[j].db.entries[p].revision
    ensures ss[i].db.entries[p] == ss[j].db.entries[p]
    ensures ss[i].db.entries[p].file.blob in ss[i].published && ss[j].db.entries[p].file.blob in ss[j].published
    ensures ContentOf(ss[i], p) == ContentOf(ss[j], p)
  {
    RunInv(h, ss, es, i);
    RunInv(h, ss, es, j);
    RunAfter(h, ss, es, i, j);
    Transactions.RevisionNeverReused(ss[i].db, ss[j].db, p, p);
    LiveContent(h, ss[i], p);
    LiveContent(h, ss[j], p);
  }

  const DOWNLOAD_BYTES := 256 * 1024 * 1024

  /** One pinned chunk: refused unless the revision is still the live one. */
  function Chunk(s: State, p: Path, revision: nat, offset: nat): Option<bytes> {
    if !(p in s.db.entries) || !s.db.entries[p].Live? || s.db.entries[p].revision != revision then None
    else
      var f := s.db.entries[p].file;
      if f.size > DOWNLOAD_BYTES || offset > f.size || f.blob !in s.blobs || !s.blobs[f.blob].Regular? then None
      else
        var content := s.blobs[f.blob].content;
        var count := if f.size - offset < CHUNK_BYTES then f.size - offset else CHUNK_BYTES;
        if offset + count <= |content| then Some(content[offset..offset + count]) else None
  }

  /** A pinned chunk is answered exactly while its revision is live and of a size for the web, with the right bytes. */
  lemma ChunkAnswers(h: Hash, s: State, p: Path, revision: nat, offset: nat)
    requires Inv(h, s)
    ensures Chunk(s, p, revision, offset).Some? <==>
              && p in s.db.entries && s.db.entries[p].Live? && s.db.entries[p].revision == revision
              && offset <= s.db.entries[p].file.size <= 256 * 1024 * 1024
    ensures Chunk(s, p, revision, offset).Some? ==>
              && IsLive(s.db, p) && s.db.entries[p].file.blob in s.published
              && var content, part := ContentOf(s, p), Chunk(s, p, revision, offset).value;
              && part <= content[offset..] && |part| <= 8 * 1024 * 1024
              && (|part| == 8 * 1024 * 1024 || offset + |part| == |content|)
  {
    if IsLive(s.db, p) {
      LiveContent(h, s, p);
    }
  }

  /** A download that asks for consecutive chunks at increasing moments of a run. */
  ghost predicate Downloads(
    ss: seq<State>, times: seq<nat>, parts: seq<bytes>, p: Path, revision: nat)
  {
    && |times| == |parts| && (forall i | 0 <= i < |times| :: times[i] < |ss|)
    && (forall i, j | 0 <= i <= j < |times| :: times[i] <= times[j])
    && (forall i | 0 <= i < |parts| :: Chunk(ss[times[i]], p, revision, |Flatten(parts[..i])|) == Some(parts[i]))
  }

  lemma FlattenSnoc(parts: seq<bytes>, i: nat)
    requires i < |parts|
    ensures Flatten(parts[..i + 1]) == Flatten(parts[..i]) + parts[i]
  {
    assert parts[..i + 1] == parts[..i] + [parts[i]];
    FlattenAppend(parts[..i], [parts[i]]);
    FlattenCons(parts[i], []);
    assert [parts[i]] == [parts[i]] + [];
  }

  lemma ChunkIsSlice(h: Hash, s: State, p: Path, revision: nat, offset: nat, part: bytes)
    requires Inv(h, s) && Chunk(s, p, revision, offset) == Some(part)
    ensures IsLive(s.db, p) && s.db.entries[p].revision == revision && s.db.entries[p].file.blob in s.published
    ensures offset + |part| <= |ContentOf(s, p)| && part == ContentOf(s, p)[offset..offset + |part|]
  {
  }

  /** Whatever happens between its chunks, a download pinned to a revision is a prefix of that one content. */
  lemma {:induction false} DownloadNeverMixes(
    h: Hash, ss: seq<State>, es: seq<Event>, times: seq<nat>, parts: seq<bytes>, p: Path, revision: nat, k: nat)
    requires Run(h, ss, es) && Downloads(ss, times, parts, p, revision) && 0 < k <= |parts|
    ensures IsLive(ss[times[0]].db, p) && ss[times[0]].db.entries[p].file.blob in ss[times[0]].published
    ensures Flatten(parts[..k]) <= ContentOf(ss[times[0]], p)
  {
    var i := k - 1;
    PartOfFirst(h, ss, es, times, parts, p, revision, i);
    FlattenSnoc(parts, i);
    if i > 0 {
      DownloadNeverMixes(h, ss, es, times, parts, p, revision, i);
    } else {
      assert parts[..0] == [];
    }
    PrefixGrows(ContentOf(ss[times[0]], p), Flatten(parts[..i]), parts[i]);
  }

  lemma PrefixGrows(content: bytes, a: bytes, b: bytes)
    requires a <= content && |a| + |b| <= |content| && b == content[|a|..|a| + |b|]
    ensures a + b <= content
  {
  }

  /** Each chunk is a slice of what the first one was cut from. */
  lemma PartOfFirst(
    h: Hash, ss: seq<State>, es: seq<Event>, times: seq<nat>, parts: seq<bytes>, p: Path, revision: nat, i: nat)
    requires Run(h, ss, es) && Downloads(ss, times, parts, p, revision) && i < |parts|
    ensures IsLive(ss[times[0]].db, p) && ss[times[0]].db.entries[p].file.blob in ss[times[0]].published
    ensures var content, offset := ContentOf(ss[times[0]], p), |Flatten(parts[..i])|;
            offset + |parts[i]| <= |content| && parts[i] == content[offset..offset + |parts[i]|]
  {
    RunInv(h, ss, es, times[0]);
    RunInv(h, ss, es, times[i]);
    ChunkIsSlice(h, ss[times[0]], p, revision, |Flatten(parts[..0])|, parts[0]);
    ChunkIsSlice(h, ss[times[i]], p, revision, |Flatten(parts[..i])|, parts[i]);
    RevisionNamesContent(h, ss, es, times[0], times[i], p);
  }

  /** A download as long as the recorded size is that revision's content, with its digest. */
  lemma DownloadComplete(
    h: Hash, ss: seq<State>, es: seq<Event>, times: seq<nat>, parts: seq<bytes>, p: Path, revision: nat)
    requires Run(h, ss, es) && Downloads(ss, times, parts, p, revision) && parts != []
    requires IsLive(ss[times[0]].db, p) && |Flatten(parts)| == ss[times[0]].db.entries[p].file.size
    ensures ss[times[0]].db.entries[p].file.blob in ss[times[0]].published
    ensures Flatten(parts) == ContentOf(ss[times[0]], p) && h(Flatten(parts)) == ss[times[0]].db.entries[p].file.digest
  {
    DownloadNeverMixes(h, ss, es, times, parts, p, revision, |parts|);
    RunInv(h, ss, es, times[0]);
    LiveContent(h, ss[times[0]], p);
    assert parts[..|parts|] == parts;
  }

  // ---------------------------------------------------------------- chunked uploads

  /** The bytes that one step acknowledges for an upload. */
  ghost function AckedBy(s: State, e: Event, id: Name): bytes {
    if e.ChunkAck? && e.id == id && id in s.tasks && s.tasks[id].Writing? then s.tasks[id].written else []
  }

  /** The acknowledged chunks of an upload up to some moment, in order. */
  ghost function Acknowledged(ss: seq<State>, es: seq<Event>, id: Name, i: nat): bytes
    requires |ss| == |es| + 1 && i <= |es|
  {
    if i == 0 then [] else Acknowledged(ss, es, id, i - 1) + AckedBy(ss[i - 1], es[i - 1], id)
  }

  ghost function Acked(s: State, id: Name): bytes {
    if id in s.acked then s.acked[id] else []
  }

  lemma AckedStep(h: Hash, s: State, e: Event, id: Name)
    requires Enabled(h, s, e)
    ensures Acked(Next(h, s, e), id) == Acked(s, id) + AckedBy(s, e, id)
  {
    if !e.ChunkAck? && !e.Insert? {
      if StorageSafety.RequestEvent(e) {
        RequestAckedSame(h, s, e);
      } else {
        AckedSame(h, s, e);
      }
    }
  }

  lemma RequestAckedSame(h: Hash, s: State, e: Event)
    requires Enabled(h, s, e) && StorageSafety.RequestEvent(e) && !e.ChunkAck? && !e.Insert?
    ensures Next(h, s, e).acked == s.acked
  {
    if !StorageSafety.UploadRowEvent(e) && !e.Stage? && !e.RemoveTemp? && !e.Unstage? {
      GuardAckedSame(h, s, e);
    }
  }

  lemma GuardAckedSame(h: Hash, s: State, e: Event)
    requires Enabled(h, s, e)
    requires e.ChunkStart? || e.ChunkData? || e.ChunkStop? || e.FinishStart? || e.FinishEnd? || e.SyncTmp?
    ensures Next(h, s, e).acked == s.acked
  {
  }

  lemma AckedSame(h: Hash, s: State, e: Event)
    requires Enabled(h, s, e) && !StorageSafety.RequestEvent(e)
    ensures Next(h, s, e).acked == s.acked
  {
  }

  lemma {:induction false} AckedIsAcknowledged(h: Hash, ss: seq<State>, es: seq<Event>, id: Name, i: nat)
    requires Run(h, ss, es) && i <= |es|
    ensures Acked(ss[i], id) == Acknowledged(ss, es, id, i)
  {
    if i > 0 {
      AckedIsAcknowledged(h, ss, es, id, i - 1);
      assert StepAt(h, ss, es, i - 1);
      AckedStep(h, ss[i - 1], es[i - 1], id);
    }
  }

  /**
   * Across accepted, rejected and interrupted chunks, resumes and crashes: the recorded offset counts
   * the acknowledged bytes, never exceeds the declared size, and a temporary file that exists starts
   * with exactly those bytes.
   */
  lemma UploadHoldsAcknowledged(h: Hash, ss: seq<State>, es: seq<Event>, id: Name, i: nat)
    requires Run(h, ss, es) && i <= |es| && id in ss[i].db.uploads
    ensures var u, a := ss[i].db.uploads[id], Acknowledged(ss, es, id, i);
            && u.received == |a| <= u.size
            && (id in ss[i].tmp ==> ss[i].tmp[id].Regular? && a <= ss[i].tmp[id].content)
  {
    RunInv(h, ss, es, i);
    AckedIsAcknowledged(h, ss, es, id, i);
    assert UploadOk(ss[i], id);
  }

  /** An upload's row is as it was begun, but for its progress; so is its file once checked. */
  ghost predicate Declared(s: State, id: Name, u: Upload) {
    && id in s.acked
    && (id in s.db.uploads ==>
          var row := s.db.uploads[id]; row == u.(received := row.received, touchedAt := row.touchedAt))
    && (id in s.staged ==> s.staged[id] == Staged(u.digest, u.size))
  }

  lemma DeclaredRow(h: Hash, s: State, e: Event, id: Name, u: Upload)
    requires Requests(h, s) && Enabled(h, s, e) && StorageSafety.UploadRowEvent(e) && Declared(s, id, u)
    ensures Declared(Next(h, s, e), id, u)
  {
  }

  lemma DeclaredStaged(h: Hash, s: State, e: Event, id: Name, u: Upload)
    requires Requests(h, s) && Enabled(h, s, e) && (e.Stage? || e.FinishStart?) && Declared(s, id, u)
    ensures Declared(Next(h, s, e), id, u)
  {
  }

  lemma DeclaredFile(h: Hash, s: State, e: Event, id: Name, u: Upload)
    requires Enabled(h, s, e) && StorageSafety.RequestEvent(e) && Declared(s, id, u)
    requires !StorageSafety.UploadRowEvent(e) && !e.Stage? && !e.FinishStart?
    ensures Declared(Next(h, s, e), id, u)
  {
  }

  /** Steps other than those on uploads at most drop the row, and never stage anything. */
  lemma StagedElsewhere(h: Hash, s: State, e: Event)
    requires Good(s.db) && Enabled(h, s, e) && !StorageSafety.RequestEvent(e)
    ensures var r := Next(h, s, e);
            && r.acked == s.acked && (r.staged == s.staged || r.staged == map[])
            && (forall k | k in r.db.uploads :: k in s.db.uploads && r.db.uploads[k] == s.db.uploads[k])
  {
    if e.Sql? {
      StorageSafety.SqlUploads(s.db, e.t);
    }
  }

  lemma DeclaredStep(h: Hash, s: State, e: Event, id: Name, u: Upload)
    requires Inv(h, s) && Enabled(h, s, e) && Declared(s, id, u)
    ensures Declared(Next(h, s, e), id, u)
  {
    if StorageSafety.UploadRowEvent(e) {
      DeclaredRow(h, s, e, id, u);
    } else if e.Stage? || e.FinishStart? {
      DeclaredStaged(h, s, e, id, u);
    } else if StorageSafety.RequestEvent(e) {
      DeclaredFile(h, s, e, id, u);
    } else {
      StagedElsewhere(h, s, e);
    }
  }

  /** The request that an upload answers never changes while it lasts. */
  lemma {:induction false} DeclaredStays(
    h: Hash, ss: seq<State>, es: seq<Event>, id: Name, u: Upload, i: nat, j: nat)
    requires Run(h, ss, es) && i <= j < |ss| && Declared(ss[i], id, u)
    ensures Declared(ss[j], id, u)
    decreases j
  {
    if i < j {
      DeclaredStays(h, ss, es, id, u, i, j - 1);
      DeclaredNext(h, ss, es, id, u, j - 1);
    }
  }

  lemma DeclaredNext(h: Hash, ss: seq<State>, es: seq<Event>, id: Name, u: Upload, i: nat)
    requires Run(h, ss, es) && i < |es| && Declared(ss[i], id, u)
    ensures Declared(ss[i + 1], id, u)
  {
    RunInv(h, ss, es, i);
    assert StepAt(h, ss, es, i);
    DeclaredStep(h, ss[i], es[i], id, u);
  }

  lemma DeclaredFirst(h: Hash, s: State, e: Event, id: Name)
    requires Inv(h, s) && Enabled(h, s, e) && id !in s.acked && id in Next(h, s, e).acked
    ensures e.Insert? && e.n == id && Declared(Next(h, s, e), id, e.upload)
  {
    if !StorageSafety.RequestEvent(e) {
      StagedElsewhere(h, s, e);
    } else if !e.Insert? && !e.ChunkAck? {
      RequestAckedSame(h, s, e);
    }
  }

  /** Every upload that anything was acknowledged for was begun once, and keeps what it declared then. */
  lemma {:induction false} DeclaredAtInsert(h: Hash, ss: seq<State>, es: seq<Event>, id: Name, i: nat) returns (k: nat)
    requires Run(h, ss, es) && i <= |es| && id in ss[i].acked
    ensures k < i && es[k].Insert? && es[k].n == id && Declared(ss[i], id, es[k].upload)
  {
    RunInv(h, ss, es, 0);
    assert i > 0;
    RunInv(h, ss, es, i - 1);
    assert StepAt(h, ss, es, i - 1);
    if id in ss[i - 1].acked {
      k := DeclaredAtInsert(h, ss, es, id, i - 1);
      DeclaredStep(h, ss[i - 1], es[i - 1], id, es[k].upload);
    } else {
      k := i - 1;
      DeclaredFirst(h, ss[k], es[k], id);
    }
  }

  lemma PublishStep(h: Hash, s: State, e: Event)
    requires Requests(h, s) && Enabled(h, s, e) && e.Prepare? && e.temp in s.tasks
    ensures var a, f, r := Acked(s, e.temp), e.t.file, Next(h, s, e);
            && f.blob in r.published && r.published[f.blob] == a && h(a) == f.digest && |a| == f.size
            && e.temp in s.acked && e.temp in s.staged && s.staged[e.temp] == Staged(f.digest, f.size)
  {
  }

  /**
   * A published upload is exactly its acknowledged chunks, with the digest and size that it declared
   * when it was begun, even if its row has gone since.
   */
  lemma PublishesAcknowledged(h: Hash, ss: seq<State>, es: seq<Event>, id: Name, i: nat) returns (k: nat)
    requires Run(h, ss, es) && i < |es| && es[i].Prepare? && es[i].t.Commit? && es[i].temp == id && id in ss[i].tasks
    ensures var a, f := Acknowledged(ss, es, id, i), es[i].t.file;
            && f.blob in ss[i + 1].published && ss[i + 1].published[f.blob] == a
            && h(a) == f.digest && |a| == f.size
            && k < i && es[k].Insert? && es[k].n == id
            && f.digest == es[k].upload.digest && f.size == es[k].upload.size
  {
    RunInv(h, ss, es, i);
    AckedIsAcknowledged(h, ss, es, id, i);
    assert StepAt(h, ss, es, i);
    PublishStep(h, ss[i], es[i]);
    k := DeclaredAtInsert(h, ss, es, id, i);
  }

  // ---------------------------------------------------------------- what one request executes

  /** The state after a step, if the step is possible. */
  ghost function Taken(h: Hash, s: State, e: Event): Option<State> {
    if Enabled(h, s, e) then Some(Next(h, s, e)) else None
  }

  /** The steps of one request, last one outermost. */
  datatype Trace = Start | Then(before: Trace, e: Event)

  ghost predicate Executes(h: Hash, s: State, trace: Trace, r: State) {
    match trace
    case Start => r == s
    case Then(before, e) => exists m :: Executes(h, s, before, m) && Taken(h, m, e) == Some(r)
  }

  /** Some steps of the machine lead from `s` to `r`. */
  ghost predicate Reaches(h: Hash, s: State, r: State) {
    exists trace :: Executes(h, s, trace, r)
  }

  lemma ReachesSelf(h: Hash, s: State)
    ensures Reaches(h, s, s)
  {
    assert Executes(h, s, Start, s);
  }

  lemma ReachesStep(h: Hash, s: State, e: Event, r: State)
    requires Taken(h, s, e) == Some(r)
    ensures Reaches(h, s, r)
  {
    assert Executes(h, s, Start, s);
    assert Executes(h, s, Then(Start, e), r);
  }

  function Joined(a: Trace, b: Trace): Trace {
    match b
    case Start => a
    case Then(before, e) => Then(Joined(a, before), e)
  }

  lemma {:induction false} ExecutesJoined(h: Hash, s: State, a: Trace, m: State, b: Trace, r: State)
    requires Executes(h, s, a, m) && Executes(h, m, b, r)
    ensures Executes(h, s, Joined(a, b), r)
    decreases b
  {
    if b.Then? {
      var k :| Executes(h, m, b.before, k) && Taken(h, k, b.e) == Some(r);
      ExecutesJoined(h, s, a, m, b.before, k);
    }
  }

  lemma ReachesTransitive(h: Hash, s: State, m: State, r: State)
    requires Reaches(h, s, m) && Reaches(h, m, r)
    ensures Reaches(h, s, r)
  {
    var a :| Executes(h, s, a, m);
    var b :| Executes(h, m, b, r);
    ExecutesJoined(h, s, a, m, b, r);
  }

  lemma {:induction false} ExecutesKeeps(h: Hash, s: State, trace: Trace, r: State)
    requires Inv(h, s) && Executes(h, s, trace, r)
    ensures Inv(h, r) && After(s, r)
  {
    if trace.Then? {
      var m :| Executes(h, s, trace.before, m) && Taken(h, m, trace.e) == Some(r);
      ExecutesKeeps(h, s, trace.before, m);
      StorageSafety.StepKeeps(h, m, trace.e);
      StepAfter(h, m, trace.e);
      AfterTransitive(s, m, r);
    }
  }

  /** Whatever a request does keeps the invariant and leads to a later state. */
  lemma ReachesKeeps(h: Hash, s: State, r: State)
    requires Inv(h, s) && Reaches(h, s, r)
    ensures Inv(h, r) && After(s, r)
  {
    var trace :| Executes(h, s, trace, r);
    ExecutesKeeps(h, s, trace, r);
  }

  // ---------------------------------------------------------------- requests make runs

  lemma RunSnoc(h: Hash, ss: seq<State>, es: seq<Event>, e: Event, r: State)
    requires Run(h, ss, es) && Taken(h, ss[|es|], e) == Some(r)
    ensures Run(h, ss + [r], es + [e])
  {
    forall i: nat
      ensures StepAt(h, ss + [r], es + [e], i)
    {
      assert StepAt(h, ss, es, i);
    }
  }

  /** What a request executes at the end of a run is the end of a longer run. */
  lemma {:induction false} RunExtended(h: Hash, ss: seq<State>, es: seq<Event>, trace: Trace, r: State)
    returns (ss': seq<State>, es': seq<Event>)
    requires Run(h, ss, es) && Executes(h, ss[|es|], trace, r)
    ensures Run(h, ss', es') && ss <= ss' && es <= es' && ss'[|es'|] == r
    decreases trace
  {
    ss', es' := ss, es;
    if trace.Then? {
      var m :| Executes(h, ss[|es|], trace.before, m) && Taken(h, m, trace.e) == Some(r);
      var a, b := RunExtended(h, ss, es, trace.before, m);
      RunSnoc(h, a, b, trace.e, r);
      ss', es' := a + [r], b + [trace.e];
    }
  }

  /** The states between requests that follow each other from the first start. */
  ghost predicate Served(h: Hash, rs: seq<State>) {
    |rs| > 0 && Init(rs[0]) && forall k | 0 <= k < |rs| - 1 :: Reaches(h, rs[k], rs[k + 1])
  }

  ghost predicate Marks(ss: seq<State>, times: seq<nat>, rs: seq<State>) {
    && |times| == |rs| && (forall k | 0 <= k < |times| :: times[k] < |ss| && ss[times[k]] == rs[k])
    && (forall i, j | 0 <= i <= j < |times| :: times[i] <= times[j])
  }

  /** The states between requests are states of one run, in order; so whatever holds of runs holds of them. */
  lemma {:induction false} RequestsAreRun(h: Hash, rs: seq<State>)
    returns (ss: seq<State>, es: seq<Event>, times: seq<nat>)
    requires Served(h, rs)
    ensures Run(h, ss, es) && Marks(ss, times, rs) && times[|rs| - 1] == |es|
  {
    var n := |rs| - 1;
    if n == 0 {
      ss, es, times := rs, [], [0];
    } else {
      assert Served(h, rs[..n]) by {
        assert forall k | 0 <= k < n :: rs[..n][k] == rs[k];
      }
      var a, b, ts := RequestsAreRun(h, rs[..n]);
      assert Reaches(h, rs[n - 1], rs[n - 1 + 1]);
      var trace :| Executes(h, rs[n - 1], trace, rs[n]);
      ss, es := RunExtended(h, a, b, trace, rs[n]);
      times := ts + [|es|];
      assert forall k | 0 <= k < n :: ss[ts[k]] == a[ts[k]];
    }
  }

  /** Pages served at any moments between requests: with one generation they are the manifest of each moment. */
  lemma PagesBetweenRequests(h: Hash, rs: seq<State>, pages: seq<Manifest.ManifestPage>, limit: nat, k: nat)
    requires Served(h, rs) && k < |rs|
    requires Manifest.Paging(seq(|rs|, i requires 0 <= i < |rs| => rs[i].db), pages, limit)
    requires pages[|pages| - 1].next == None
    requires forall i | 0 <= i < |pages| :: pages[i].generation == pages[0].generation
    ensures Flatten(Manifest.Bodies(pages)) == Manifest.Full(rs[k].db.entries)
    ensures Manifest.IsManifest(rs[k].db.entries, Flatten(Manifest.Bodies(pages)))
  {
    var ss, es, times := RequestsAreRun(h, rs);
    assert seq(|rs|, i requires 0 <= i < |rs| => rs[i].db)
        == seq(|times|, i requires 0 <= i < |times| => ss[times[i]].db);
    PagedManifest(h, ss, es, times, pages, limit, k);
  }

  /** After any requests, crashes and recoveries, every row's content is on disk and is that row's alone. */
  lemma RequestsLoseNothing(h: Hash, rs: seq<State>, k: nat)
    requires Served(h, rs) && k < |rs|
    ensures OneHolder(rs[k].db) && Antichain(rs[k].db)
    ensures forall p | IsLive(rs[k].db, p) :: Readable(h, rs[k], rs[k].db.entries[p].file)
    ensures forall id | id in rs[k].db.trash :: Readable(h, rs[k], rs[k].db.trash[id].file)
  {
    var ss, es, times := RequestsAreRun(h, rs);
    ContentNeverLost(h, ss, es, times[k]);
  }
}
