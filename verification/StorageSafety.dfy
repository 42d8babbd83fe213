/** Every step of the storage machine keeps its invariant; what that means for whole runs. */
module StorageSafety {
  import opened Bytes
  import opened Paths
  import opened Tables
  import opened Storage
  import Folders
  import Transactions

  // ---------------------------------------------------------------- framing

  /** Nothing about rows, blobs or their history changed. */
  ghost predicate SameFiles(s: State, r: State) {
    && r.db == s.db.(uploads := r.db.uploads)
    && r.blobs == s.blobs && r.looseBlobs == s.looseBlobs && r.unlinks == s.unlinks
    && r.published == s.published && s.used <= r.used
  }

  /** Nothing about uploads and temporary files changed. */
  ghost predicate SameRequests(s: State, r: State) {
    && r.db.uploads == s.db.uploads && r.tmp == s.tmp && r.looseTmp == s.looseTmp
    && r.staged == s.staged && r.tasks == s.tasks && r.acked == s.acked && s.used <= r.used && (s.up ==> r.up)
  }

  lemma GoodWithoutUploads(db: Db, uploads: map<Name, Upload>)
    requires Good(db)
    ensures Good(db.(uploads := uploads))
  {
  }

  lemma UploadsDoNotMatter(db: Db, uploads: map<Name, Upload>)
    ensures forall f :: Held(db.(uploads := uploads), f) <==> Held(db, f)
    ensures forall n :: Unheld(db.(uploads := uploads), n) <==> Unheld(db, n)
    ensures forall t: Transaction | t.Commit? :: Allowed(db.(uploads := uploads), t) <==> Allowed(db, t)
  {
  }

  lemma FrameFiles(h: Hash, s: State, r: State)
    requires Inv(h, s) && SameFiles(s, r)
    requires r.open == s.open || r.open.None?
    requires r.open.Some? ==> r.open.value.temp !in r.tmp && r.open.value.temp in r.staged
    ensures Good(r.db) && Content(h, r) && Blobs(r) && Opened(h, r)
  {
    GoodWithoutUploads(s.db, r.db.uploads);
    UploadsDoNotMatter(s.db, r.db.uploads);
    assert forall f :: Stored(h, s, f) ==> Stored(h, r, f);
  }

  lemma FrameRequests(h: Hash, s: State, r: State)
    requires Requests(h, s) && SameRequests(s, r)
    ensures Requests(h, r)
  {
  }

  // ---------------------------------------------------------------- uploads and temporary files

  /** A step that leaves a name's file, row, task and history alone leaves its conditions alone. */
  lemma OtherRequest(h: Hash, s: State, r: State, i: Name)
    requires Requests(h, s) && s.used <= r.used
    requires (i in r.tmp <==> i in s.tmp) && (i in r.tmp ==> r.tmp[i] == s.tmp[i])
    requires (i in r.looseTmp <==> i in s.looseTmp) && (i in r.looseTmp ==> r.looseTmp[i] == s.looseTmp[i])
    requires (i in r.tasks <==> i in s.tasks) && (i in r.tasks ==> r.tasks[i] == s.tasks[i])
    requires (i in r.staged <==> i in s.staged) && (i in r.staged ==> r.staged[i] == s.staged[i])
    requires (i in r.acked <==> i in s.acked) && (i in r.acked ==> r.acked[i] == s.acked[i])
    requires (i in r.db.uploads <==> i in s.db.uploads) && (i in r.db.uploads ==> r.db.uploads[i] == s.db.uploads[i])
    ensures i in r.tasks ==> TaskOk(r, i)
    ensures i in r.db.uploads ==> UploadOk(r, i)
    ensures i in r.staged ==> StagedOk(h, r, i)
  {
  }

  /** A step on one name leaves the conditions of all others alone. */
  lemma OthersKept(h: Hash, s: State, r: State, id: Name)
    requires Requests(h, s) && s.used <= r.used
    requires r.tmp - {id} == s.tmp - {id} && r.looseTmp - {id} == s.looseTmp - {id}
    requires r.tasks - {id} == s.tasks - {id} && r.staged - {id} == s.staged - {id}
    requires r.acked - {id} == s.acked - {id} && r.db.uploads - {id} == s.db.uploads - {id}
    ensures forall i | i != id && i in r.tasks :: TaskOk(r, i)
    ensures forall i | i != id && i in r.db.uploads :: UploadOk(r, i)
    ensures forall i | i != id && i in r.staged :: StagedOk(h, r, i)
  {
    forall i | i != id
      ensures i in r.tasks ==> TaskOk(r, i)
      ensures i in r.db.uploads ==> UploadOk(r, i)
      ensures i in r.staged ==> StagedOk(h, r, i)
    {
      SameElsewhere(s.tmp, r.tmp, id, i);
      SameElsewhere(s.looseTmp, r.looseTmp, id, i);
      SameElsewhere(s.tasks, r.tasks, id, i);
      SameElsewhere(s.staged, r.staged, id, i);
      SameElsewhere(s.acked, r.acked, id, i);
      SameElsewhere(s.db.uploads, r.db.uploads, id, i);
      OtherRequest(h, s, r, i);
    }
  }

  lemma SameElsewhere<V>(a: map<Name, V>, b: map<Name, V>, id: Name, i: Name)
    requires b - {id} == a - {id} && i != id
    ensures (i in b <==> i in a) && (i in b ==> b[i] == a[i])
  {
    assert i in b <==> i in b - {id};
    assert i in a <==> i in a - {id};
    assert i in b ==> b[i] == (b - {id})[i];
    assert i in a ==> a[i] == (a - {id})[i];
  }

  lemma StageRequests(h: Hash, s: State, n: Name, content: bytes)
    requires Requests(h, s) && s.up && Fresh(s, n)
    ensures Requests(h, AfterStage(h, s, n, content))
  {
    OthersKept(h, s, AfterStage(h, s, n, content), n);
  }

  lemma UnstageRequests(h: Hash, s: State, n: Name)
    requires Requests(h, s) && n in s.staged && n !in s.tasks
    ensures Requests(h, RemoveTmp(s, n).(staged := s.staged - {n}))
  {
    OthersKept(h, s, RemoveTmp(s, n).(staged := s.staged - {n}), n);
  }

  lemma InsertRequests(h: Hash, s: State, n: Name, upload: Upload)
    requires Requests(h, s) && n in s.staged && n !in s.tasks && n !in s.acked && upload.received == 0
    requires n in s.tmp && s.tmp[n] == Regular([]) && n !in s.looseTmp
    ensures Requests(h, AfterInsert(s, n, upload))
  {
    OthersKept(h, s, AfterInsert(s, n, upload), n);
  }

  lemma TouchRequests(h: Hash, s: State, id: Name, now: int)
    requires Requests(h, s) && id in s.db.uploads
    ensures Requests(h, AfterTouch(s, id, now))
  {
    OthersKept(h, s, AfterTouch(s, id, now), id);
  }

  lemma ChunkStartRequests(h: Hash, s: State, id: Name, offset: nat)
    requires Requests(h, s) && s.up && id !in s.tasks && id in s.db.uploads && s.db.uploads[id].received == offset
    requires id in s.tmp && s.tmp[id].Regular?
    ensures Requests(h, AfterStart(s, id, offset))
  {
    var r := AfterStart(s, id, offset);
    OthersKept(h, s, r, id);
    assert r.tmp[id].content == s.acked[id];
  }

  lemma ChunkDataRequests(h: Hash, s: State, id: Name, piece: bytes)
    requires Requests(h, s) && id in s.tasks && s.tasks[id].Writing? && id in s.tmp && s.tmp[id].Regular?
    requires id in s.db.uploads ==> s.tasks[id].offset + |s.tasks[id].written| + |piece| <= s.db.uploads[id].size
    ensures Requests(h, AfterData(s, id, piece))
  {
    assert TaskOk(s, id);
    OthersKept(h, s, AfterData(s, id, piece), id);
    WritingData(s, id, piece);
  }

  lemma WritingData(s: State, id: Name, piece: bytes)
    requires id in s.tasks && TaskOk(s, id) && s.tasks[id].Writing?
    requires id in s.db.uploads ==> UploadOk(s, id)
    requires id in s.db.uploads ==> s.tasks[id].offset + |s.tasks[id].written| + |piece| <= s.db.uploads[id].size
    ensures var r := AfterData(s, id, piece); TaskOk(r, id) && (id in r.db.uploads ==> UploadOk(r, id))
  {
    var a, w := s.acked[id], s.tasks[id].written;
    assert a + (w + piece) == a + w + piece;
  }

  lemma ChunkAckRequests(h: Hash, s: State, id: Name, now: int)
    requires Requests(h, s) && id in s.tasks && s.tasks[id].Writing?
    requires id in s.db.uploads && s.db.uploads[id].received == s.tasks[id].offset
    ensures Requests(h, AfterAck(s, id, now))
  {
    OthersKept(h, s, AfterAck(s, id, now), id);
  }

  lemma ChunkStopRequests(h: Hash, s: State, id: Name, junk: bytes)
    requires Requests(h, s) && id in s.tasks && s.tasks[id].Writing?
    ensures Requests(h, AfterStop(s, id, junk))
  {
    OthersKept(h, s, AfterStop(s, id, junk), id);
  }

  lemma RemoveTempRequests(h: Hash, s: State, n: Name)
    requires Requests(h, s) && n !in s.db.uploads && n !in s.staged && n !in s.tasks
    ensures Requests(h, RemoveTmp(s, n))
  {
    OthersKept(h, s, RemoveTmp(s, n), n);
  }

  lemma FinishStartRequests(h: Hash, s: State, id: Name)
    requires Requests(h, s) && s.up && id in s.db.uploads && s.db.uploads[id].received == s.db.uploads[id].size
    requires id in s.tmp && s.tmp[id].Regular?
    requires h(s.tmp[id].content) == s.db.uploads[id].digest && |s.tmp[id].content| == s.db.uploads[id].size
    ensures Requests(h, AfterFinishStart(s, id))
  {
    OthersKept(h, s, AfterFinishStart(s, id), id);
    assert s.tmp[id].content == s.acked[id];
  }

  lemma FinishEndRequests(h: Hash, s: State, id: Name)
    requires Requests(h, s) && id in s.tasks && s.tasks[id].Finishing?
    ensures Requests(h, s.(tasks := s.tasks - {id}, staged := s.staged - {id}))
  {
    OthersKept(h, s, s.(tasks := s.tasks - {id}, staged := s.staged - {id}), id);
  }

  lemma SyncTmpRequests(h: Hash, s: State)
    requires Requests(h, s)
    ensures Requests(h, s.(looseTmp := map[]))
  {
  }

  predicate RequestEvent(e: Event) {
    e.Stage? || e.Unstage? || e.Insert? || e.Touch? || e.ChunkStart? || e.ChunkData? || e.ChunkAck? || e.ChunkStop?
    || e.DropUpload? || e.RemoveTemp? || e.FinishStart? || e.FinishEnd? || e.SyncTmp?
  }

  /** Those that change a row of `uploads`. */
  predicate UploadRowEvent(e: Event) {
    e.Insert? || e.Touch? || e.ChunkAck? || e.DropUpload?
  }

  lemma RowStepRequests(h: Hash, s: State, e: Event)
    requires Requests(h, s) && Enabled(h, s, e) && UploadRowEvent(e)
    ensures Requests(h, Next(h, s, e))
  {
    match e
    case Insert(n, upload) => InsertRequests(h, s, n, upload);
    case Touch(id, now) => TouchRequests(h, s, id, now);
    case ChunkAck(id, now) => ChunkAckRequests(h, s, id, now);
    case DropUpload(id) => DropRequests(h, s, Next(h, s, e), {id});
  }

  lemma FileStepRequests(h: Hash, s: State, e: Event)
    requires Requests(h, s) && Enabled(h, s, e) && RequestEvent(e) && !UploadRowEvent(e)
    ensures Requests(h, Next(h, s, e))
  {
    match e
    case Stage(n, content) => StageRequests(h, s, n, content);
    case Unstage(n) => UnstageRequests(h, s, n);
    case ChunkStart(id, offset) => ChunkStartRequests(h, s, id, offset);
    case ChunkData(id, piece) => ChunkDataRequests(h, s, id, piece);
    case ChunkStop(id, junk) => ChunkStopRequests(h, s, id, junk);
    case RemoveTemp(n) => RemoveTempRequests(h, s, n);
    case FinishStart(id) => FinishStartRequests(h, s, id);
    case FinishEnd(id) => FinishEndRequests(h, s, id);
    case SyncTmp => SyncTmpRequests(h, s);
  }

  lemma RowStepFrame(h: Hash, s: State, e: Event)
    requires Enabled(h, s, e) && UploadRowEvent(e)
    ensures SameFiles(s, Next(h, s, e)) && Next(h, s, e).open == s.open && s.open.None?
  {
  }

  lemma FileStepFrame(h: Hash, s: State, e: Event)
    requires Enabled(h, s, e) && RequestEvent(e) && !UploadRowEvent(e)
    ensures SameFiles(s, Next(h, s, e)) && Next(h, s, e).open == s.open && Next(h, s, e).db == s.db
  {
  }

  /** The renamed temporary file of an open commit stays away, and stays accounted for. */
  lemma OpenTempKept(h: Hash, s: State, e: Event, temp: Name)
    requires Requests(h, s) && Enabled(h, s, e) && RequestEvent(e) && !UploadRowEvent(e)
    requires s.open.Some? && s.open.value.temp == temp && temp !in s.tmp && temp in s.staged
    ensures temp !in Next(h, s, e).tmp && temp in Next(h, s, e).staged
  {
    assert StagedOk(h, s, temp);
  }

  /** Receiving, resuming, interrupting and dropping uploads. */
  lemma RequestStepKeeps(h: Hash, s: State, e: Event)
    requires Inv(h, s) && Enabled(h, s, e) && RequestEvent(e)
    ensures Inv(h, Next(h, s, e))
  {
    if UploadRowEvent(e) {
      RowStepRequests(h, s, e);
      RowStepFrame(h, s, e);
    } else {
      FileStepRequests(h, s, e);
      FileStepFrame(h, s, e);
      if s.open.Some? {
        OpenTempKept(h, s, e, s.open.value.temp);
      }
    }
    FrameFiles(h, s, Next(h, s, e));
  }

  // ---------------------------------------------------------------- publication

  lemma PrepareRequests(h: Hash, s: State, temp: Name, t: Transaction)
    requires Requests(h, s) && s.up && temp in s.staged && temp in s.tmp && t.Commit?
    ensures Requests(h, AfterPrepare(s, temp, t))
  {
    OthersKept(h, s, AfterPrepare(s, temp, t), temp);
  }

  /** The renamed file is exactly what the row will promise. */
  lemma PrepareStores(h: Hash, s: State, temp: Name, t: Transaction)
    requires Requests(h, s) && temp in s.staged && temp in s.tmp && t.Commit?
    requires t.file.digest == s.staged[temp].digest && t.file.size == s.staged[temp].size
    ensures Stored(h, AfterPrepare(s, temp, t), t.file)
  {
    assert StagedOk(h, s, temp);
  }

  /** A promise is kept by any step that leaves its blob and its history alone. */
  lemma StoredElsewhere(h: Hash, s: State, r: State, f: FileRef)
    requires Stored(h, s, f)
    requires f.blob in r.published && r.published[f.blob] == s.published[f.blob]
    requires f.blob in r.blobs && r.blobs[f.blob] == s.blobs[f.blob]
    ensures Stored(h, r, f)
  {
  }

  lemma PrepareFiles(h: Hash, s: State, temp: Name, t: Transaction)
    requires Content(h, s) && Blobs(s) && temp in s.tmp && t.Commit? && Fresh(s, t.file.blob)
    ensures Content(h, AfterPrepare(s, temp, t)) && Unheld(s.db, t.file.blob)
  {
    var r, blob := AfterPrepare(s, temp, t), t.file.blob;
    forall f | Held(s.db, f)
      ensures f.blob != blob && Stored(h, r, f)
    {
      assert Stored(h, s, f);
      StoredElsewhere(h, s, r, f);
    }
    HeldBlobs(s.db, blob);
  }

  lemma PrepareBlobs(s: State, temp: Name, t: Transaction)
    requires Blobs(s) && temp in s.tmp && t.Commit? && Fresh(s, t.file.blob)
    ensures Blobs(AfterPrepare(s, temp, t))
  {
  }

  lemma PrepareKeeps(h: Hash, s: State, e: Event)
    requires Inv(h, s) && Enabled(h, s, e) && e.Prepare?
    ensures Inv(h, Next(h, s, e))
  {
    PrepareRequests(h, s, e.temp, e.t);
    PrepareStores(h, s, e.temp, e.t);
    PrepareFiles(h, s, e.temp, e.t);
    PrepareBlobs(s, e.temp, e.t);
  }

  lemma HeldBlobs(db: Db, n: Name)
    requires forall f | Held(db, f) :: f.blob != n
    ensures Unheld(db, n)
  {
  }

  lemma UnheldBlobs(db: Db, n: Name)
    requires Unheld(db, n)
    ensures forall f | Held(db, f) :: f.blob != n
  {
  }

  lemma DroppedGone(h: Hash, s: State, t: Transaction, n: Name)
    requires Good(s.db) && Content(h, s) && Allowed(s.db, t) && Transactions.FreshFile(s.db, t) && n in Dropped(s.db, t)
    ensures n in s.published && forall f | Held(Apply(s.db, t), f) :: f.blob != n
  {
    Transactions.DroppedUnheld(s.db, t, n);
    UnheldBlobs(Apply(s.db, t), n);
    if n !in s.published {
      HeldBlobs(s.db, n);
    }
  }

  /** Content after a transaction: nothing new but the committed file, nothing promised that is dropped. */
  lemma SqlContent(h: Hash, s: State, t: Transaction, r: State)
    requires Good(s.db) && Content(h, s) && Blobs(s) && Allowed(s.db, t) && Transactions.FreshFile(s.db, t)
    requires t.Commit? ==> Stored(h, s, t.file) && t.file.blob !in s.looseBlobs && t.file.blob !in s.unlinks
    requires r.db == Apply(s.db, t) && r.unlinks <= s.unlinks + Dropped(s.db, t)
    requires r.blobs == s.blobs && r.looseBlobs == s.looseBlobs && r.published == s.published && r.used == s.used
    ensures Good(r.db) && Content(h, r) && Blobs(r)
  {
    Transactions.ApplyKeeps(s.db, t);
    Transactions.ApplyHeld(s.db, t);
    forall n | n in Dropped(s.db, t)
      ensures n in s.published && forall f | Held(r.db, f) :: f.blob != n
    {
      DroppedGone(h, s, t, n);
    }
    forall f | Held(r.db, f)
      ensures Stored(h, s, f) && Stored(h, r, f)
    {
      assert (t.Commit? && f == t.file) || Held(s.db, f);
      StoredElsewhere(h, s, r, f);
    }
  }

  lemma DropRequests(h: Hash, s: State, r: State, drop: set<Name>)
    requires Requests(h, s) && s.used == r.used && s.up == r.up
    requires r.db.uploads == s.db.uploads - drop
    requires r.tmp == s.tmp && r.looseTmp == s.looseTmp
    requires r.staged == s.staged && r.tasks == s.tasks && r.acked == s.acked
    ensures Requests(h, r)
  {
  }

  lemma CommitSqlKeeps(h: Hash, s: State, e: Event)
    requires Inv(h, s) && Enabled(h, s, e) && e.CommitSql?
    ensures Inv(h, Next(h, s, e))
  {
    var r, t := Next(h, s, e), s.open.value.t;
    SqlContent(h, s, t, r);
    DropRequests(h, s, r, t.drop);
  }

  lemma SqlUploads(db: Db, t: Transaction)
    requires Good(db) && Allowed(db, t) && !t.Commit?
    ensures Apply(db, t).uploads == db.uploads
  {
    match t
    case RenameFolder(dir, name, now) => Folders.RenameMovesTree(db, dir, name, now);
    case DeleteFolder(dir, now) => Folders.DeleteEmptiesFolder(db, dir, now);
    case _ =>
  }

  lemma SqlKeeps(h: Hash, s: State, t: Transaction)
    requires Inv(h, s) && s.open.None? && !t.Commit? && Allowed(s.db, t)
    ensures Inv(h, s.(db := Apply(s.db, t), unlinks := s.unlinks + Dropped(s.db, t)))
  {
    var r := s.(db := Apply(s.db, t), unlinks := s.unlinks + Dropped(s.db, t));
    SqlContent(h, s, t, r);
    SqlUploads(s.db, t);
    FrameRequests(h, s, r);
  }

  // ---------------------------------------------------------------- directories, crashes, recovery

  lemma RollbackKeeps(h: Hash, s: State)
    requires Inv(h, s)
    ensures Inv(h, s.(open := None))
  {
    FrameRequests(h, s, s.(open := None));
    FrameFiles(h, s, s.(open := None));
  }

  /** Rows keep their promises while blobs that they do not name, and what is unsynced, may change. */
  lemma ContentElsewhere(h: Hash, s: State, r: State)
    requires Content(h, s) && r.db == s.db && r.published == s.published && r.unlinks <= s.unlinks
    requires forall n | n in s.blobs && n in s.published && n !in s.looseBlobs && !Unheld(s.db, n) ::
               n in r.blobs && r.blobs[n] == s.blobs[n] && n !in r.looseBlobs
    ensures Content(h, r)
  {
    forall f | Held(r.db, f)
      ensures Stored(h, r, f) && f.blob !in r.looseBlobs && f.blob !in r.unlinks
    {
      assert Stored(h, s, f);
      assert !Unheld(s.db, f.blob);
      StoredElsewhere(h, s, r, f);
    }
  }

  lemma SyncBlobsKeeps(h: Hash, s: State)
    requires Inv(h, s)
    ensures Inv(h, s.(looseBlobs := map[]))
  {
    var r := s.(looseBlobs := map[]);
    FrameRequests(h, s, r);
    ContentElsewhere(h, s, r);
  }

  lemma RecoveredKeeps(h: Hash, s: State)
    requires Inv(h, s) && s.open.None? && !s.up
    ensures Inv(h, s.(looseBlobs := map[], looseTmp := map[], up := true))
  {
    var r := s.(looseBlobs := map[], looseTmp := map[], up := true);
    ContentElsewhere(h, s, r);
  }

  /** Removing a blob that no row names. */
  lemma RemoveBlobKeeps(h: Hash, s: State, n: Name, r: State)
    requires Inv(h, s) && Unheld(s.db, n) && (s.open.Some? ==> s.open.value.t.file.blob != n)
    requires r == RemoveBlob(s, n).(unlinks := r.unlinks) && r.unlinks <= s.unlinks
    ensures Inv(h, r)
  {
    FrameRequests(h, s, r);
    ContentElsewhere(h, s, r);
  }

  /** A blob that awaits its unlink is named by no row, nor by an open commit. */
  lemma UnlinkKeeps(h: Hash, s: State, n: Name)
    requires Inv(h, s) && n in s.unlinks
    ensures Unheld(s.db, n) && Inv(h, RemoveBlob(s, n).(unlinks := s.unlinks - {n}))
  {
    HeldBlobs(s.db, n);
    RemoveBlobKeeps(h, s, n, RemoveBlob(s, n).(unlinks := s.unlinks - {n}));
  }

  lemma RecoverTempKeeps(h: Hash, s: State, n: Name)
    requires Inv(h, s) && !s.up && s.open.None? && n !in s.db.uploads
    ensures Inv(h, RemoveTmp(s, n))
  {
    RemoveTempRequests(h, s, n);
    FrameFiles(h, s, RemoveTmp(s, n));
  }

  lemma CrashUpload(s: State, blobs: Dir, tmp: Dir, id: Name)
    requires TmpSurvives(s, tmp) && id in s.db.uploads && UploadOk(s, id)
    ensures UploadOk(AfterCrash(s, blobs, tmp), id)
  {
    if id in tmp {
      var before := if id in s.looseTmp then s.looseTmp[id] else s.tmp[id];
      assert KeepsPrefix(before, tmp[id], |s.acked[id]|);
      assert s.acked[id] == before.content[..|s.acked[id]|];
    }
  }

  lemma CrashRequests(h: Hash, s: State, blobs: Dir, tmp: Dir)
    requires Requests(h, s) && TmpSurvives(s, tmp)
    ensures Requests(h, AfterCrash(s, blobs, tmp))
  {
    forall id | id in s.db.uploads
      ensures UploadOk(AfterCrash(s, blobs, tmp), id)
    {
      CrashUpload(s, blobs, tmp, id);
    }
  }

  /** A crash loses no content that a row promises, nor any acknowledged byte that is still on disk. */
  lemma CrashKeeps(h: Hash, s: State, blobs: Dir, tmp: Dir)
    requires Inv(h, s) && BlobsSurvive(s, blobs) && TmpSurvives(s, tmp)
    ensures Inv(h, AfterCrash(s, blobs, tmp))
  {
    CrashRequests(h, s, blobs, tmp);
    ContentElsewhere(h, s, AfterCrash(s, blobs, tmp));
  }

  predicate CrashEvent(e: Event) {
    e.Crash? || e.RecoverBlob? || e.RecoverTemp? || e.Recovered?
  }

  lemma CrashStepKeeps(h: Hash, s: State, e: Event)
    requires Inv(h, s) && Enabled(h, s, e) && CrashEvent(e)
    ensures Inv(h, Next(h, s, e))
  {
    match e
    case RecoverBlob(n) => RemoveBlobKeeps(h, s, n, RemoveBlob(s, n));
    case RecoverTemp(n) => RecoverTempKeeps(h, s, n);
    case Crash(blobs, tmp) => CrashKeeps(h, s, blobs, tmp);
    case Recovered => RecoveredKeeps(h, s);
  }

  lemma CommitStepKeeps(h: Hash, s: State, e: Event)
    requires Inv(h, s) && Enabled(h, s, e) && !RequestEvent(e) && !CrashEvent(e)
    ensures Inv(h, Next(h, s, e))
  {
    match e
    case Prepare(_, _) => PrepareKeeps(h, s, e);
    case CommitSql(_) => CommitSqlKeeps(h, s, e);
    case Sql(t) => SqlKeeps(h, s, t);
    case Unlink(n) => UnlinkKeeps(h, s, n);
    case SyncBlobs => SyncBlobsKeeps(h, s);
    case Rollback => RollbackKeeps(h, s);
  }

  /** The invariant of the whole store, over every step. */
  lemma StepKeeps(h: Hash, s: State, e: Event)
    requires Inv(h, s) && Enabled(h, s, e)
    ensures Inv(h, Next(h, s, e))
  {
    if RequestEvent(e) {
      RequestStepKeeps(h, s, e);
    } else if CrashEvent(e) {
      CrashStepKeeps(h, s, e);
    } else {
      CommitStepKeeps(h, s, e);
    }
  }
}
