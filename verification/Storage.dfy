/**
 * Tables, directories and requests in flight as one state machine. SQL transactions are atomic;
 * renames, directory syncs, commits and unlinks are separate steps, and a crash undoes any
 * directory change that was not synced.
 */
module Storage {
  import opened Bytes
  import opened Paths
  import opened Tables

  const CHUNK_BYTES := 8 * 1024 * 1024

  type Hash = bytes -> Digest

  datatype File = Regular(content: bytes) | Special

  type Dir = map<Name, File>

  /** Digest and size of a complete temporary file, as its request computed them. */
  datatype Staged = Staged(digest: Digest, size: nat)

  /** The holder of an upload guard: a chunk being written, or a publication under way. */
  datatype Task = Writing(offset: nat, written: bytes) | Finishing

  /** A commit between its rename and the end of its SQL transaction; the database lock is held. */
  datatype OpenCommit = OpenCommit(t: Transaction, temp: Name)

  datatype State = State(
    db: Db,
    blobs: Dir,
    tmp: Dir,
    looseBlobs: Dir,              // names created or removed since the last sync, with their content
    looseTmp: Dir,
    open: Option<OpenCommit>,
    unlinks: set<Name>,           // blobs to remove after a committed transaction
    staged: map<Name, Staged>,
    tasks: map<Name, Task>,       // held upload guards
    up: bool,
    used: set<Name>,              // history: every UUID drawn
    published: map<Name, bytes>,  // history: content given to each blob
    acked: map<Name, bytes>)      // history: acknowledged bytes of each upload

  datatype Event =
    | Stage(n: Name, content: bytes)
    | Unstage(n: Name)
    | Insert(n: Name, upload: Upload)
    | Touch(id: Name, now: int)
    | ChunkStart(id: Name, offset: nat)
    | ChunkData(id: Name, piece: bytes)
    | ChunkAck(id: Name, now: int)
    | ChunkStop(id: Name, junk: bytes)
    | DropUpload(id: Name)
    | RemoveTemp(n: Name)
    | FinishStart(id: Name)
    | FinishEnd(id: Name)
    | Prepare(temp: Name, t: Transaction)
    | SyncBlobs
    | SyncTmp
    | CommitSql(reported: bool)
    | Rollback
    | Unlink(n: Name)
    | Sql(t: Transaction)
    | Crash(blobs: Dir, tmp: Dir)
    | RecoverBlob(n: Name)
    | RecoverTemp(n: Name)
    | Recovered

  ghost predicate Fresh(s: State, n: Name) {
    n.Uuid? && n !in s.used && n !in s.blobs && n !in s.tmp && n !in s.looseBlobs && n !in s.looseTmp
  }

  /** `set_len`: truncates, or extends with zeros. */
  function SetLen(content: bytes, n: nat): (r: bytes)
    ensures |r| == n
  {
    if n <= |content| then content[..n] else content + seq(n - |content|, _ => 0)
  }

  function Unsynced(dir: Dir, loose: Dir, n: Name): Dir {
    if n in dir then loose[n := dir[n]] else loose
  }

  /** Unsynced names may be there or not; all others are as they were. */
  ghost predicate BlobsSurvive(s: State, blobs: Dir) {
    && (forall n | n in s.looseBlobs && n in blobs :: blobs[n] == s.looseBlobs[n])
    && (forall n | n !in s.looseBlobs :: (n in blobs <==> n in s.blobs) && (n in blobs ==> blobs[n] == s.blobs[n]))
  }

  ghost predicate KeepsPrefix(before: File, after: File, n: nat) {
    before.Regular? && |before.content| >= n ==>
      after.Regular? && |after.content| >= n && after.content[..n] == before.content[..n]
  }

  /** Temporary files likewise; bytes past an upload's recorded offset may be anything. */
  ghost predicate TmpSurvives(s: State, tmp: Dir) {
    && (forall n | n in tmp :: n in s.tmp || n in s.looseTmp)
    && (forall n | n in s.tmp && n !in s.looseTmp :: n in tmp)
    && (forall n | n in tmp && n in s.db.uploads ::
          KeepsPrefix(if n in s.looseTmp then s.looseTmp[n] else s.tmp[n], tmp[n], s.db.uploads[n].received))
  }

  ghost predicate Stray(db: Db, dir: Dir, n: Name) {
    n.Uuid? && n in dir && dir[n].Regular? && Unheld(db, n)
  }

  ghost predicate StrayTemp(db: Db, dir: Dir, n: Name) {
    n.Uuid? && n in dir && dir[n].Regular? && n !in db.uploads
  }

  ghost predicate Enabled(h: Hash, s: State, e: Event) {
    match e
    case Stage(n, content) => s.up && Fresh(s, n)
    case Unstage(n) => n in s.staged && n !in s.tasks && (s.open.Some? ==> s.open.value.temp != n)
    case Insert(n, upload) =>
      && s.up && s.open.None?
      && n in s.staged && n !in s.tasks && n in s.tmp && s.tmp[n] == Regular([]) && n !in s.looseTmp
      && n !in s.acked && upload.received == 0
      && ValidPath(upload.path) && Clear(s.db, upload.path) && Revision(s.db, upload.path) == upload.base
    case Touch(id, now) => s.open.None? && id in s.db.uploads
    case ChunkStart(id, offset) =>
      && s.up && s.open.None? && id !in s.tasks && id in s.db.uploads
      && s.db.uploads[id].received == offset < s.db.uploads[id].size
      && id in s.tmp && s.tmp[id].Regular?
    case ChunkData(id, piece) =>
      && id in s.tasks && s.tasks[id].Writing? && id in s.tmp && s.tmp[id].Regular?
      && |s.tasks[id].written| + |piece| <= CHUNK_BYTES
      && (id in s.db.uploads ==> s.tasks[id].offset + |s.tasks[id].written| + |piece| <= s.db.uploads[id].size)
    case ChunkAck(id, now) =>
      && s.open.None? && id in s.tasks && s.tasks[id].Writing? && s.tasks[id].written != []
      && id in s.db.uploads && s.db.uploads[id].received == s.tasks[id].offset
    case ChunkStop(id, junk) => id in s.tasks && s.tasks[id].Writing?
    case DropUpload(id) => s.open.None? && id in s.db.uploads
    case RemoveTemp(n) => n !in s.db.uploads && n !in s.staged && n !in s.tasks
    case FinishStart(id) =>
      && s.up && s.open.None? && id !in s.tasks && id in s.db.uploads
      && var u := s.db.uploads[id];
      && u.received == u.size && id in s.tmp && s.tmp[id].Regular?
      && h(s.tmp[id].content) == u.digest && |s.tmp[id].content| == u.size
    case FinishEnd(id) =>
      id in s.tasks && s.tasks[id].Finishing? && (s.open.Some? ==> s.open.value.temp != id)
    case Prepare(temp, t) =>
      && s.up && s.open.None? && temp in s.staged && temp in s.tmp
      && t.Commit? && t.drop <= {temp} && Allowed(s.db, t) && Fresh(s, t.file.blob)
      && t.file.digest == s.staged[temp].digest && t.file.size == s.staged[temp].size
    case SyncBlobs => true
    case SyncTmp => true
    case CommitSql(reported) => // what Prepare checked still holds: the lock excludes other transactions (Opened)
      && s.open.Some? && s.open.value.t.Commit? && Allowed(s.db, s.open.value.t)
      && s.open.value.t.file.blob !in s.looseBlobs && s.open.value.temp !in s.looseTmp
    case Rollback => s.open.Some?
    case Unlink(n) => n in s.unlinks
    case Sql(t) => s.open.None? && !t.Commit? && Allowed(s.db, t) && (s.up || t.PurgeExpired? || t.PurgeItem?)
    case Crash(blobs, tmp) => BlobsSurvive(s, blobs) && TmpSurvives(s, tmp)
    case RecoverBlob(n) => !s.up && s.open.None? && Stray(s.db, s.blobs, n)
    case RecoverTemp(n) => !s.up && s.open.None? && StrayTemp(s.db, s.tmp, n)
    case Recovered =>
      && !s.up && s.open.None?
      && (forall n :: !Stray(s.db, s.blobs, n)) && (forall n :: !StrayTemp(s.db, s.tmp, n))
  }

  function RemoveTmp(s: State, n: Name): State {
    s.(tmp := s.tmp - {n}, looseTmp := Unsynced(s.tmp, s.looseTmp, n))
  }

  function RemoveBlob(s: State, n: Name): State {
    s.(blobs := s.blobs - {n}, looseBlobs := Unsynced(s.blobs, s.looseBlobs, n))
  }

  // ---------------------------------------------------------------- what the steps do

  function AfterStage(h: Hash, s: State, n: Name, content: bytes): State {
    s.(tmp := s.tmp[n := Regular(content)], looseTmp := s.looseTmp[n := Regular(content)],
       staged := s.staged[n := Staged(h(content), |content|)], used := s.used + {n})
  }

  function AfterInsert(s: State, n: Name, upload: Upload): State {
    s.(db := s.db.(uploads := s.db.uploads[n := upload]), staged := s.staged - {n}, acked := s.acked[n := []])
  }

  function AfterTouch(s: State, id: Name, now: int): State
    requires id in s.db.uploads
  {
    s.(db := s.db.(uploads := s.db.uploads[id := s.db.uploads[id].(touchedAt := now)]))
  }

  function AfterStart(s: State, id: Name, offset: nat): State
    requires id in s.tmp && s.tmp[id].Regular?
  {
    s.(tmp := s.tmp[id := Regular(SetLen(s.tmp[id].content, offset))], tasks := s.tasks[id := Writing(offset, [])])
  }

  function AfterData(s: State, id: Name, piece: bytes): State
    requires id in s.tasks && s.tasks[id].Writing? && id in s.tmp && s.tmp[id].Regular?
  {
    s.(tmp := s.tmp[id := Regular(s.tmp[id].content + piece)],
       tasks := s.tasks[id := s.tasks[id].(written := s.tasks[id].written + piece)])
  }

  function AfterAck(s: State, id: Name, now: int): State
    requires id in s.tasks && s.tasks[id].Writing? && id in s.db.uploads
  {
    var u, w := s.db.uploads[id], s.tasks[id].written;
    s.(db := s.db.(uploads := s.db.uploads[id := u.(received := u.received + |w|, touchedAt := now)]),
       tasks := s.tasks - {id},
       acked := s.acked[id := (if id in s.acked then s.acked[id] else []) + w])
  }

  function AfterStop(s: State, id: Name, junk: bytes): State
    requires id in s.tasks && s.tasks[id].Writing?
  {
    s.(tmp := if id in s.tmp && s.tmp[id].Regular?
              then s.tmp[id := Regular(SetLen(s.tmp[id].content, s.tasks[id].offset) + junk)] else s.tmp,
       tasks := s.tasks - {id})
  }

  function AfterFinishStart(s: State, id: Name): State
    requires id in s.db.uploads
  {
    s.(tasks := s.tasks[id := Finishing],
       staged := s.staged[id := Staged(s.db.uploads[id].digest, s.db.uploads[id].size)])
  }

  function AfterPrepare(s: State, temp: Name, t: Transaction): State
    requires temp in s.tmp && t.Commit?
  {
    var file, blob := s.tmp[temp], t.file.blob;
    RemoveTmp(s, temp).(
      blobs := s.blobs[blob := file], looseBlobs := s.looseBlobs[blob := file],
      open := Some(OpenCommit(t, temp)), used := s.used + {blob},
      published := if file.Regular? then s.published[blob := file.content] else s.published)
  }

  function AfterCrash(s: State, blobs: Dir, tmp: Dir): State {
    s.(blobs := blobs, tmp := tmp, looseBlobs := map[], looseTmp := map[], open := None,
       unlinks := {}, staged := map[], tasks := map[], up := false)
  }

  ghost function Next(h: Hash, s: State, e: Event): State
    requires Enabled(h, s, e)
  {
    match e
    case Stage(n, content) => AfterStage(h, s, n, content)
    case Unstage(n) => RemoveTmp(s, n).(staged := s.staged - {n})
    case Insert(n, upload) => AfterInsert(s, n, upload)
    case Touch(id, now) => AfterTouch(s, id, now)
    case ChunkStart(id, offset) => AfterStart(s, id, offset)
    case ChunkData(id, piece) => AfterData(s, id, piece)
    case ChunkAck(id, now) => AfterAck(s, id, now)
    case ChunkStop(id, junk) => AfterStop(s, id, junk)
    case DropUpload(id) => s.(db := s.db.(uploads := s.db.uploads - {id}))
    case RemoveTemp(n) => RemoveTmp(s, n)
    case FinishStart(id) => AfterFinishStart(s, id)
    case FinishEnd(id) => s.(tasks := s.tasks - {id}, staged := s.staged - {id})
    case Prepare(temp, t) => AfterPrepare(s, temp, t)
    case SyncBlobs => s.(looseBlobs := map[])
    case SyncTmp => s.(looseTmp := map[])
    case CommitSql(reported) =>
      var t := s.open.value.t;
      s.(open := None,
         db := Apply(s.db, t), // a reported error may still have committed; then nothing is unlinked
         unlinks := if reported then s.unlinks + Dropped(s.db, t) else s.unlinks)
    case Rollback => s.(open := None)
    case Unlink(n) => RemoveBlob(s, n).(unlinks := s.unlinks - {n})
    case Sql(t) => s.(db := Apply(s.db, t), unlinks := s.unlinks + Dropped(s.db, t))
    case Crash(blobs, tmp) => AfterCrash(s, blobs, tmp)
    case RecoverBlob(n) => RemoveBlob(s, n)
    case RecoverTemp(n) => RemoveTmp(s, n)
    case Recovered => s.(looseBlobs := map[], looseTmp := map[], up := true)
  }

  /** First start: empty tables, and directories that may hold anything. */
  ghost predicate Init(s: State) {
    && s.db == Db(map[], map[], map[], 0)
    && s.looseBlobs == map[] && s.looseTmp == map[] && s.open.None? && s.unlinks == {}
    && s.staged == map[] && s.tasks == map[] && !s.up
    && s.used == {} && s.published == map[] && s.acked == map[]
  }

  // ---------------------------------------------------------------- invariant

  /** The content a row promises is on disk, durably, under the name it gives. */
  ghost predicate Stored(h: Hash, s: State, f: FileRef) {
    && f.blob in s.published && f.blob in s.blobs && s.blobs[f.blob] == Regular(s.published[f.blob])
    && h(s.published[f.blob]) == f.digest && |s.published[f.blob]| == f.size
  }

  ghost predicate Content(h: Hash, s: State) {
    forall f | Held(s.db, f) :: Stored(h, s, f) && f.blob !in s.looseBlobs && f.blob !in s.unlinks
  }

  ghost predicate Blobs(s: State) {
    && (forall n | n in s.published :: n in s.used)
    && (forall n | n in s.unlinks :: n in s.published)
    && (forall n | n in s.published && n in s.blobs :: s.blobs[n] == Regular(s.published[n]))
    && (forall n | n in s.published && n in s.looseBlobs :: s.looseBlobs[n] == Regular(s.published[n]))
  }

  ghost predicate Opened(h: Hash, s: State) {
    s.open.Some? ==>
      var t := s.open.value.t;
      && t.Commit? && Allowed(s.db, t) && Unheld(s.db, t.file.blob)
      && Stored(h, s, t.file) && t.file.blob !in s.unlinks
      && s.open.value.temp !in s.tmp && s.open.value.temp in s.staged && t.drop <= {s.open.value.temp}
  }

  ghost predicate HasPrefix(f: File, a: bytes) {
    f.Regular? && a <= f.content
  }

  ghost predicate UploadOk(s: State, id: Name)
    requires id in s.db.uploads
  {
    && id in s.acked && s.db.uploads[id].received == |s.acked[id]| <= s.db.uploads[id].size
    && (id in s.tmp ==> HasPrefix(s.tmp[id], s.acked[id]) && id !in s.looseTmp)
    && (id in s.looseTmp ==> HasPrefix(s.looseTmp[id], s.acked[id]))
    && (id in s.staged ==>
          id in s.tasks && s.tasks[id].Finishing?
          && s.staged[id] == Staged(s.db.uploads[id].digest, s.db.uploads[id].size))
  }

  ghost predicate TaskOk(s: State, id: Name)
    requires id in s.tasks
  {
    id in s.acked &&
    match s.tasks[id]
    case Writing(offset, written) =>
      && id !in s.staged && |s.acked[id]| == offset
      && id in s.tmp && s.tmp[id] == Regular(s.acked[id] + written)
      && (id in s.db.uploads ==> offset + |written| <= s.db.uploads[id].size)
    case Finishing =>
      && id in s.staged && (id in s.tmp ==> s.tmp[id] == Regular(s.acked[id]))
  }

  ghost predicate StagedOk(h: Hash, s: State, n: Name)
    requires n in s.staged
  {
    && n in s.used && (n in s.acked ==> n in s.tasks)
    && (n in s.tmp ==>
          && s.tmp[n].Regular? && h(s.tmp[n].content) == s.staged[n].digest
          && |s.tmp[n].content| == s.staged[n].size)
  }

  ghost predicate Requests(h: Hash, s: State) {
    && (!s.up ==> s.staged == map[] && s.tasks == map[])
    && (forall id | id in s.acked :: id in s.used)
    && (forall id | id in s.db.uploads :: UploadOk(s, id))
    && (forall id | id in s.tasks :: TaskOk(s, id))
    && (forall n | n in s.staged :: StagedOk(h, s, n))
  }

  ghost predicate Inv(h: Hash, s: State) {
    Good(s.db) && Content(h, s) && Blobs(s) && Opened(h, s) && Requests(h, s)
  }
}
