/** The request handlers of the file store, as they update tables and directories in place. */
module Server {
  import opened Bytes
  import opened Paths
  import opened Tables
  import opened Storage
  import Folders
  import Snapshot

  const UPLOAD_SESSION_SECONDS := 24 * 60 * 60
  const MAX_UPLOADS_PER_DEVICE := 16

  datatype Error = BadRequest | Conflict | NotFound | TooLarge | TooMany | Internal
  datatype Reply<T> = Ok(value: T) | Err(error: Error)

  /** `tx.commit()`: done, rolled back, or done although an error is reported. */
  datatype Outcome = Done | Failed | Uncertain

  // ---------------------------------------------------------------- effects of the handlers on the state

  /** The rename, and both directory syncs: a durable reference must not precede its directory entry. */
  ghost function Renamed(s: Storage.State, temp: Name, t: Transaction): Storage.State
    requires temp in s.tmp && t.Commit?
  {
    var file, blob := s.tmp[temp], t.file.blob;
    s.(blobs := s.blobs[blob := file], looseBlobs := map[], tmp := s.tmp - {temp}, looseTmp := map[],
       open := Some(OpenCommit(t, temp)), used := s.used + {blob},
       published := if file.Regular? then s.published[blob := file.content] else s.published)
  }

  ghost function Committed(s: Storage.State, reported: bool): Storage.State
    requires s.open.Some? && s.open.value.t.Commit? && Allowed(s.db, s.open.value.t)
  {
    var t := s.open.value.t;
    s.(open := None, db := Apply(s.db, t), unlinks := if reported then s.unlinks + Dropped(s.db, t) else s.unlinks)
  }

  /** Blobs removed after their transaction. */
  ghost function Unlinked(s: Storage.State, ns: set<Name>): Storage.State {
    s.(blobs := s.blobs - ns, looseBlobs := s.looseBlobs + (map n | n in ns && n in s.blobs :: s.blobs[n]),
       unlinks := s.unlinks - ns)
  }

  lemma UnlinkedAlso(s: Storage.State, done: set<Name>, n: Name)
    requires n !in done
    ensures Unlinked(s, done + {n}) == var m := Unlinked(s, done); RemoveBlob(m, n).(unlinks := m.unlinks - {n})
  {
    assert s.unlinks - (done + {n}) == s.unlinks - done - {n};
    UnsyncedAlso(s.blobs, s.looseBlobs, done, n);
  }

  lemma UnsyncedAlso(blobs: Dir, loose: Dir, done: set<Name>, n: Name)
    requires n !in done
    ensures blobs - (done + {n}) == blobs - done - {n}
    ensures loose + (map k | k in done + {n} && k in blobs :: blobs[k])
         == Unsynced(blobs - done, loose + (map k | k in done && k in blobs :: blobs[k]), n)
  {
  }

  ghost function CommitEffect(s: Storage.State, temp: Name, t: Transaction, outcome: Outcome): Storage.State
    requires temp in s.tmp && t.Commit? && Allowed(s.db, t)
  {
    var m := Renamed(s, temp, t);
    match outcome
    case Failed => m.(open := None)
    case Uncertain => Committed(m, false)
    case Done => Unlinked(Committed(m, true), Dropped(s.db, t))
  }

  ghost function AfterSql(s: Storage.State, t: Transaction): Storage.State
    requires Allowed(s.db, t)
  {
    s.(db := Apply(s.db, t), unlinks := s.unlinks + Dropped(s.db, t))
  }

  // ---------------------------------------------------------------- effects on uploads

  /** An accepted chunk: the file is cut to the recorded offset, extended, synced, and the offset moves. */
  ghost function Appended(s: Storage.State, id: Name, data: bytes, now: int): Storage.State
    requires id in s.db.uploads && id in s.tmp && s.tmp[id].Regular?
  {
    var u := s.db.uploads[id];
    s.(db := s.db.(uploads := s.db.uploads[id := u.(received := u.received + |data|, touchedAt := now)]),
       tmp := s.tmp[id := Regular(SetLen(s.tmp[id].content, u.received) + data)],
       acked := s.acked[id := (if id in s.acked then s.acked[id] else []) + data])
  }

  /** A rejected or interrupted chunk: only bytes past the recorded offset may be gone. */
  ghost function Truncated(s: Storage.State, id: Name): Storage.State
    requires id in s.db.uploads && id in s.tmp && s.tmp[id].Regular?
  {
    s.(tmp := s.tmp[id := Regular(SetLen(s.tmp[id].content, s.db.uploads[id].received))])
  }

  /** The upload of a device can take a chunk at this offset. */
  ghost predicate Appendable(s: Storage.State, id: Name, device: nat, offset: int) {
    && id !in s.tasks && id in s.db.uploads && s.db.uploads[id].device == device
    && s.db.uploads[id].received == offset < s.db.uploads[id].size && id in s.tmp && s.tmp[id].Regular?
  }

  /** Why a request cannot have the upload: in use, or not the device's. */
  function BusyError(s: Storage.State, id: Name): Error {
    if id in s.tasks then Conflict else NotFound
  }

  predicate OwnUpload(s: Storage.State, id: Name, device: nat) {
    id !in s.tasks && id in s.db.uploads && s.db.uploads[id].device == device
  }

  /** Why a chunk is refused. */
  function ChunkError(s: Storage.State, id: Name, device: nat, offset: int, data: bytes, broken: bool): Error {
    if !OwnUpload(s, id, device) then BusyError(s, id)
    else
      var u := s.db.uploads[id];
      if offset != u.received then Conflict
      else if u.received >= u.size then BadRequest
      else if id !in s.tmp || !s.tmp[id].Regular? then Internal
      else if |data| > CHUNK_BYTES || offset + |data| > u.size then TooLarge
      else if broken then Internal
      else BadRequest
  }

  /** Why an upload cannot be finished yet. */
  function FinishError(s: Storage.State, id: Name, device: nat): Error {
    if !OwnUpload(s, id, device) then BusyError(s, id)
    else if s.db.uploads[id].received != s.db.uploads[id].size then BadRequest
    else Internal
  }

  /** Row and temporary file of an upload gone. */
  ghost function Discarded(s: Storage.State, id: Name): Storage.State {
    RemoveTmp(s, id).(db := s.db.(uploads := s.db.uploads - {id}))
  }

  /** The upload is complete and its file hashes to what was declared. */
  ghost predicate Complete(h: Hash, s: Storage.State, id: Name) {
    && id in s.db.uploads && s.db.uploads[id].received == s.db.uploads[id].size
    && id in s.tmp && s.tmp[id].Regular?
    && h(s.tmp[id].content) == s.db.uploads[id].digest && |s.tmp[id].content| == s.db.uploads[id].size
  }

  /** The row asks for the same content at the same place as the request. */
  predicate SameUpload(u: Upload, row: Upload) {
    !u.web && u.device == row.device && u.path == row.path && u.base == row.base && u.size == row.size
    && u.digest == row.digest
  }

  /** The row a repeated request resumes: the most recently touched equal one. */
  ghost predicate IsPrior(db: Db, row: Upload, prior: Option<Name>) {
    match prior
    case None => forall k | k in db.uploads :: !SameUpload(db.uploads[k], row)
    case Some(id) =>
      && id in db.uploads && SameUpload(db.uploads[id], row)
      && forall k | k in db.uploads && SameUpload(db.uploads[k], row) ::
           db.uploads[k].touchedAt <= db.uploads[id].touchedAt
  }

  predicate Resumable(s: Storage.State, row: Upload, prior: Option<Name>) {
    prior.Some? && prior.value in s.db.uploads && prior.value in s.tmp && s.db.uploads[prior.value].received <= row.size
  }

  function PendingOf(db: Db, device: nat): set<Name> {
    set k | k in db.uploads && db.uploads[k].device == device
  }

  /** A row whose temporary file is gone is dropped before a new upload begins. */
  function Superseded(s: Storage.State, prior: Option<Name>): Storage.State {
    if prior.Some? then s.(db := s.db.(uploads := s.db.uploads - {prior.value})) else s
  }

  /** A new empty temporary file, durable before the row that names it; removed if the row is not stored. */
  function Begun(s: Storage.State, id: Name, row: Upload, stored: bool): Storage.State {
    var empty := Regular([]);
    var m := s.(used := s.used + {id});
    if stored then
      m.(db := s.db.(uploads := s.db.uploads[id := row]), tmp := s.tmp[id := empty], looseTmp := map[],
         acked := s.acked[id := []])
    else
      m.(tmp := s.tmp - {id}, looseTmp := map[id := empty])
  }

  function BeginEffect(s: Storage.State, prior: Option<Name>, id: Name, row: Upload, stored: bool): Storage.State {
    if Resumable(s, row, prior) then
      s.(db := s.db.(uploads := s.db.uploads[prior.value := s.db.uploads[prior.value].(touchedAt := row.touchedAt)]))
    else
      var m := Superseded(s, prior);
      if |PendingOf(m.db, row.device)| >= MAX_UPLOADS_PER_DEVICE then m else Begun(m, id, row, stored)
  }

  function BeginReply(s: Storage.State, prior: Option<Name>, id: Name, row: Upload, stored: bool): Reply<(Name, nat)> {
    if Resumable(s, row, prior) then Ok((prior.value, s.db.uploads[prior.value].received))
    else if |PendingOf(Superseded(s, prior).db, row.device)| >= MAX_UPLOADS_PER_DEVICE then Err(TooMany)
    else if stored then Ok((id, 0)) else Err(Internal)
  }

  /** Idle uploads, and web uploads whose write grant is no longer current. */
  function Stale(db: Db, granted: set<Name>, now: int): set<Name> {
    set k | k in db.uploads
            && (db.uploads[k].touchedAt < now - UPLOAD_SESSION_SECONDS || (db.uploads[k].web && k !in granted))
  }

  /** Rows and temporary files of several uploads gone. */
  ghost function DiscardedAll(s: Storage.State, ids: set<Name>): Storage.State {
    s.(db := s.db.(uploads := s.db.uploads - ids), tmp := s.tmp - ids,
       looseTmp := s.looseTmp + (map n | n in ids && n in s.tmp :: s.tmp[n]))
  }

  lemma DiscardedNone(s: Storage.State)
    ensures DiscardedAll(s, {}) == s
  {
  }

  /** Visiting one more name: it joins the handled ones unless it is to be skipped. */
  lemma VisitOne(done: set<Name>, rest: set<Name>, skip: set<Name>, n: Name)
    requires n in rest && done !! rest
    ensures n in skip ==> done + (rest - {n} - skip) == done + (rest - skip) && done !! rest - {n}
    ensures n !in skip ==>
              && done + {n} + (rest - {n} - skip) == done + (rest - skip) && done + {n} !! rest - {n}
              && |done + {n}| == |done| + 1
  {
  }

  lemma DiscardedAlso(s: Storage.State, done: set<Name>, n: Name)
    requires n !in done
    ensures DiscardedAll(s, done + {n}) == Discarded(DiscardedAll(s, done), n)
  {
    assert s.db.uploads - (done + {n}) == s.db.uploads - done - {n};
    UnsyncedAlso(s.tmp, s.looseTmp, done, n);
  }

  predicate HexDigest(s: bytes) {
    |s| == 64 && forall i | 0 <= i < |s| :: 48 <= s[i] <= 57 || 97 <= s[i] <= 102 || 65 <= s[i] <= 70
  }

  ghost function Guarded(s: Storage.State, id: Name): Storage.State
    requires id in s.db.uploads
  {
    s.(tasks := s.tasks[id := Task.Finishing],
       staged := s.staged[id := Staged(s.db.uploads[id].digest, s.db.uploads[id].size)])
  }

  ghost function Released(s: Storage.State, id: Name): Storage.State {
    s.(tasks := s.tasks - {id}, staged := s.staged - {id})
  }

  ghost function UploadCommit(s: Storage.State, id: Name, blob: Name, now: int): Transaction
    requires id in s.db.uploads
  {
    var u := s.db.uploads[id];
    Commit(u.path, u.base, FileRef(blob, u.digest, u.size), {}, now)
  }

  /** A complete upload of the device, not in use by another request. */
  ghost predicate Finishable(s: Storage.State, id: Name, device: nat) {
    && id !in s.tasks && id in s.db.uploads && s.db.uploads[id].device == device
    && s.db.uploads[id].received == s.db.uploads[id].size && id in s.tmp && s.tmp[id].Regular?
  }

  /**
   * Finishing a complete upload: a corrupt one is discarded, a conflict discards it too; after an
   * internal error the row stays for a retry or the purge.
   */
  ghost function FinishEffect(h: Hash, s: Storage.State, id: Name, blob: Name, now: int, outcome: Outcome)
    : Storage.State
    requires id in s.db.uploads && id in s.tmp
  {
    var t, m := UploadCommit(s, id, blob, now), Guarded(s, id);
    if !Complete(h, s, id) then Discarded(s, id)
    else if !ValidPath(t.path) then Released(m, id)
    else if !Allowed(s.db, t) then Discarded(Released(m, id), id)
    else if outcome.Done? then Discarded(Released(CommitEffect(m, id, t, outcome), id), id)
    else Released(CommitEffect(m, id, t, outcome), id)
  }

  ghost function FinishReply(h: Hash, s: Storage.State, id: Name, blob: Name, now: int, outcome: Outcome): Reply<nat>
    requires id in s.db.uploads
  {
    var t := UploadCommit(s, id, blob, now);
    if !Complete(h, s, id) || !ValidPath(t.path) then Err(BadRequest)
    else if !Allowed(s.db, t) then Err(Conflict)
    else if outcome.Done? then Ok(s.db.generation + 1) else Err(Internal)
  }

  /** The files of a folder that may be changed, or why it may not. */
  ghost function FolderReply(h: Hash, db: Db, dir: Path, snapshot: bytes): Reply<seq<DirectoryFile>> {
    if !ValidPath(dir) || !ValidSecret(snapshot) then Err(BadRequest)
    else if LiveBelow(db, dir) == {} then Err(NotFound)
    else if |LiveBelow(db, dir)| > FILE_LIMIT then Err(TooLarge)
    else if h(Snapshot.Encode(Files(db, dir))) != snapshot then Err(Conflict)
    else Ok(Files(db, dir))
  }

  /** Why a folder that may be changed does not take a new name: a conflict only with a good name. */
  ghost function NameError(db: Db, dir: Path, name: bytes): Error {
    if ValidPath(name) && SLASH !in name && |name| <= MAX_PART && Sibling(dir, name) != dir
       && !(Clear(db, Sibling(dir, name)) && !IsLive(db, Sibling(dir, name)))
    then Conflict else BadRequest
  }

  predicate ValidSecret(s: bytes) {
    |s| == 64 && forall i | 0 <= i < |s| :: 48 <= s[i] <= 57 || 97 <= s[i] <= 102
  }

  class FileServer {
    const hash: Hash
    var db: Db
    var blobs: Dir
    var tmp: Dir
    var looseBlobs: Dir
    var looseTmp: Dir
    var open: Option<OpenCommit>
    var unlinks: set<Name>
    var staged: map<Name, Staged>
    var tasks: map<Name, Task>
    var up: bool
    ghost var used: set<Name>
    ghost var published: map<Name, bytes>
    ghost var acked: map<Name, bytes>

    ghost function State(): Storage.State
      reads this
    {
      Storage.State(
        db, blobs, tmp, looseBlobs, looseTmp, open, unlinks, staged, tasks, up, used, published, acked)
    }

    constructor (hash: Hash, blobs: Dir, tmp: Dir)
      ensures this.hash == hash && this.blobs == blobs && this.tmp == tmp && Init(State())
    {
      this.hash, this.blobs, this.tmp := hash, blobs, tmp;
      db := Db(map[], map[], map[], 0);
      looseBlobs, looseTmp, open, unlinks, staged, tasks := map[], map[], None, {}, map[], map[];
      up, used, published, acked := false, {}, map[], map[];
    }

    /** Walks the path's slashes for a live ancestor, then probes the folder range for a live descendant. */
    method CheckPathNamespace(path: Path) returns (free: bool)
      ensures free <==> Clear(db, path)
    {
      for index := 0 to |path|
        invariant forall q | IsLive(db, q) && |q| < index :: !Below(path, q)
      {
        if path[index] == SLASH && IsLive(db, path[..index]) {
          AncestorsAreAbove(path, path[..index]);
          return false;
        }
        forall q | IsLive(db, q) && |q| == index
          ensures !Below(path, q)
        {
          AncestorsAreAbove(path, q);
        }
      }
      var taken := exists q :: q in db.entries && db.entries[q].Live? && InRange(q, path);
      forall q
        ensures InRange(q, path) <==> Below(q, path)
      {
        RangeIsBelow(q, path);
      }
      forall q | IsLive(db, q)
        ensures !Below(path, q)
      {
        AncestorsAreAbove(path, q);
      }
      free := !taken;
    }

    // ---------------------------------------------------------------- publication

    /** The checks a commit makes under the database lock. */
    method CheckCommit(path: Path, base: nat) returns (r: Reply<()>)
      ensures r == if !ValidPath(path) then Err(BadRequest)
                   else if !(Clear(db, path) && Revision(db, path) == base) then Err(Conflict) else Ok(())
    {
      if !ValidPath(path) {
        return Err(BadRequest);
      }
      var free := CheckPathNamespace(path);
      return if !free || Revision(db, path) != base then Err(Conflict) else Ok(());
    }

    /** `rename` from `tmp` to `blobs`, then a sync of each directory. */
    method MoveSynced(temp: Name, blob: Name)
      requires temp in tmp
      modifies this`tmp, this`blobs, this`looseBlobs, this`looseTmp
      ensures tmp == old(tmp) - {temp} && blobs == old(blobs)[blob := old(tmp)[temp]]
      ensures looseBlobs == looseTmp == map[]
    {
      tmp, blobs := tmp - {temp}, blobs[blob := tmp[temp]];
      looseBlobs := map[];
      looseTmp := map[];
    }

    /** Moves the staged file under its new name; the transaction stays open. */
    method RenameStaged(temp: Name, t: Transaction)
      requires temp in tmp && t.Commit?
      modifies this`tmp, this`blobs, this`looseBlobs, this`looseTmp, this`open, this`used, this`published
      ensures State() == Renamed(old(State()), temp, t)
    {
      var blob := t.file.blob;
      ghost var file := tmp[temp];
      MoveSynced(temp, blob);
      open := Some(OpenCommit(t, temp));
      used := used + {blob};
      published := if file.Regular? then published[blob := file.content] else published;
    }

    /** Ends the open transaction; the blob it replaced is left to unlink when success is reported. */
    method EndCommit(outcome: Outcome) returns (replaced: set<Name>)
      requires open.Some? && open.value.t.Commit? && Allowed(db, open.value.t)
      modifies this
      ensures State() == if outcome.Failed? then old(State()).(open := None) else Committed(old(State()), outcome.Done?)
      ensures replaced == if outcome.Done? then Dropped(old(db), old(open).value.t) else {}
    {
      var t := open.value.t;
      open, replaced := None, {};
      if !outcome.Failed? {
        if outcome.Done? && IsLive(db, t.path) {
          replaced := {db.entries[t.path].file.blob};
        }
        unlinks := unlinks + replaced;
        db := db.(entries := db.entries[t.path := Live(db.generation + 1, t.file, t.now)],
                  uploads := db.uploads - t.drop, generation := db.generation + 1);
      }
    }

    /** Removes blobs one by one after their transaction has committed and the lock is released. */
    method RemoveBlobs(doomed: set<Name>)
      modifies this`blobs, this`looseBlobs, this`unlinks
      ensures State() == Unlinked(old(State()), doomed)
    {
      var rest := doomed;
      ghost var done: set<Name> := {};
      ghost var s := State();
      assert s.blobs - {} == s.blobs && s.unlinks - {} == s.unlinks;
      while rest != {}
        invariant done + rest == doomed && done !! rest
        invariant State() == Unlinked(s, done)
        decreases rest
      {
        var n :| n in rest;
        RemoveOneBlob(n, s, done);
        rest, done := rest - {n}, done + {n};
      }
      assert done == doomed;
    }

    method RemoveOneBlob(n: Name, ghost s: Storage.State, ghost done: set<Name>)
      requires n !in done && State() == Unlinked(s, done)
      modifies this`blobs, this`looseBlobs, this`unlinks
      ensures State() == Unlinked(s, done + {n})
    {
      UnlinkedAlso(s, done, n);
      UnlinkBlob(n);
    }

    method UnlinkBlob(n: Name)
      modifies this`blobs, this`looseBlobs, this`unlinks
      ensures State() == RemoveBlob(old(State()), n).(unlinks := old(unlinks) - {n})
    {
      if n in blobs {
        looseBlobs := looseBlobs[n := blobs[n]];
      }
      blobs := blobs - {n};
      unlinks := unlinks - {n};
    }

    /**
     * `commit_upload_checked`: check, rename, sync both directories, commit, release, unlink.
     * A refused commit changes nothing, nor does a failed rename; an error of the SQL commit leaves
     * the blob for recovery.
     */
    method CommitUpload(
      path: Path, base: nat, temp: Name, file: FileRef, drop: set<Name>, now: int, outcome: Outcome)
      returns (r: Reply<nat>)
      modifies this
      ensures r == old(if !ValidPath(path) then Err(BadRequest)
                       else if !(Clear(db, path) && Revision(db, path) == base) then Err(Conflict)
                       else if temp in tmp && outcome.Done? then Ok(db.generation + 1) else Err(Internal))
      ensures var t := Commit(path, base, file, drop, now);
              State() == if Allowed(old(db), t) && temp in old(tmp)
                         then CommitEffect(old(State()), temp, t, outcome) else old(State())
    {
      var checked := CheckCommit(path, base);
      if checked.Err? {
        return Err(checked.error);
      }
      if temp !in tmp {
        return Err(Internal);
      }
      RenameStaged(temp, Commit(path, base, file, drop, now));
      var replaced := EndCommit(outcome);
      if outcome.Done? {
        RemoveBlobs(replaced);
      }
      r := if outcome.Done? then Ok(db.generation) else Err(Internal);
    }

    // ---------------------------------------------------------------- trash

    /** Compare-and-set deletion; deleting a tombstone again answers with it and changes nothing. */
    method DeleteFile(path: Path, base: nat, now: int) returns (r: Reply<nat>)
      modifies this`db
      ensures db == if Allowed(old(db), Delete(path, base, now))
                    then Apply(old(db), Delete(path, base, now)) else old(db)
      ensures r == old(if !ValidPath(path) then Err(BadRequest)
                       else if path !in db.entries || db.entries[path].revision != base then Err(Conflict)
                       else if db.entries[path].Tombstone? then Ok(base) else Ok(db.generation + 1))
    {
      if !ValidPath(path) {
        return Err(BadRequest);
      }
      if path !in db.entries || db.entries[path].revision != base {
        return Err(Conflict);
      }
      if db.entries[path].Tombstone? {
        return Ok(base);
      }
      var row := TrashRow(path, db.entries[path].file, now, now + RETENTION_SECONDS);
      db := db.(trash := db.trash[NextId(db.trash) := row]);
      db := db.(generation := db.generation + 1);
      db := db.(entries := db.entries[path := Tombstone(db.generation, now)]);
      r := Ok(db.generation);
    }

    method RestoreFile(id: nat, now: int) returns (r: Reply<nat>)
      modifies this`db
      ensures db == if old(Allowed(db, Restore(id, now))) then Apply(old(db), Restore(id, now)) else old(db)
      ensures r.Ok? <==>
                && id in old(db).trash && old(db).trash[id].expiresAt > now && ValidPath(old(db).trash[id].path)
                && Clear(old(db), old(db).trash[id].path) && !IsLive(old(db), old(db).trash[id].path)
      ensures r.Ok? ==>
                && r.value == old(db.generation) + 1 && db.generation == r.value && db.uploads == old(db).uploads
                && db.trash == old(db).trash - {id}
                && db.entries
                == old(db).entries[old(db).trash[id].path := Live(r.value, old(db).trash[id].file, now)]
      ensures r == Err(NotFound) <==> old(id !in db.trash || db.trash[id].expiresAt <= now)
      ensures r.Err? && r != Err(NotFound) ==>
                r.error == if ValidPath(old(db).trash[id].path) then Conflict else BadRequest
    {
      if id !in db.trash || db.trash[id].expiresAt <= now {
        return Err(NotFound);
      }
      var item := db.trash[id];
      if !ValidPath(item.path) {
        return Err(BadRequest);
      }
      var free := CheckPathNamespace(item.path);
      if !free || IsLive(db, item.path) {
        return Err(Conflict);
      }
      db := db.(generation := db.generation + 1);
      db := db.(entries := db.entries[item.path := Live(db.generation, item.file, now)]);
      db := db.(trash := db.trash - {id});
      r := Ok(db.generation);
    }

    /** Deletes the expired rows in one transaction, and unlinks their blobs after it. */
    method PurgeExpiredTrash(now: int) returns (removed: nat)
      modifies this`db, this`unlinks, this`blobs, this`looseBlobs
      ensures var t := PurgeExpired(now);
              State() == Unlinked(AfterSql(old(State()), t), Dropped(old(db), t))
      ensures removed == |set id | id in old(db.trash) && old(db.trash)[id].expiresAt <= now|
    {
      var doomed := set id | id in db.trash && db.trash[id].expiresAt <= now :: db.trash[id].file.blob;
      removed := |set id | id in db.trash && db.trash[id].expiresAt <= now|;
      db := db.(trash := map id | id in db.trash && db.trash[id].expiresAt > now :: db.trash[id]);
      unlinks := unlinks + doomed;
      RemoveBlobs(doomed);
    }

    // ---------------------------------------------------------------- folders

    /** The folder's files, if it may be changed: valid, not empty, within the limit, and still as snapshotted. */
    method CheckedFiles(dir: Path, snapshot: bytes) returns (r: Reply<seq<DirectoryFile>>)
      ensures r == FolderReply(hash, db, dir, snapshot)
      ensures r.Ok? <==> ValidSecret(snapshot) && FolderOk(db, dir) && hash(Snapshot.Encode(Files(db, dir))) == snapshot
      ensures r.Ok? ==> r.value == Files(db, dir)
    {
      if !ValidPath(dir) || !ValidSecret(snapshot) {
        return Err(BadRequest);
      }
      var files := Scan(db, dir);
      if |files| == 0 {
        return Err(NotFound);
      }
      if |files| > FILE_LIMIT {
        return Err(TooLarge);
      }
      var digest := Snapshot.Fingerprint(hash, files);
      return if digest != snapshot then Err(Conflict) else Ok(files);
    }

    /** Moves every file of a folder to a sibling name inside one transaction. */
    method RenameFolderTo(dir: Path, snapshot: bytes, name: bytes, now: int) returns (r: Reply<nat>)
      modifies this`db
      ensures r.Ok? <==>
                && ValidSecret(snapshot) && hash(Snapshot.Encode(Files(old(db), dir))) == snapshot
                && Allowed(old(db), RenameFolder(dir, name, now))
      ensures var target := Sibling(dir, name);
              r.Ok? <==>
                && FolderReply(hash, old(db), dir, snapshot).Ok?
                && ValidPath(name) && SLASH !in name && |name| <= 255
                && target != dir && Clear(old(db), target) && !IsLive(old(db), target)
                && forall i | 0 <= i < |Files(old(db), dir)| ::
                     ValidPath(Dest(Files(old(db), dir)[i].path, dir, target))
      ensures r.Ok? ==> db == Apply(old(db), RenameFolder(dir, name, now)) && r.value == |Files(old(db), dir)|
      ensures r.Err? ==> db == old(db)
      ensures var f := FolderReply(hash, old(db), dir, snapshot);
              r.Err? ==> r.error == if f.Err? then f.error else NameError(old(db), dir, name)
    {
      var checked := CheckedFiles(dir, snapshot);
      if checked.Err? {
        return Err(checked.error);
      }
      var files := checked.value;
      if !ValidPath(name) || SLASH in name || |name| > MAX_PART {
        return Err(BadRequest);
      }
      var target := Sibling(dir, name);
      if target == dir {
        return Err(BadRequest);
      }
      var free := CheckPathNamespace(target);
      if !free || IsLive(db, target) {
        return Err(Conflict);
      }
      if exists i :: 0 <= i < |files| && !ValidPath(Dest(files[i].path, dir, target)) {
        return Err(BadRequest);
      }
      MoveFiles(files, dir, target, now);
      r := Ok(|files|);
    }

    /** The rename loop: bury the old path, publish the new one, two revisions per file. */
    method MoveFiles(files: seq<DirectoryFile>, dir: Path, target: Path, now: int)
      modifies this`db
      ensures db == MoveAll(old(db), files, dir, target, now)
    {
      for i := 0 to |files|
        invariant db == MoveAll(old(db), files[..i], dir, target, now)
      {
        Folders.MoveAllSnoc(old(db), files, dir, target, now, i);
        var f := files[i];
        db := db.(generation := db.generation + 1);
        if f.path in db.entries {
          db := db.(entries := db.entries[f.path := Tombstone(db.generation, now)]);
        }
        db := db.(generation := db.generation + 1);
        db := db.(entries := db.entries[Dest(f.path, dir, target) := Live(db.generation, f.file, now)]);
      }
      assert files[..|files|] == files;
    }

    /** Moves every file of a folder to the trash inside one transaction. */
    method DeleteFolderTree(dir: Path, snapshot: bytes, now: int) returns (r: Reply<nat>)
      modifies this`db
      ensures r.Ok? <==>
                && ValidSecret(snapshot) && hash(Snapshot.Encode(Files(old(db), dir))) == snapshot
                && Allowed(old(db), DeleteFolder(dir, now))
      ensures r.Ok? ==> db == Apply(old(db), DeleteFolder(dir, now)) && r.value == |Files(old(db), dir)|
      ensures r.Err? ==> db == old(db) && r == Err(FolderReply(hash, old(db), dir, snapshot).error)
    {
      var checked := CheckedFiles(dir, snapshot);
      if checked.Err? {
        return Err(checked.error);
      }
      DiscardFiles(checked.value, now);
      r := Ok(|checked.value|);
    }

    method DiscardFiles(files: seq<DirectoryFile>, now: int)
      modifies this`db
      ensures db == DiscardAll(old(db), files, now)
    {
      for i := 0 to |files|
        invariant db == DiscardAll(old(db), files[..i], now)
      {
        Folders.DiscardAllSnoc(old(db), files, now, i);
        var f := files[i];
        var row := TrashRow(f.path, f.file, now, now + RETENTION_SECONDS);
        db := db.(trash := db.trash[NextId(db.trash) := row]);
        db := db.(generation := db.generation + 1);
        if f.path in db.entries {
          db := db.(entries := db.entries[f.path := Tombstone(db.generation, now)]);
        }
      }
      assert files[..|files|] == files;
    }

    // ---------------------------------------------------------------- chunked uploads

    /** Resumes the newest equal upload whose temporary file is still there, or begins a new one. */
    method BeginUpload(device: nat, path: Path, base: int, size: int, digest: bytes, id: Name, stored: bool, now: int)
      returns (r: Reply<(Name, nat)>, ghost prior: Option<Name>)
      modifies this`db, this`tmp, this`looseTmp, this`used, this`acked
      ensures !(ValidPath(path) && base >= 0 && size >= 0 && HexDigest(digest)) ==>
                r == Err(BadRequest) && State() == old(State())
      ensures ValidPath(path) && base >= 0 && size >= 0 && HexDigest(digest) ==>
                if !(Clear(old(db), path) && Revision(old(db), path) == base) then
                  r == Err(Conflict) && State() == old(State())
                else
                  var row := Upload(device, path, base, size, digest, 0, now, false);
                  && IsPrior(old(db), row, prior)
                  && State() == BeginEffect(old(State()), prior, id, row, stored)
                  && r == BeginReply(old(State()), prior, id, row, stored)
    {
      prior := None;
      if !ValidPath(path) || base < 0 || size < 0 || !HexDigest(digest) {
        return Err(BadRequest), None;
      }
      var free := CheckPathNamespace(path);
      if !free || Revision(db, path) != base {
        return Err(Conflict), None;
      }
      var row := Upload(device, path, base, size, digest, 0, now, false);
      var existing := FindPrior(row);
      prior := existing;
      if existing.Some? {
        var k := existing.value;
        if k in tmp && db.uploads[k].received <= size {
          r := Ok((k, db.uploads[k].received));
          db := db.(uploads := db.uploads[k := db.uploads[k].(touchedAt := now)]);
          return;
        }
        db := db.(uploads := db.uploads - {k});
      }
      if |PendingOf(db, device)| >= MAX_UPLOADS_PER_DEVICE {
        return Err(TooMany), prior;
      }
      CreateUpload(id, row, stored);
      r := if stored then Ok((id, 0)) else Err(Internal);
    }

    /** `ORDER BY touched_at DESC LIMIT 1` over the equal uploads. */
    method FindPrior(row: Upload) returns (prior: Option<Name>)
      ensures IsPrior(db, row, prior)
    {
      prior := None;
      var rest := db.uploads.Keys;
      while rest != {}
        invariant rest <= db.uploads.Keys
        invariant prior.None? ==> forall k | k in db.uploads && k !in rest :: !SameUpload(db.uploads[k], row)
        invariant prior.Some? ==>
                    && prior.value in db.uploads && SameUpload(db.uploads[prior.value], row)
                    && forall k | k in db.uploads && k !in rest && SameUpload(db.uploads[k], row) ::
                         db.uploads[k].touchedAt <= db.uploads[prior.value].touchedAt
        decreases rest
      {
        var k :| k in rest;
        if SameUpload(db.uploads[k], row)
           && (prior.None? || db.uploads[k].touchedAt > db.uploads[prior.value].touchedAt) {
          prior := Some(k);
        }
        rest := rest - {k};
      }
    }

    /** Creates the file, syncs it and its directory, then stores the row. */
    method CreateUpload(id: Name, row: Upload, stored: bool)
      modifies this`db, this`tmp, this`looseTmp, this`used, this`acked
      ensures State() == Begun(old(State()), id, row, stored)
    {
      tmp := tmp[id := Regular([])];
      used := used + {id};
      looseTmp := map[];
      if stored {
        db := db.(uploads := db.uploads[id := row]);
        acked := acked[id := []];
      } else {
        looseTmp := looseTmp[id := Regular([])];
        tmp := tmp - {id};
        assert tmp == old(tmp) - {id};
      }
    }

    /** Removes stale uploads one by one, but none that a request is using. */
    method PurgeUploads(granted: set<Name>, now: int) returns (removed: nat)
      modifies this`db, this`tmp, this`looseTmp
      ensures State() == DiscardedAll(old(State()), Stale(old(db), granted, now) - tasks.Keys)
      ensures removed == |Stale(old(db), granted, now) - tasks.Keys|
    {
      removed := RemoveUploads(Stale(db, granted, now), tasks.Keys);
    }

    method RemoveUploads(stale: set<Name>, active: set<Name>) returns (removed: nat)
      modifies this`db, this`tmp, this`looseTmp
      ensures State() == DiscardedAll(old(State()), stale - active)
      ensures removed == |stale - active|
    {
      ghost var s := State();
      var rest := stale;
      ghost var done: set<Name> := {};
      removed := 0;
      DiscardedNone(s);
      while rest != {}
        invariant done !! rest && done + (rest - active) == stale - active
        invariant removed == |done|
        invariant State() == DiscardedAll(s, done)
        decreases rest
      {
        var n :| n in rest;
        VisitOne(done, rest, active, n);
        if n !in active {
          RemoveStale(n, s, done);
          removed := removed + 1;
          done := done + {n};
        }
        rest := rest - {n};
      }
      assert done == stale - active;
    }

    method RemoveStale(n: Name, ghost s: Storage.State, ghost done: set<Name>)
      requires n !in done && State() == DiscardedAll(s, done)
      modifies this`db, this`tmp, this`looseTmp
      ensures State() == DiscardedAll(s, done + {n})
    {
      DiscardedAlso(s, done, n);
      DropRow(n);
    }

    /** Writes a chunk past the recorded offset, piece by piece, and acknowledges it only when it is synced. */
    method UploadChunk(id: Name, device: nat, offset: int, pieces: seq<bytes>, broken: bool, now: int)
      returns (r: Reply<nat>)
      modifies this
      ensures r.Ok? <==>
                && Appendable(old(State()), id, device, offset) && !broken
                && 0 < |Flatten(pieces)| <= CHUNK_BYTES && offset + |Flatten(pieces)| <= old(db.uploads[id].size)
      ensures r.Ok? ==>
                r.value == offset + |Flatten(pieces)| && State() == Appended(old(State()), id, Flatten(pieces), now)
      ensures r.Err? ==>
                && r.error == ChunkError(old(State()), id, device, offset, Flatten(pieces), broken)
                && State() == if Appendable(old(State()), id, device, offset)
                              then Truncated(old(State()), id) else old(State())
    {
      if id in tasks {
        return Err(Conflict);
      }
      if id !in db.uploads || db.uploads[id].device != device {
        return Err(NotFound);
      }
      var u := db.uploads[id];
      if offset != u.received {
        return Err(Conflict);
      }
      if u.size - u.received <= 0 {
        return Err(BadRequest);
      }
      if id !in tmp || !tmp[id].Regular? {
        return Err(Internal);
      }
      var kept := SetLen(tmp[id].content, u.received);
      var limit := if u.size - u.received < CHUNK_BYTES then u.size - u.received else CHUNK_BYTES;
      var fits, written := Receive(pieces, limit);
      if !fits || broken || written == [] {
        tmp := tmp[id := Regular(kept)];
        return Err(if !fits then TooLarge else if broken then Internal else BadRequest);
      }
      StoreChunk(id, kept, written, now);
      r := Ok(u.received + |written|);
    }

    /** The written bytes are on disk, then the recorded offset moves. */
    method StoreChunk(id: Name, kept: bytes, written: bytes, now: int)
      requires id in db.uploads && id in tmp && tmp[id].Regular?
      requires kept == SetLen(tmp[id].content, db.uploads[id].received)
      modifies this`tmp, this`db, this`acked
      ensures State() == Appended(old(State()), id, written, now)
    {
      var u := db.uploads[id];
      tmp := tmp[id := Regular(kept + written)];
      db := db.(uploads := db.uploads[id := u.(received := u.received + |written|, touchedAt := now)]);
      acked := acked[id := (if id in acked then acked[id] else []) + written];
    }

    /** `finish_upload`: integrity check, publication, and clean-up. */
    method FinishUpload(id: Name, device: nat, blob: Name, now: int, outcome: Outcome) returns (r: Reply<nat>)
      modifies this
      ensures !Finishable(old(State()), id, device) ==>
                r == Err(FinishError(old(State()), id, device)) && State() == old(State())
      ensures Finishable(old(State()), id, device) ==>
                && State() == FinishEffect(hash, old(State()), id, blob, now, outcome)
                && r == FinishReply(hash, old(State()), id, blob, now, outcome)
    {
      if id in tasks {
        return Err(Conflict);
      }
      if id !in db.uploads || db.uploads[id].device != device {
        return Err(NotFound);
      }
      var u := db.uploads[id];
      if u.received != u.size {
        return Err(BadRequest);
      }
      if id !in tmp || !tmp[id].Regular? {
        return Err(Internal);
      }
      if hash(tmp[id].content) != u.digest || |tmp[id].content| != u.size {
        DropRow(id);
        return Err(BadRequest);
      }
      r := PublishUpload(id, blob, now, outcome);
    }

    /** Publishes a checked upload under its guard, and drops it unless the error may pass. */
    method PublishUpload(id: Name, blob: Name, now: int, outcome: Outcome) returns (r: Reply<nat>)
      requires id !in tasks && Complete(hash, State(), id)
      modifies this
      ensures State() == FinishEffect(hash, old(State()), id, blob, now, outcome)
      ensures r == FinishReply(hash, old(State()), id, blob, now, outcome)
    {
      var u := db.uploads[id];
      Acquire(id);
      r := CommitUpload(u.path, u.base, id, FileRef(blob, u.digest, u.size), {}, now, outcome);
      Release(id);
      if r.Ok? || r == Err(Conflict) {
        DropRow(id);
      }
    }

    method Acquire(id: Name)
      requires id in db.uploads
      modifies this`tasks, this`staged
      ensures State() == Guarded(old(State()), id)
    {
      tasks := tasks[id := Task.Finishing];
      staged := staged[id := Staged(db.uploads[id].digest, db.uploads[id].size)];
    }

    method Release(id: Name)
      modifies this`tasks, this`staged
      ensures State() == Released(old(State()), id)
    {
      tasks, staged := tasks - {id}, staged - {id};
    }

    method DropRow(id: Name)
      modifies this`db, this`tmp, this`looseTmp
      ensures State() == Discarded(old(State()), id)
    {
      db := db.(uploads := db.uploads - {id});
      if id in tmp {
        looseTmp := looseTmp[id := tmp[id]];
      }
      tmp := tmp - {id};
    }

    // ---------------------------------------------------------------- startup recovery

    /** Removes the unreferenced generated files of both directories, and nothing else. */
    method RecoverStorage() returns (removed: nat)
      modifies this`blobs, this`tmp, this`looseBlobs, this`looseTmp, this`up
      ensures blobs == map n | n in old(blobs) && !Stray(db, old(blobs), n) :: old(blobs)[n]
      ensures tmp == map n | n in old(tmp) && !StrayTemp(db, old(tmp), n) :: old(tmp)[n]
      ensures looseBlobs == map[] && looseTmp == map[] && up
      ensures removed == |old(blobs)| - |blobs| + |old(tmp)| - |tmp|
    {
      var a, b;
      blobs, a := Sweep(blobs, Referenced(db));
      looseBlobs := map[];
      tmp, b := Sweep(tmp, db.uploads.Keys);
      looseTmp := map[];
      up := true;
      removed := a + b;
    }
  }

  /** The body loop of a chunk: stops as soon as the pieces exceed the limit. */
  method Receive(pieces: seq<bytes>, limit: nat) returns (fits: bool, written: bytes)
    ensures fits <==> |Flatten(pieces)| <= limit
    ensures fits ==> written == Flatten(pieces)
  {
    written := [];
    for i := 0 to |pieces|
      invariant |written| <= limit && written + Flatten(pieces[i..]) == Flatten(pieces)
    {
      assert pieces[i..] == [pieces[i]] + pieces[i + 1..];
      FlattenCons(pieces[i], pieces[i + 1..]);
      if |written| + |pieces[i]| > limit {
        return false, written;
      }
      written := written + pieces[i];
    }
    assert written + [] == written;
    fits := true;
  }

  /** The blobs that entries and trash name. */
  function Referenced(db: Db): (r: set<Name>)
    ensures forall n :: n in r <==> !Unheld(db, n)
  {
    (set p | p in db.entries && db.entries[p].Live? :: db.entries[p].file.blob)
    + set id | id in db.trash :: db.trash[id].file.blob
  }

  /** One directory of the recovery loop: visits every name once. */
  method Sweep(dir: Dir, referenced: set<Name>) returns (kept: Dir, removed: nat)
    ensures kept == map n | n in dir && !(n.Uuid? && n !in referenced && dir[n].Regular?) :: dir[n]
    ensures removed == |dir| - |kept|
  {
    kept, removed := dir, 0;
    var rest := dir.Keys;
    while rest != {}
      invariant rest <= dir.Keys && removed == |dir| - |kept|
      invariant forall n :: n in kept <==>
                  n in dir && (n in rest || !(n.Uuid? && n !in referenced && dir[n].Regular?))
      invariant forall n | n in kept :: kept[n] == dir[n]
      decreases rest
    {
      var n :| n in rest;
      if n.Uuid? && n !in referenced && dir[n].Regular? {
        assert |kept.Keys - {n}| == |kept.Keys| - 1;
        assert (kept - {n}).Keys == kept.Keys - {n};
        kept := kept - {n};
        removed := removed + 1;
      }
      rest := rest - {n};
    }
  }
}
