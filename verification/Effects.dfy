/** What each handler of the file store changes, and what it leaves alone. */
module Effects {
  import opened Bytes
  import opened Paths
  import opened Tables
  import opened Storage
  import opened Server
  import Snapshot
  import TpmArea

  // ---------------------------------------------------------------- publication

  /** Everything but one blob and one temporary file is as it was. */
  ghost predicate Elsewhere(s: Storage.State, r: Storage.State, blob: Name, temp: Name) {
    && (forall n | n != blob :: n in r.tmp <==> n in s.tmp && n != temp)
    && (forall n | n in r.tmp && n != blob :: r.tmp[n] == s.tmp[n])
    && r.open.None? && r.up == s.up && r.acked == s.acked && r.tasks == s.tasks && r.staged == s.staged
  }

  /** A commit that is reported: the row, and the renamed file. */
  lemma CommitDone(s: Storage.State, temp: Name, t: Transaction)
    requires t.Commit? && Allowed(s.db, t) && temp in s.tmp && Fresh(s, t.file.blob) && Unheld(s.db, t.file.blob)
    ensures var r := CommitEffect(s, temp, t, Done);
            && r.db.entries == s.db.entries[t.path := Live(s.db.generation + 1, t.file, t.now)]
            && r.db.trash == s.db.trash && r.db.uploads == s.db.uploads - t.drop
            && r.db.generation == s.db.generation + 1 && Elsewhere(s, r, t.file.blob, temp)
  {
  }

  /** Of the blobs, the new one comes and the replaced one goes. */
  lemma CommitDoneBlobs(s: Storage.State, temp: Name, t: Transaction, n: Name)
    requires t.Commit? && Allowed(s.db, t) && temp in s.tmp && Fresh(s, t.file.blob) && Unheld(s.db, t.file.blob)
    ensures var r := CommitEffect(s, temp, t, Done);
            && t.file.blob in r.blobs && r.blobs[t.file.blob] == s.tmp[temp]
            && (n != t.file.blob ==>
                  && (n in r.blobs <==>
                        n in s.blobs && !(t.path in s.db.entries && s.db.entries[t.path].Live?
                                          && s.db.entries[t.path].file.blob == n))
                  && (n in r.blobs ==> r.blobs[n] == s.blobs[n]))
  {
    DroppedByCommit(s.db, t);
  }

  lemma DroppedByCommit(db: Db, t: Transaction)
    requires t.Commit? && Allowed(db, t)
    ensures forall n :: n in Dropped(db, t) <==>
              t.path in db.entries && db.entries[t.path].Live? && db.entries[t.path].file.blob == n
  {
  }

  /** A commit whose SQL fails: no row changes, and no blob goes; only the file has moved. */
  lemma CommitNotDone(s: Storage.State, temp: Name, t: Transaction, outcome: Outcome)
    requires t.Commit? && Allowed(s.db, t) && temp in s.tmp && Fresh(s, t.file.blob) && !outcome.Done?
    ensures var r := CommitEffect(s, temp, t, outcome);
            && r.blobs == s.blobs[t.file.blob := s.tmp[temp]] && Elsewhere(s, r, t.file.blob, temp)
            && r.unlinks == s.unlinks
            && (outcome.Failed? ==> r.db == s.db)
            && (outcome.Uncertain? ==>
                  && r.db.entries == s.db.entries[t.path := Live(s.db.generation + 1, t.file, t.now)]
                  && r.db.trash == s.db.trash && r.db.uploads == s.db.uploads - t.drop
                  && r.db.generation == s.db.generation + 1)
  {
  }

  // ---------------------------------------------------------------- uploads

  /** All uploads and temporary files but one are as they were. */
  ghost predicate OtherUploads(s: Storage.State, r: Storage.State, id: Name) {
    && (forall n | n != id :: (n in r.db.uploads <==> n in s.db.uploads) && (n in r.tmp <==> n in s.tmp))
    && (forall n | n != id && n in r.db.uploads :: r.db.uploads[n] == s.db.uploads[n])
    && (forall n | n != id && n in r.tmp :: r.tmp[n] == s.tmp[n])
    && (forall n | n != id :: n in r.tasks <==> n in s.tasks)
  }

  /** Rows and blobs are as they were. */
  ghost predicate SameStore(s: Storage.State, r: Storage.State) {
    && r.db.entries == s.db.entries && r.db.trash == s.db.trash && r.db.generation == s.db.generation
    && r.blobs == s.blobs && r.unlinks == s.unlinks && r.open == s.open && r.up == s.up
  }

  lemma SetLenKeeps(content: bytes, n: nat)
    ensures forall i | 0 <= i < n :: SetLen(content, n)[i] == if i < |content| then content[i] else 0
  {
  }

  /** An accepted chunk: the bytes up to the offset stay, the chunk follows, the offset moves by its length. */
  lemma AppendedChunk(s: Storage.State, id: Name, data: bytes, now: int)
    requires id in s.db.uploads && id in s.tmp && s.tmp[id].Regular?
    ensures var r, u := Appended(s, id, data, now), s.db.uploads[id];
            && SameStore(s, r) && OtherUploads(s, r, id) && r.tasks == s.tasks
            && id in r.db.uploads && r.db.uploads[id] == u.(received := u.received + |data|, touchedAt := now)
            && id in r.tmp && r.tmp[id].Regular?
            && |r.tmp[id].content| == u.received + |data| && r.tmp[id].content[u.received..] == data
            && (u.received <= |s.tmp[id].content| ==>
                  r.tmp[id].content[..u.received] == s.tmp[id].content[..u.received])
  {
  }

  /** A refused chunk: no row changes, and the file keeps the bytes up to the offset. */
  lemma TruncatedChunk(s: Storage.State, id: Name)
    requires id in s.db.uploads && id in s.tmp && s.tmp[id].Regular?
    ensures var r, u := Truncated(s, id), s.db.uploads[id];
            && SameStore(s, r) && OtherUploads(s, r, id) && r.db == s.db && r.tasks == s.tasks && r.acked == s.acked
            && id in r.tmp && r.tmp[id].Regular? && |r.tmp[id].content| == u.received
            && (u.received <= |s.tmp[id].content| ==> r.tmp[id].content == s.tmp[id].content[..u.received])
  {
  }

  /** A corrupt or conflicting upload goes, with its file; nothing is published. */
  lemma FinishRefused(h: Hash, s: Storage.State, id: Name, blob: Name, now: int, outcome: Outcome)
    requires id in s.db.uploads && id in s.tmp && id !in s.tasks && id !in s.staged && s.tmp[id].Regular?
    requires var u := s.db.uploads[id];
             || h(s.tmp[id].content) != u.digest || |s.tmp[id].content| != u.size
             || (ValidPath(u.path) && !(Clear(s.db, u.path) && Revision(s.db, u.path) == u.base))
    requires s.db.uploads[id].received == s.db.uploads[id].size
    ensures var r := FinishEffect(h, s, id, blob, now, outcome);
            && SameStore(s, r) && OtherUploads(s, r, id)
            && id !in r.db.uploads && id !in r.tmp && id !in r.tasks && id !in r.staged
            && FinishReply(h, s, id, blob, now, outcome).Err?
  {
  }

  /** An upload whose SQL commit fails keeps its row, for a retry or the purge. */
  lemma FinishFailed(h: Hash, s: Storage.State, id: Name, blob: Name, now: int)
    requires id in s.db.uploads && id in s.tmp && s.tmp[id].Regular? && Fresh(s, blob) && Complete(h, s, id)
    requires Allowed(s.db, UploadCommit(s, id, blob, now))
    ensures var r := FinishEffect(h, s, id, blob, now, Failed);
            && r.db == s.db && id !in r.tmp && r.blobs == s.blobs[blob := s.tmp[id]]
            && id !in r.tasks && FinishReply(h, s, id, blob, now, Failed) == Err(Internal)
  {
  }

  /** The upload's row, file, guard and digest are gone from the committed state; nothing else of uploads is. */
  lemma ReleasedAndDiscarded(e: Storage.State, id: Name)
    ensures var r := Discarded(Released(e, id), id);
            && id !in r.db.uploads && id !in r.tmp && id !in r.tasks && id !in r.staged && OtherUploads(e, r, id)
            && r.db.entries == e.db.entries && r.db.trash == e.db.trash && r.db.generation == e.db.generation
            && r.blobs == e.blobs
  {
  }

  lemma GuardedOnly(s: Storage.State, id: Name)
    requires id in s.db.uploads
    ensures var m := Guarded(s, id);
            && m == s.(tasks := m.tasks, staged := m.staged)
            && (forall n | n != id :: n in m.tasks <==> n in s.tasks)
  {
  }

  lemma FinishDoneIs(h: Hash, s: Storage.State, id: Name, blob: Name, now: int)
    requires id in s.db.uploads && id in s.tmp && FinishReply(h, s, id, blob, now, Done).Ok?
    ensures FinishReply(h, s, id, blob, now, Done) == Ok(s.db.generation + 1)
    ensures var t, u := UploadCommit(s, id, blob, now), s.db.uploads[id];
            && Allowed(s.db, t) && t == Commit(u.path, u.base, FileRef(blob, u.digest, u.size), {}, now)
            && FinishEffect(h, s, id, blob, now, Done)
            == Discarded(Released(CommitEffect(Guarded(s, id), id, t, Done), id), id)
  {
  }

  /** A published upload is gone as an upload, and its row is the one published. */
  lemma FinishDone(h: Hash, s: Storage.State, id: Name, blob: Name, now: int)
    requires id in s.db.uploads && id in s.tmp
    requires FinishReply(h, s, id, blob, now, Done).Ok? && Fresh(s, blob) && Unheld(s.db, blob)
    ensures var r, u := FinishEffect(h, s, id, blob, now, Done), s.db.uploads[id];
            && id !in r.db.uploads && id !in r.tmp && id !in r.tasks && id !in r.staged
            && r.db.entries == s.db.entries[u.path := Live(s.db.generation + 1, FileRef(blob, u.digest, u.size), now)]
            && r.db.trash == s.db.trash && r.db.generation == s.db.generation + 1
            && FinishReply(h, s, id, blob, now, Done) == Ok(r.db.generation)
  {
    FinishDoneIs(h, s, id, blob, now);
    GuardedCommit(s, Guarded(s, id), id, UploadCommit(s, id, blob, now));
    ReleasedAndDiscarded(CommitEffect(Guarded(s, id), id, UploadCommit(s, id, blob, now), Done), id);
  }

  lemma GuardedCommit(s: Storage.State, m: Storage.State, id: Name, t: Transaction)
    requires m == s.(tasks := m.tasks, staged := m.staged) && id in s.tmp
    requires t.Commit? && Allowed(s.db, t) && Fresh(s, t.file.blob) && Unheld(s.db, t.file.blob)
    ensures var e := CommitEffect(m, id, t, Done);
            && e.db.entries == s.db.entries[t.path := Live(s.db.generation + 1, t.file, t.now)]
            && e.db.trash == s.db.trash && e.db.generation == s.db.generation + 1
  {
    CommitDone(m, id, t);
  }

  /** All other uploads stay, with their files and whatever is under way on them. */
  lemma FinishDoneElsewhere(h: Hash, s: Storage.State, id: Name, blob: Name, now: int, n: Name)
    requires id in s.db.uploads && id in s.tmp && n != id && n != blob
    requires FinishReply(h, s, id, blob, now, Done).Ok? && Fresh(s, blob) && Unheld(s.db, blob)
    ensures OneUploadKept(s, FinishEffect(h, s, id, blob, now, Done), n)
  {
    var m, t := Guarded(s, id), UploadCommit(s, id, blob, now);
    FinishDoneIs(h, s, id, blob, now);
    GuardedOnly(s, id);
    CommitDone(m, id, t);
    var e := CommitEffect(m, id, t, Done);
    ReleasedAndDiscarded(e, id);
    KeptThrough(s, m, e, Discarded(Released(e, id), id), id, blob, n);
  }

  ghost predicate OneUploadKept(s: Storage.State, r: Storage.State, n: Name) {
    && (n in r.db.uploads <==> n in s.db.uploads) && (n in r.db.uploads ==> r.db.uploads[n] == s.db.uploads[n])
    && (n in r.tmp <==> n in s.tmp) && (n in r.tmp ==> r.tmp[n] == s.tmp[n]) && (n in r.tasks <==> n in s.tasks)
  }

  lemma KeptThrough(
    s: Storage.State, m: Storage.State, e: Storage.State, r: Storage.State, id: Name, blob: Name, n: Name)
    requires m.db.uploads == s.db.uploads && m.tmp == s.tmp && (n in m.tasks <==> n in s.tasks)
    requires e.db.uploads == m.db.uploads - {} && Elsewhere(m, e, blob, id) && OtherUploads(e, r, id)
    requires n != id && n != blob
    ensures OneUploadKept(s, r, n)
  {
  }

  /** The purge of uploads takes the given rows and their files, and nothing else. */
  lemma PurgedUploads(s: Storage.State, ids: set<Name>)
    ensures var r := DiscardedAll(s, ids);
            && SameStore(s, r) && r.tasks == s.tasks && r.acked == s.acked
            && (forall n :: n in r.db.uploads <==> n in s.db.uploads && n !in ids)
            && (forall n | n in r.db.uploads :: r.db.uploads[n] == s.db.uploads[n])
            && (forall n :: n in r.tmp <==> n in s.tmp && n !in ids)
            && (forall n | n in r.tmp :: r.tmp[n] == s.tmp[n])
  {
  }

  /** A device's upload is purged exactly after a day without progress; a web upload also without its grant. */
  lemma StaleUploads(db: Db, granted: set<Name>, now: int, id: Name)
    requires id in db.uploads
    ensures !db.uploads[id].web ==> (id in Stale(db, granted, now) <==> now > db.uploads[id].touchedAt + 24 * 3600)
    ensures db.uploads[id].web ==>
              (id !in Stale(db, granted, now) <==> id in granted && now <= db.uploads[id].touchedAt + 24 * 3600)
  {
  }

  /** Among the device's own uploads for one request, the one last touched is resumed. */
  lemma PriorIsNewest(db: Db, row: Upload, prior: Option<Name>, k: Name)
    requires IsPrior(db, row, prior) && k in db.uploads && !db.uploads[k].web
    requires var u := db.uploads[k];
             && u.device == row.device && u.path == row.path && u.base == row.base && u.size == row.size
             && u.digest == row.digest
    ensures prior.Some? && prior.value in db.uploads
    ensures db.uploads[k].touchedAt <= db.uploads[prior.value].touchedAt
  {
  }

  /** A retried request resumes where the last one stopped, and is not idle any more. */
  lemma ResumedUpload(s: Storage.State, prior: Name, id: Name, row: Upload, stored: bool)
    requires prior in s.db.uploads && prior in s.tmp && s.db.uploads[prior].received <= row.size
    ensures var r := BeginEffect(s, Some(prior), id, row, stored);
            && SameStore(s, r) && OtherUploads(s, r, prior)
            && r.tmp == s.tmp && r.tasks == s.tasks && r.acked == s.acked
            && prior in r.db.uploads && r.db.uploads[prior] == s.db.uploads[prior].(touchedAt := row.touchedAt)
            && BeginReply(s, Some(prior), id, row, stored) == Ok((prior, s.db.uploads[prior].received))
  {
  }

  /** A new upload starts empty, beside all others. */
  lemma NewUpload(s: Storage.State, id: Name, row: Upload)
    requires id !in s.db.uploads && id !in s.tmp
    requires |set k | k in s.db.uploads && s.db.uploads[k].device == row.device| < 16
    ensures var r := BeginEffect(s, None, id, row, true);
            && SameStore(s, r) && OtherUploads(s, r, id) && r.tasks == s.tasks
            && r.db.uploads == s.db.uploads[id := row] && r.tmp == s.tmp[id := Regular([])]
            && BeginReply(s, None, id, row, true) == Ok((id, 0))
  {
    assert PendingOf(s.db, row.device) == set k | k in s.db.uploads && s.db.uploads[k].device == row.device;
  }

  // ---------------------------------------------------------------- what digests and secrets may look like

  /** A declared digest is any hexadecimal text of 32 bytes. */
  lemma DigestIsHex(s: bytes)
    ensures HexDigest(s) <==> TpmArea.Unhex(s).Some? && |TpmArea.Unhex(s).value| == 32
  {
    TpmArea.UnhexExactly(s);
    TpmArea.UnhexLength(s);
  }

  /** A secret is exactly what 32 bytes print to in lower case. */
  lemma SecretIsPrintedHex(s: bytes)
    ensures ValidSecret(s) <==> exists b: bytes :: |b| == 32 && s == TpmArea.Hex(b)
  {
    TpmArea.UnhexExactly(s);
    TpmArea.UnhexLength(s);
    if ValidSecret(s) {
      assert forall i | 0 <= i < |s| :: !TpmArea.UpperCase(s[i]);
      TpmArea.HexUnhex(s);
      assert |TpmArea.Unhex(s).value| == 32;
    }
    if b: bytes :| |b| == 32 && s == TpmArea.Hex(b) {
      TpmArea.UnhexHex(b);
    }
  }

  // ---------------------------------------------------------------- which error answers what

  lemma FolderErrors(h: Hash, db: Db, dir: Path, snapshot: bytes)
    ensures var r := FolderReply(h, db, dir, snapshot);
            var files := set p | p in db.entries && db.entries[p].Live? && Below(p, dir);
            && (r == Err(BadRequest) <==> !ValidPath(dir) || !ValidSecret(snapshot))
            && (r == Err(NotFound) <==> ValidPath(dir) && ValidSecret(snapshot) && files == {})
            && (r == Err(TooLarge) <==> ValidPath(dir) && ValidSecret(snapshot) && |files| > 10_000)
            && (r == Err(Conflict) <==>
                  && ValidPath(dir) && ValidSecret(snapshot) && 0 < |files| <= 10_000
                  && h(Snapshot.Encode(Files(db, dir))) != snapshot)
            && (r.Ok? <==>
                  && ValidPath(dir) && ValidSecret(snapshot) && 0 < |files| <= 10_000
                  && h(Snapshot.Encode(Files(db, dir))) == snapshot)
            && (r.Ok? ==> r.value == Files(db, dir))
  {
    assert LiveBelow(db, dir) == set p | p in db.entries && db.entries[p].Live? && Below(p, dir);
  }

  /** A conflict means that the upload is in use or stands elsewhere, never that the chunk itself is wrong. */
  lemma ChunkErrors(s: Storage.State, id: Name, device: nat, offset: int, data: bytes, broken: bool)
    requires !(Appendable(s, id, device, offset) && !broken && 0 < |data| <= CHUNK_BYTES
               && offset + |data| <= s.db.uploads[id].size)
    ensures var e := ChunkError(s, id, device, offset, data, broken);
            var own := id !in s.tasks && id in s.db.uploads && s.db.uploads[id].device == device;
            && (e == NotFound <==> id !in s.tasks && !own)
            && (e == Conflict <==> id in s.tasks || (own && s.db.uploads[id].received != offset))
            && (e == TooLarge ==> own && (|data| > 8 * 1024 * 1024 || offset + |data| > s.db.uploads[id].size))
            && (e == BadRequest <==>
                  own && s.db.uploads[id].received == offset
                  && (offset >= s.db.uploads[id].size || (id in s.tmp && s.tmp[id].Regular? && data == [] && !broken)))
            && e != TooMany
  {
  }

  lemma FinishErrors(s: Storage.State, id: Name, device: nat)
    requires !Finishable(s, id, device)
    ensures var e := FinishError(s, id, device);
            var own := id !in s.tasks && id in s.db.uploads && s.db.uploads[id].device == device;
            && (e == NotFound <==> id !in s.tasks && !own) && (e == Conflict <==> id in s.tasks)
            && (e == BadRequest <==> own && s.db.uploads[id].received != s.db.uploads[id].size)
            && (e == Internal <==> own && s.db.uploads[id].received == s.db.uploads[id].size)
  {
  }

  lemma NameErrors(db: Db, dir: Path, name: bytes)
    ensures NameError(db, dir, name) == Conflict <==>
              && ValidPath(name) && SLASH !in name && |name| <= 255
              && var target := dir[..BaseStart(dir)] + name;
              target != dir && (!Clear(db, target) || (target in db.entries && db.entries[target].Live?))
    ensures NameError(db, dir, name) == Conflict || NameError(db, dir, name) == BadRequest
  {
  }

  // ---------------------------------------------------------------- what a crash may do

  /** Any choice of the unsynced names in `blobs` may be there after a crash, and any other may not. */
  lemma CrashMayUndoAnyBlob(s: Storage.State, present: set<Name>)
    ensures BlobsSurvive(s, map n | n in s.blobs.Keys + s.looseBlobs.Keys
                                    && (if n in s.looseBlobs then n in present else n in s.blobs) ::
                              if n in s.looseBlobs then s.looseBlobs[n] else s.blobs[n])
  {
  }

  /** The bytes of an upload's file past its recorded offset may be anything after a crash, or missing. */
  lemma CrashMayChangeUnacknowledged(s: Storage.State, id: Name, rest: bytes)
    requires id in s.db.uploads && id in s.tmp && id !in s.looseTmp && s.tmp[id].Regular?
    requires s.db.uploads[id].received <= |s.tmp[id].content|
    ensures TmpSurvives(s, s.tmp[id := Regular(s.tmp[id].content[..s.db.uploads[id].received] + rest)])
    requires forall n | n in s.looseTmp && n in s.tmp :: s.looseTmp[n] == s.tmp[n]
  {
  }
}
