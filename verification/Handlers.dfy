/** Every handler's effect is a sequence of steps of the storage machine. */
module Handlers {
  import opened Bytes
  import opened Paths
  import opened Tables
  import opened Storage
  import opened Runs
  import opened Server
  import StorageSafety

  lemma Also(h: Hash, s: State, m: State, e: Event, r: State)
    requires Reaches(h, s, m) && Taken(h, m, e) == Some(r)
    ensures Reaches(h, s, r)
  {
    ReachesStep(h, m, e, r);
    ReachesTransitive(h, s, m, r);
  }

  // ---------------------------------------------------------------- publication

  ghost predicate CommitReady(s: State, temp: Name, t: Transaction) {
    && s.up && s.open.None? && temp in s.staged && temp in s.tmp
    && t.Commit? && t.drop <= {temp} && Allowed(s.db, t) && Fresh(s, t.file.blob)
    && t.file.digest == s.staged[temp].digest && t.file.size == s.staged[temp].size
  }

  lemma PrepareTaken(h: Hash, s: State, temp: Name, t: Transaction)
    requires CommitReady(s, temp, t)
    ensures Taken(h, s, Prepare(temp, t)) == Some(Renamed(s, temp, t).(
              looseBlobs := s.looseBlobs[t.file.blob := s.tmp[temp]], looseTmp := s.looseTmp[temp := s.tmp[temp]]))
  {
  }

  lemma SyncTaken(h: Hash, s: State)
    ensures Taken(h, s, SyncBlobs) == Some(s.(looseBlobs := map[]))
    ensures Taken(h, s, SyncTmp) == Some(s.(looseTmp := map[]))
  {
  }

  lemma RenamedReached(h: Hash, s: State, temp: Name, t: Transaction)
    requires CommitReady(s, temp, t)
    ensures Reaches(h, s, Renamed(s, temp, t))
  {
    var file, blob := s.tmp[temp], t.file.blob;
    var r := Renamed(s, temp, t);
    var m1 := r.(looseBlobs := s.looseBlobs[blob := file], looseTmp := s.looseTmp[temp := file]);
    var m2 := m1.(looseBlobs := map[]);
    PrepareTaken(h, s, temp, t);
    SyncTaken(h, m1);
    SyncTaken(h, m2);
    ReachesStep(h, s, Prepare(temp, t), m1);
    Also(h, s, m1, SyncBlobs, m2);
    Also(h, s, m2, SyncTmp, r);
  }

  lemma EndTaken(h: Hash, m: State, reported: bool)
    requires Inv(h, m) && m.open.Some? && m.looseBlobs == map[] && m.looseTmp == map[]
    ensures m.open.value.t.Commit? && Allowed(m.db, m.open.value.t)
    ensures Taken(h, m, CommitSql(reported)) == Some(Committed(m, reported))
  {
  }

  lemma RollbackTaken(h: Hash, m: State)
    requires m.open.Some?
    ensures Taken(h, m, Rollback) == Some(m.(open := None))
  {
  }

  lemma EndReached(h: Hash, s: State, m: State, reported: bool)
    requires Reaches(h, s, m) && Inv(h, m) && m.open.Some? && m.looseBlobs == map[] && m.looseTmp == map[]
    ensures m.open.value.t.Commit? && Allowed(m.db, m.open.value.t)
    ensures Reaches(h, s, Committed(m, reported)) && Reaches(h, s, m.(open := None))
  {
    EndTaken(h, m, reported);
    RollbackTaken(h, m);
    Also(h, s, m, CommitSql(reported), Committed(m, reported));
    Also(h, s, m, Rollback, m.(open := None));
  }

  lemma {:induction false} UnlinkedReached(h: Hash, s: State, m: State, ns: set<Name>)
    requires Reaches(h, s, m) && ns <= m.unlinks
    ensures Reaches(h, s, Unlinked(m, ns))
  {
    if ns == {} {
      UnlinkedNone(m);
    } else {
      var n :| n in ns;
      UnlinkedReached(h, s, m, ns - {n});
      OneMoreUnlinked(h, s, m, ns - {n}, n);
      assert ns - {n} + {n} == ns;
    }
  }

  lemma UnlinkedNone(m: State)
    ensures Unlinked(m, {}) == m
  {
    assert m.blobs - {} == m.blobs && m.unlinks - {} == m.unlinks;
  }

  lemma OneMoreUnlinked(h: Hash, s: State, m: State, done: set<Name>, n: Name)
    requires Reaches(h, s, Unlinked(m, done)) && n in m.unlinks && n !in done
    ensures Reaches(h, s, Unlinked(m, done + {n}))
  {
    UnlinkedOne(h, m, done, n);
    Also(h, s, Unlinked(m, done), Unlink(n), Unlinked(m, done + {n}));
  }

  lemma UnlinkedOne(h: Hash, m: State, done: set<Name>, n: Name)
    requires n in m.unlinks && n !in done
    ensures Taken(h, Unlinked(m, done), Unlink(n)) == Some(Unlinked(m, done + {n}))
  {
    UnlinkTaken(h, Unlinked(m, done), n);
    UnlinkedAlso(m, done, n);
  }

  lemma UnlinkTaken(h: Hash, m: State, n: Name)
    requires n in m.unlinks
    ensures Taken(h, m, Unlink(n)) == Some(RemoveBlob(m, n).(unlinks := m.unlinks - {n}))
  {
  }

  lemma SqlTaken(h: Hash, s: State, t: Transaction, db: Db)
    requires s.open.None? && !t.Commit? && Allowed(s.db, t) && (s.up || t.PurgeExpired?) && db == Apply(s.db, t)
    ensures Taken(h, s, Sql(t)) == Some(s.(db := db, unlinks := s.unlinks + Dropped(s.db, t)))
  {
  }

  /** Publishing, with any outcome of its SQL commit. */
  lemma CommitReached(h: Hash, s: State, temp: Name, t: Transaction, outcome: Outcome)
    requires Inv(h, s) && CommitReady(s, temp, t)
    ensures Reaches(h, s, CommitEffect(s, temp, t, outcome))
  {
    var m := Renamed(s, temp, t);
    RenamedReached(h, s, temp, t);
    ReachesKeeps(h, s, m);
    EndReached(h, s, m, outcome.Done?);
    if outcome.Done? {
      UnlinkedReached(h, s, Committed(m, true), Dropped(s.db, t));
    }
  }

  /** Deletion, restoration, folder changes. */
  lemma SqlReached(h: Hash, s: State, t: Transaction)
    requires s.up && s.open.None? && !t.Commit? && Allowed(s.db, t) && Dropped(s.db, t) == {}
    ensures Reaches(h, s, s.(db := Apply(s.db, t)))
  {
    var db := Apply(s.db, t);
    SqlTaken(h, s, t, db);
    assert s.unlinks + {} == s.unlinks;
    ReachesStep(h, s, Sql(t), s.(db := db));
  }

  lemma PurgeReached(h: Hash, s: State, now: int)
    requires s.open.None?
    ensures Reaches(h, s, Unlinked(AfterSql(s, PurgeExpired(now)), Dropped(s.db, PurgeExpired(now))))
  {
    var t := PurgeExpired(now);
    ReachesStep(h, s, Sql(t), AfterSql(s, t));
    UnlinkedReached(h, s, AfterSql(s, t), Dropped(s.db, t));
  }

  // ---------------------------------------------------------------- chunked uploads

  lemma StageTaken(h: Hash, m: State, id: Name)
    requires m.up && Fresh(m, id)
    ensures Taken(h, m, Stage(id, [])) == Some(m.(
              tmp := m.tmp[id := Regular([])], looseTmp := m.looseTmp[id := Regular([])],
              staged := m.staged[id := Staged(h([]), 0)], used := m.used + {id}))
  {
  }

  /** A new temporary file exists, durably, before any row names it. */
  ghost function Created(h: Hash, m: State, id: Name): State {
    m.(tmp := m.tmp[id := Regular([])], looseTmp := map[], staged := m.staged[id := Staged(h([]), 0)],
       used := m.used + {id})
  }

  lemma CreatedReached(h: Hash, s: State, m: State, id: Name)
    requires Reaches(h, s, m) && m.up && Fresh(m, id)
    ensures Reaches(h, s, Created(h, m, id))
  {
    StageTaken(h, m, id);
    var a := Created(h, m, id).(looseTmp := m.looseTmp[id := Regular([])]);
    Also(h, s, m, Stage(id, []), a);
    SyncTaken(h, a);
    Also(h, s, a, SyncTmp, Created(h, m, id));
  }

  lemma InsertTaken(h: Hash, a: State, id: Name, row: Upload)
    requires a.up && a.open.None? && id in a.staged && id !in a.tasks && id in a.tmp && a.tmp[id] == Regular([])
    requires id !in a.looseTmp && id !in a.acked && row.received == 0
    requires ValidPath(row.path) && Clear(a.db, row.path) && Revision(a.db, row.path) == row.base
    ensures Taken(h, a, Insert(id, row)) == Some(a.(
              db := a.db.(uploads := a.db.uploads[id := row]), staged := a.staged - {id}, acked := a.acked[id := []]))
  {
  }

  lemma UnstageTaken(h: Hash, a: State, id: Name)
    requires a.open.None? && id in a.staged && id !in a.tasks
    ensures Taken(h, a, Unstage(id)) == Some(RemoveTmp(a, id).(staged := a.staged - {id}))
  {
  }

  lemma FreshUnknown(h: Hash, m: State, id: Name)
    requires Inv(h, m) && Fresh(m, id)
    ensures id !in m.acked && id !in m.tasks && id !in m.staged && id !in m.db.uploads
  {
  }

  lemma StoredTaken(h: Hash, m: State, id: Name, row: Upload)
    requires m.up && m.open.None? && id !in m.acked && id !in m.tasks && id !in m.staged && row.received == 0
    requires ValidPath(row.path) && Clear(m.db, row.path) && Revision(m.db, row.path) == row.base
    ensures Taken(h, Created(h, m, id), Insert(id, row)) == Some(Begun(m, id, row, true))
  {
    var a := Created(h, m, id);
    assert a.staged - {id} == m.staged;
    InsertTaken(h, a, id, row);
  }

  lemma UnstoredTaken(h: Hash, m: State, id: Name, row: Upload)
    requires m.open.None? && id !in m.tasks && id !in m.staged
    ensures Taken(h, Created(h, m, id), Unstage(id)) == Some(Begun(m, id, row, false))
  {
    var a := Created(h, m, id);
    assert a.staged - {id} == m.staged;
    assert a.tmp - {id} == m.tmp - {id};
    assert Unsynced(a.tmp, a.looseTmp, id) == map[id := Regular([])];
    UnstageTaken(h, a, id);
  }

  lemma BegunReached(h: Hash, s: State, m: State, id: Name, row: Upload, stored: bool)
    requires Inv(h, m) && Reaches(h, s, m) && m.up && m.open.None? && Fresh(m, id) && row.received == 0
    requires ValidPath(row.path) && Clear(m.db, row.path) && Revision(m.db, row.path) == row.base
    ensures Reaches(h, s, Begun(m, id, row, stored))
  {
    FreshUnknown(h, m, id);
    CreatedReached(h, s, m, id);
    if stored {
      StoredTaken(h, m, id, row);
      Also(h, s, Created(h, m, id), Insert(id, row), Begun(m, id, row, true));
    } else {
      UnstoredTaken(h, m, id, row);
      Also(h, s, Created(h, m, id), Unstage(id), Begun(m, id, row, false));
    }
  }

  lemma TouchTaken(h: Hash, s: State, id: Name, now: int)
    requires s.open.None? && id in s.db.uploads
    ensures Taken(h, s, Touch(id, now))
         == Some(s.(db := s.db.(uploads := s.db.uploads[id := s.db.uploads[id].(touchedAt := now)])))
    ensures Taken(h, s, DropUpload(id)) == Some(s.(db := s.db.(uploads := s.db.uploads - {id})))
  {
  }

  /** Resuming, replacing a lost upload, or beginning a new one. */
  lemma BeginReached(h: Hash, s: State, prior: Option<Name>, id: Name, row: Upload, stored: bool)
    requires Inv(h, s) && s.up && s.open.None? && Fresh(s, id) && row.received == 0 && IsPrior(s.db, row, prior)
    requires ValidPath(row.path) && Clear(s.db, row.path) && Revision(s.db, row.path) == row.base
    ensures Reaches(h, s, BeginEffect(s, prior, id, row, stored))
  {
    var m := Superseded(s, prior);
    if prior.Some? {
      TouchTaken(h, s, prior.value, row.touchedAt);
      ReachesStep(h, s, DropUpload(prior.value), m);
    } else {
      ReachesSelf(h, s);
    }
    if Resumable(s, row, prior) {
      ReachesStep(h, s, Touch(prior.value, row.touchedAt), BeginEffect(s, prior, id, row, stored));
    } else if |PendingOf(m.db, row.device)| < MAX_UPLOADS_PER_DEVICE {
      ReachesKeeps(h, s, m);
      BegunReached(h, s, m, id, row, stored);
    }
  }

  /** The answered offset is where the acknowledged bytes end, and the temporary file holds all of them. */
  lemma BeginAnswersAcknowledged(h: Hash, s: State, prior: Option<Name>, id: Name, row: Upload, stored: bool)
    requires Inv(h, s) && s.up && s.open.None? && Fresh(s, id) && row.received == 0 && IsPrior(s.db, row, prior)
    requires ValidPath(row.path) && Clear(s.db, row.path) && Revision(s.db, row.path) == row.base && !row.web
    ensures var r, reply := BeginEffect(s, prior, id, row, stored), BeginReply(s, prior, id, row, stored);
            reply.Ok? ==>
              var k := reply.value.0;
              && k in r.db.uploads
              && r.db.uploads[k].device == row.device && r.db.uploads[k].path == row.path
              && r.db.uploads[k].base == row.base && r.db.uploads[k].size == row.size
              && r.db.uploads[k].digest == row.digest && !r.db.uploads[k].web
              && r.db.uploads[k].received == reply.value.1 == |Acked(r, k)| <= row.size
              && k in r.tmp && HasPrefix(r.tmp[k], Acked(r, k)) && Acked(r, k) == Acked(s, k)
  {
    var r, reply := BeginEffect(s, prior, id, row, stored), BeginReply(s, prior, id, row, stored);
    FreshUnknown(h, s, id);
    BeginAnswersRow(s, prior, id, row, stored, r);
    BeginReached(h, s, prior, id, row, stored);
    ReachesKeeps(h, s, r);
    if reply.Ok? {
      AcknowledgedHeld(h, r, reply.value.0);
    }
  }

  lemma AcknowledgedHeld(h: Hash, r: State, k: Name)
    requires Inv(h, r) && k in r.db.uploads
    ensures r.db.uploads[k].received == |Acked(r, k)| <= r.db.uploads[k].size
    ensures k in r.tmp ==> HasPrefix(r.tmp[k], Acked(r, k))
  {
  }

  lemma BeginAnswersRow(s: State, prior: Option<Name>, id: Name, row: Upload, stored: bool, r: State)
    requires IsPrior(s.db, row, prior) && row.received == 0 && !row.web && id !in s.acked
    requires r == BeginEffect(s, prior, id, row, stored)
    ensures var reply := BeginReply(s, prior, id, row, stored);
            reply.Ok? ==>
              var k := reply.value.0;
              && k in r.db.uploads && r.db.uploads[k].received == reply.value.1
              && r.db.uploads[k]
              == row.(received := r.db.uploads[k].received, touchedAt := r.db.uploads[k].touchedAt)
              && k in r.tmp && Acked(r, k) == Acked(s, k)
  {
    if !Resumable(s, row, prior) {
      BegunRow(Superseded(s, prior), id, row);
    }
  }

  predicate Twins(u: Upload, v: Upload) {
    !u.web && !v.web && u.device == v.device && u.path == v.path && u.base == v.base && u.size == v.size
    && u.digest == v.digest
  }

  /** No two uploads of devices ask for the same content at the same place. */
  ghost predicate NoTwins(db: Db) {
    forall a, b | a in db.uploads && b in db.uploads && a != b :: !Twins(db.uploads[a], db.uploads[b])
  }

  /** An upload of a device for this content at this place. */
  predicate AsksFor(u: Upload, device: nat, path: Path, base: nat, size: nat, digest: Digest) {
    !u.web && u.device == device && u.path == path && u.base == base && u.size == size && u.digest == digest
  }

  /** A new upload is begun only where none for the same request has its temporary file. */
  lemma BeginIsNeeded(h: Hash, s: State, prior: Option<Name>, id: Name, row: Upload, stored: bool, q: Name)
    requires Inv(h, s) && NoTwins(s.db) && IsPrior(s.db, row, prior) && !row.web
    requires BeginReply(s, prior, id, row, stored) == Ok((id, 0)) && Fresh(s, id)
    requires q in s.db.uploads && AsksFor(s.db.uploads[q], row.device, row.path, row.base, row.size, row.digest)
    ensures q !in s.tmp && q !in BeginEffect(s, prior, id, row, stored).db.uploads
  {
    FreshUnknown(h, s, id);
    assert UploadOk(s, q);
    assert prior == Some(q);
  }

  lemma FewerTwins(db: Db, d: Db)
    requires NoTwins(db)
    requires forall k | k in d.uploads ::
               k in db.uploads
               && d.uploads[k] == db.uploads[k].(received := d.uploads[k].received, touchedAt := d.uploads[k].touchedAt)
    ensures NoTwins(d)
  {
    forall a, b | a in d.uploads && b in d.uploads && a != b
      ensures Twins(d.uploads[a], d.uploads[b]) <==> Twins(db.uploads[a], db.uploads[b])
    {
    }
  }

  lemma OneMoreUpload(db: Db, d: Db, id: Name, row: Upload)
    requires NoTwins(db) && d.uploads == db.uploads[id := row] && id !in db.uploads
    requires forall k | k in db.uploads :: !Twins(db.uploads[k], row)
    ensures NoTwins(d)
  {
  }

  /** A begin touches the prior upload, or at most drops it, or goes on to add the new row. */
  lemma BeginUploads(s: State, prior: Option<Name>, id: Name, row: Upload, stored: bool, r: State)
    requires r == BeginEffect(s, prior, id, row, stored)
    ensures var m := Superseded(s, prior);
            || (Resumable(s, row, prior)
                && r.db.uploads == s.db.uploads[prior.value := s.db.uploads[prior.value].(touchedAt := row.touchedAt)])
            || r.db.uploads == m.db.uploads
            || (|PendingOf(m.db, row.device)| < MAX_UPLOADS_PER_DEVICE && r.db.uploads == m.db.uploads[id := row])
  {
  }

  lemma BeginKeepsNoTwins(s: State, prior: Option<Name>, id: Name, row: Upload, stored: bool)
    requires NoTwins(s.db) && IsPrior(s.db, row, prior) && !row.web && id !in s.db.uploads
    ensures NoTwins(BeginEffect(s, prior, id, row, stored).db)
  {
    var r := BeginEffect(s, prior, id, row, stored);
    BeginUploads(s, prior, id, row, stored, r);
    UploadsKeepNoTwins(s, prior, id, row, r.db);
  }

  lemma UploadsKeepNoTwins(s: State, prior: Option<Name>, id: Name, row: Upload, d: Db)
    requires NoTwins(s.db) && IsPrior(s.db, row, prior) && !row.web && id !in s.db.uploads
    requires || (Resumable(s, row, prior)
                 && d.uploads == s.db.uploads[prior.value := s.db.uploads[prior.value].(touchedAt := row.touchedAt)])
             || d.uploads == Superseded(s, prior).db.uploads
             || d.uploads == Superseded(s, prior).db.uploads[id := row]
    ensures NoTwins(d)
  {
    var m := Superseded(s, prior);
    FewerTwins(s.db, m.db);
    if d.uploads == m.db.uploads[id := row] {
      NewRowHasNoTwin(s, prior, row);
      OneMoreUpload(m.db, d, id, row);
    } else {
      FewerTwins(s.db, d);
    }
  }

  lemma NewRowHasNoTwin(s: State, prior: Option<Name>, row: Upload)
    requires NoTwins(s.db) && IsPrior(s.db, row, prior) && !row.web
    ensures forall k | k in Superseded(s, prior).db.uploads :: !Twins(Superseded(s, prior).db.uploads[k], row)
  {
    assert forall k | k in s.db.uploads :: SameUpload(s.db.uploads[k], row) <==> Twins(s.db.uploads[k], row);
  }

  /** The other steps on uploads change progress, or drop rows. */
  lemma StepKeepsNoTwins(h: Hash, s: State, e: Event)
    requires Inv(h, s) && Enabled(h, s, e) && NoTwins(s.db) && (e.Insert? ==> e.upload.web)
    ensures NoTwins(Next(h, s, e).db)
  {
    if e.Insert? || e.Touch? || e.ChunkAck? || e.DropUpload? {
      RowKeepsNoTwins(h, s, e);
    } else if StorageSafety.RequestEvent(e) {
      StorageSafety.FileStepFrame(h, s, e);
    } else {
      StagedElsewhere(h, s, e);
    }
  }

  lemma RowKeepsNoTwins(h: Hash, s: State, e: Event)
    requires Enabled(h, s, e) && StorageSafety.UploadRowEvent(e) && NoTwins(s.db) && (e.Insert? ==> e.upload.web)
    ensures NoTwins(Next(h, s, e).db)
  {
    if !e.Insert? {
      FewerTwins(s.db, Next(h, s, e).db);
    }
  }

  /** A device never has more than sixteen uploads because of a begin. */
  lemma BeginKeepsLimit(s: State, prior: Option<Name>, id: Name, row: Upload, stored: bool)
    requires id !in s.db.uploads && IsPrior(s.db, row, prior)
    ensures var r := BeginEffect(s, prior, id, row, stored);
            var before := set k | k in s.db.uploads && s.db.uploads[k].device == row.device;
            var after := set k | k in r.db.uploads && r.db.uploads[k].device == row.device;
            |after| <= |before| || |after| <= 16
  {
    PendingAfterBegin(s, prior, id, row, stored);
    PendingIs(s.db, row.device);
    PendingIs(BeginEffect(s, prior, id, row, stored).db, row.device);
  }

  lemma PendingIs(db: Db, device: nat)
    ensures PendingOf(db, device) == set k | k in db.uploads && db.uploads[k].device == device
  {
  }

  lemma PendingAfterBegin(s: State, prior: Option<Name>, id: Name, row: Upload, stored: bool)
    requires id !in s.db.uploads && IsPrior(s.db, row, prior)
    ensures var d := BeginEffect(s, prior, id, row, stored).db;
            || |PendingOf(d, row.device)| <= |PendingOf(s.db, row.device)|
            || |PendingOf(d, row.device)| <= MAX_UPLOADS_PER_DEVICE
  {
    var r, m := BeginEffect(s, prior, id, row, stored), Superseded(s, prior);
    BeginUploads(s, prior, id, row, stored, r);
    if r.db.uploads == m.db.uploads[id := row] && |PendingOf(m.db, row.device)| < MAX_UPLOADS_PER_DEVICE {
      OneMorePending(m.db, r.db, id, row);
    } else {
      NoMorePending(s, prior, row, r.db);
      SubsetSize(PendingOf(r.db, row.device), PendingOf(s.db, row.device));
    }
  }

  lemma NoMorePending(s: State, prior: Option<Name>, row: Upload, d: Db)
    requires || (Resumable(s, row, prior)
                 && d.uploads == s.db.uploads[prior.value := s.db.uploads[prior.value].(touchedAt := row.touchedAt)])
             || d.uploads == Superseded(s, prior).db.uploads
    ensures PendingOf(d, row.device) <= PendingOf(s.db, row.device)
  {
  }

  lemma OneMorePending(m: Db, d: Db, id: Name, row: Upload)
    requires d.uploads == m.uploads[id := row]
    ensures |PendingOf(d, row.device)| <= |PendingOf(m, row.device)| + 1
  {
    assert PendingOf(d, row.device) == PendingOf(m, row.device) + {id};
  }

  lemma {:induction false} SubsetSize(a: set<Name>, b: set<Name>)
    requires a <= b
    ensures |a| <= |b|
  {
    if n :| n in a {
      SubsetSize(a - {n}, b - {n});
    }
  }

  lemma BegunRow(m: State, id: Name, row: Upload)
    requires id !in m.acked
    ensures var r := Begun(m, id, row, true);
            id in r.db.uploads && r.db.uploads[id] == row && id in r.tmp && Acked(r, id) == Acked(m, id) == []
  {
  }

  lemma {:induction false} PurgeUploadsReached(h: Hash, s: State, m: State, ids: set<Name>)
    requires Reaches(h, s, m) && m.open.None? && ids <= m.db.uploads.Keys && ids !! m.tasks.Keys && ids !! m.staged.Keys
    ensures Reaches(h, s, DiscardedAll(m, ids))
  {
    if ids == {} {
      DiscardedNone(m);
    } else {
      var n :| n in ids;
      var rest := ids - {n};
      PurgeUploadsReached(h, s, m, rest);
      assert rest + {n} == ids;
      OneMoreDiscarded(h, s, m, rest, n);
    }
  }

  lemma OneMoreDiscarded(h: Hash, s: State, m: State, done: set<Name>, n: Name)
    requires Reaches(h, s, DiscardedAll(m, done)) && n !in done
    requires m.open.None? && n in m.db.uploads && n !in m.tasks && n !in m.staged
    ensures Reaches(h, s, DiscardedAll(m, done + {n}))
  {
    DiscardedAlso(m, done, n);
    DiscardedReached(h, s, DiscardedAll(m, done), n);
  }

  /** Purging stale uploads, which never takes one that a request is using. */
  lemma StaleReached(h: Hash, s: State, granted: set<Name>, now: int)
    requires Inv(h, s) && s.open.None?
    ensures Reaches(h, s, DiscardedAll(s, Stale(s.db, granted, now) - s.tasks.Keys))
  {
    var ids := Stale(s.db, granted, now) - s.tasks.Keys;
    assert forall id | id in s.db.uploads :: UploadOk(s, id);
    ReachesSelf(h, s);
    PurgeUploadsReached(h, s, s, ids);
  }

  lemma ChunkStarted(h: Hash, s: State, id: Name, device: nat, offset: nat)
    requires Inv(h, s) && s.up && s.open.None? && Appendable(s, id, device, offset)
    ensures Reaches(h, s, AfterStart(s, id, offset))
  {
    ReachesStep(h, s, ChunkStart(id, offset), AfterStart(s, id, offset));
  }

  lemma TasksRestored(s: State, id: Name, task: Task)
    requires id !in s.tasks
    ensures s.tasks[id := task] - {id} == s.tasks
  {
  }

  /** A rejected or interrupted chunk. */
  lemma TruncatedReached(h: Hash, s: State, id: Name, device: nat, offset: nat)
    requires Inv(h, s) && s.up && s.open.None? && Appendable(s, id, device, offset)
    ensures Reaches(h, s, Truncated(s, id))
  {
    ChunkStarted(h, s, id, device, offset);
    StopTaken(h, s, id, offset);
    Also(h, s, AfterStart(s, id, offset), ChunkStop(id, []), Truncated(s, id));
  }

  lemma StopTaken(h: Hash, s: State, id: Name, offset: nat)
    requires id !in s.tasks && id in s.db.uploads && s.db.uploads[id].received == offset
    requires id in s.tmp && s.tmp[id].Regular?
    ensures Taken(h, AfterStart(s, id, offset), ChunkStop(id, [])) == Some(Truncated(s, id))
  {
    TasksRestored(s, id, Writing(offset, []));
    var cut := SetLen(s.tmp[id].content, offset);
    assert SetLen(cut, offset) + [] == cut;
    assert s.tmp[id := Regular(cut)][id := Regular(cut)] == s.tmp[id := Regular(cut)];
  }

  lemma DataTaken(h: Hash, m: State, id: Name, offset: nat, data: bytes)
    requires id in m.tasks && m.tasks[id] == Writing(offset, []) && id in m.tmp && m.tmp[id].Regular?
    requires |data| <= CHUNK_BYTES && (id in m.db.uploads ==> offset + |data| <= m.db.uploads[id].size)
    ensures Taken(h, m, ChunkData(id, data)) == Some(
              m.(tmp := m.tmp[id := Regular(m.tmp[id].content + data)], tasks := m.tasks[id := Writing(offset, data)]))
  {
    assert [] + data == data;
  }

  lemma AckTaken(h: Hash, m: State, id: Name, offset: nat, data: bytes, now: int)
    requires m.open.None? && id in m.tasks && m.tasks[id] == Writing(offset, data) && data != []
    requires id in m.db.uploads && m.db.uploads[id].received == offset
    ensures var u := m.db.uploads[id];
            Taken(h, m, ChunkAck(id, now)) == Some(
              m.(db := m.db.(uploads := m.db.uploads[id := u.(received := u.received + |data|, touchedAt := now)]),
                 tasks := m.tasks - {id}, acked := m.acked[id := (if id in m.acked then m.acked[id] else []) + data]))
  {
  }

  ghost function Written(s: State, id: Name, data: bytes): State
    requires id in s.db.uploads && id in s.tmp && s.tmp[id].Regular?
  {
    var offset := s.db.uploads[id].received;
    s.(tmp := s.tmp[id := Regular(SetLen(s.tmp[id].content, offset) + data)],
       tasks := s.tasks[id := Writing(offset, data)])
  }

  lemma WrittenAfter(s: State, id: Name, offset: nat, data: bytes)
    requires id in s.db.uploads && id in s.tmp && s.tmp[id].Regular? && s.db.uploads[id].received == offset
    ensures var m, r := Truncated(s, id).(tasks := s.tasks[id := Writing(offset, [])]), Written(s, id, data);
            && id in m.tmp && m.tmp[id].Regular?
            && m.(tmp := m.tmp[id := Regular(m.tmp[id].content + data)],
                  tasks := m.tasks[id := Writing(offset, data)]) == r
  {
  }

  lemma WrittenReached(h: Hash, s: State, id: Name, device: nat, offset: nat, data: bytes)
    requires Inv(h, s) && s.up && s.open.None? && Appendable(s, id, device, offset)
    requires |data| <= CHUNK_BYTES && offset + |data| <= s.db.uploads[id].size
    ensures Reaches(h, s, Written(s, id, data))
  {
    ChunkStarted(h, s, id, device, offset);
    var m1, m2 := Truncated(s, id).(tasks := s.tasks[id := Writing(offset, [])]), Written(s, id, data);
    WrittenAfter(s, id, offset, data);
    DataTaken(h, m1, id, offset, data);
    Also(h, s, m1, ChunkData(id, data), m2);
  }

  /** An accepted chunk. */
  lemma AppendedReached(h: Hash, s: State, id: Name, device: nat, offset: nat, data: bytes, now: int)
    requires Inv(h, s) && s.up && s.open.None? && Appendable(s, id, device, offset)
    requires 0 < |data| <= CHUNK_BYTES && offset + |data| <= s.db.uploads[id].size
    ensures Reaches(h, s, Appended(s, id, data, now))
  {
    WrittenReached(h, s, id, device, offset, data);
    WrittenAcked(h, s, id, offset, data, now);
    Also(h, s, Written(s, id, data), ChunkAck(id, now), Appended(s, id, data, now));
  }

  lemma WrittenAcked(h: Hash, s: State, id: Name, offset: nat, data: bytes, now: int)
    requires s.open.None? && id !in s.tasks && id in s.db.uploads && s.db.uploads[id].received == offset && data != []
    requires id in s.tmp && s.tmp[id].Regular?
    ensures Taken(h, Written(s, id, data), ChunkAck(id, now)) == Some(Appended(s, id, data, now))
  {
    TasksRestored(s, id, Writing(offset, data));
    AckTaken(h, Written(s, id, data), id, offset, data, now);
  }

  lemma DiscardedReached(h: Hash, s: State, m: State, id: Name)
    requires Reaches(h, s, m) && m.open.None? && id in m.db.uploads && id !in m.staged && id !in m.tasks
    ensures Reaches(h, s, Discarded(m, id))
  {
    var n := m.(db := m.db.(uploads := m.db.uploads - {id}));
    Also(h, s, m, DropUpload(id), n);
    Also(h, s, n, RemoveTemp(id), Discarded(m, id));
  }

  lemma ReleasedReached(h: Hash, s: State, m: State, id: Name)
    requires Reaches(h, s, m) && m.open.None? && id in m.tasks && m.tasks[id] == Task.Finishing
    ensures Reaches(h, s, Released(m, id))
  {
    Also(h, s, m, FinishEnd(id), Released(m, id));
  }

  lemma GuardedReached(h: Hash, s: State, id: Name, device: nat)
    requires s.up && s.open.None? && Finishable(s, id, device) && Complete(h, s, id)
    ensures Reaches(h, s, Guarded(s, id))
  {
    ReachesStep(h, s, FinishStart(id), Guarded(s, id));
  }

  lemma FinishCommitReached(h: Hash, s: State, id: Name, device: nat, blob: Name, now: int, outcome: Outcome)
    requires Inv(h, s) && s.up && s.open.None? && Finishable(s, id, device) && Complete(h, s, id) && Fresh(s, blob)
    requires Allowed(s.db, UploadCommit(s, id, blob, now))
    ensures var e := CommitEffect(Guarded(s, id), id, UploadCommit(s, id, blob, now), outcome);
            Reaches(h, s, e) && Reaches(h, s, Released(e, id))
  {
    var m, t := Guarded(s, id), UploadCommit(s, id, blob, now);
    GuardedReached(h, s, id, device);
    ReachesKeeps(h, s, m);
    CommitReached(h, m, id, t, outcome);
    var e := CommitEffect(m, id, t, outcome);
    ReachesTransitive(h, s, m, e);
    ReleasedReached(h, s, e, id);
  }

  /** Finishing an upload, whatever comes of it. */
  lemma FinishReached(h: Hash, s: State, id: Name, device: nat, blob: Name, now: int, outcome: Outcome)
    requires Inv(h, s) && s.up && s.open.None? && Finishable(s, id, device) && Fresh(s, blob)
    ensures Reaches(h, s, FinishEffect(h, s, id, blob, now, outcome))
  {
    var m, t := Guarded(s, id), UploadCommit(s, id, blob, now);
    assert UploadOk(s, id);
    if !Complete(h, s, id) {
      ReachesSelf(h, s);
      DiscardedReached(h, s, s, id);
    } else if !Allowed(s.db, t) {
      GuardedReached(h, s, id, device);
      ReleasedReached(h, s, m, id);
      if ValidPath(t.path) {
        DiscardedReached(h, s, Released(m, id), id);
      }
    } else {
      FinishCommitReached(h, s, id, device, blob, now, outcome);
      if outcome.Done? {
        var e := CommitEffect(m, id, t, outcome);
        assert e.db.uploads == s.db.uploads - {};
        DiscardedReached(h, s, Released(e, id), id);
      }
    }
  }

  lemma FinishPublished(h: Hash, s: State, id: Name, blob: Name, now: int)
    requires Complete(h, s, id) && Allowed(s.db, UploadCommit(s, id, blob, now))
    ensures var r, u := FinishEffect(h, s, id, blob, now, Done), s.db.uploads[id];
            && u.path in r.db.entries
            && r.db.entries[u.path] == Live(s.db.generation + 1, FileRef(blob, u.digest, u.size), now)
            && blob in r.published && r.published[blob] == s.tmp[id].content
  {
  }

  /**
   * At the end of any run, a successful `finish_upload` leaves at the upload's path a readable file
   * that is exactly the chunks acknowledged in that run, with the digest and size declared at its
   * beginning; and the run goes on from there.
   */
  lemma FinishPublishesAcknowledged(
    h: Hash, ss: seq<State>, es: seq<Event>, id: Name, device: nat, blob: Name, now: int)
    returns (ss': seq<State>, es': seq<Event>, k: nat)
    requires Run(h, ss, es)
    requires var s := ss[|es|];
             && s.up && s.open.None? && Finishable(s, id, device) && Fresh(s, blob)
             && FinishReply(h, s, id, blob, now, Done).Ok?
    ensures var r := FinishEffect(h, ss[|es|], id, blob, now, Done);
            && Run(h, ss', es') && ss <= ss' && es <= es' && ss'[|es'|] == r
            && k < |es| && es[k].Insert? && es[k].n == id
            && var u := es[k].upload;
            && IsLive(r.db, u.path) && r.db.entries[u.path].file == FileRef(blob, u.digest, u.size)
            && blob in r.published && ContentOf(r, u.path) == Acknowledged(ss, es, id, |es|)
            && Readable(h, r, r.db.entries[u.path].file)
  {
    var s := ss[|es|];
    var r := FinishEffect(h, s, id, blob, now, Done);
    RunInv(h, ss, es, |es|);
    FinishReached(h, s, id, device, blob, now, Done);
    var trace :| Executes(h, s, trace, r);
    ss', es' := RunExtended(h, ss, es, trace, r);
    FinishPublished(h, s, id, blob, now);
    UploadIsWhole(h, ss, es, id);
    ContentNeverLost(h, ss', es', |es'|);
    k := DeclaredAtInsert(h, ss, es, id, |es|);
  }

  /**
   * From the request to the published file: whenever a begin has answered an upload for a path, a later
   * successful finish of it publishes exactly at that path, with the digest and size asked for.
   */
  lemma BegunUploadIsPublishedAtItsPath(
    h: Hash, ss: seq<State>, es: seq<Event>, i: nat, s: State, prior: Option<Name>, id: Name, row: Upload, stored: bool,
    device: nat, blob: Name, now: int)
    requires Run(h, ss, es) && i < |ss| && ss[i] == BeginEffect(s, prior, id, row, stored)
    requires Inv(h, s) && IsPrior(s.db, row, prior) && row.received == 0 && !row.web && id !in s.acked
    requires BeginReply(s, prior, id, row, stored).Ok?
    requires var k := BeginReply(s, prior, id, row, stored).value.0;
             && ss[|es|].up && ss[|es|].open.None? && Finishable(ss[|es|], k, device) && Fresh(ss[|es|], blob)
             && FinishReply(h, ss[|es|], k, blob, now, Done).Ok?
    ensures var k := BeginReply(s, prior, id, row, stored).value.0;
            var r := FinishEffect(h, ss[|es|], k, blob, now, Done);
            && row.path in r.db.entries
            && r.db.entries[row.path] == Live(ss[|es|].db.generation + 1, FileRef(blob, row.digest, row.size), now)
            && blob in r.published && r.published[blob] == Acknowledged(ss, es, k, |es|)
  {
    var k := BeginReply(s, prior, id, row, stored).value.0;
    BeginAnswersRow(s, prior, id, row, stored, ss[i]);
    RunInv(h, ss, es, i);
    UploadDeclares(h, ss[i], k);
    DeclaredStays(h, ss, es, k, ss[i].db.uploads[k], i, |es|);
    FinishPublishesAs(h, ss, es, k, ss[i].db.uploads[k], device, blob, now);
  }

  lemma FinishPublishesAs(
    h: Hash, ss: seq<State>, es: seq<Event>, k: Name, u: Upload, device: nat, blob: Name, now: int)
    requires Run(h, ss, es) && Declared(ss[|es|], k, u)
    requires Finishable(ss[|es|], k, device) && FinishReply(h, ss[|es|], k, blob, now, Done).Ok?
    ensures var r := FinishEffect(h, ss[|es|], k, blob, now, Done);
            && u.path in r.db.entries
            && r.db.entries[u.path] == Live(ss[|es|].db.generation + 1, FileRef(blob, u.digest, u.size), now)
            && blob in r.published && r.published[blob] == Acknowledged(ss, es, k, |es|)
  {
    FinishPublished(h, ss[|es|], k, blob, now);
    UploadIsWhole(h, ss, es, k);
  }

  lemma UploadDeclares(h: Hash, s: State, k: Name)
    requires Inv(h, s) && k in s.db.uploads
    ensures Declared(s, k, s.db.uploads[k])
  {
    assert UploadOk(s, k);
  }

  lemma UploadIsWhole(h: Hash, ss: seq<State>, es: seq<Event>, id: Name)
    requires Run(h, ss, es) && Complete(h, ss[|es|], id)
    ensures id in ss[|es|].acked && ss[|es|].tmp[id].content == Acknowledged(ss, es, id, |es|)
  {
    RunInv(h, ss, es, |es|);
    assert UploadOk(ss[|es|], id);
    UploadHoldsAcknowledged(h, ss, es, id, |es|);
  }

  // ---------------------------------------------------------------- recovery

  lemma SweepTaken(h: Hash, m: State, n: Name)
    requires !m.up && m.open.None?
    ensures Stray(m.db, m.blobs, n) ==> Taken(h, m, RecoverBlob(n)) == Some(RemoveBlob(m, n))
    ensures StrayTemp(m.db, m.tmp, n) ==> Taken(h, m, RecoverTemp(n)) == Some(RemoveTmp(m, n))
  {
  }

  lemma SweptBlob(h: Hash, s: State, m: State, n: Name)
    requires Reaches(h, s, m) && !m.up && m.open.None? && Stray(m.db, m.blobs, n)
    ensures Reaches(h, s, RemoveBlob(m, n))
  {
    SweepTaken(h, m, n);
    Also(h, s, m, RecoverBlob(n), RemoveBlob(m, n));
  }

  lemma SweptTemp(h: Hash, s: State, m: State, n: Name)
    requires Reaches(h, s, m) && !m.up && m.open.None? && StrayTemp(m.db, m.tmp, n)
    ensures Reaches(h, s, RemoveTmp(m, n))
  {
    SweepTaken(h, m, n);
    Also(h, s, m, RecoverTemp(n), RemoveTmp(m, n));
  }

  lemma WithoutOne(dir: Dir, ns: set<Name>, n: Name)
    requires n in ns
    ensures dir - {n} - (ns - {n}) == dir - ns
  {
  }

  lemma {:induction false} SweptBlobsReached(h: Hash, s: State, m: State, ns: set<Name>) returns (loose: Dir)
    requires Reaches(h, s, m) && !m.up && m.open.None? && forall n | n in ns :: Stray(m.db, m.blobs, n)
    ensures Reaches(h, s, m.(blobs := m.blobs - ns, looseBlobs := loose))
    decreases ns
  {
    if ns == {} {
      loose := m.looseBlobs;
      assert m.blobs - {} == m.blobs;
    } else {
      var n :| n in ns;
      SweptBlob(h, s, m, n);
      WithoutOne(m.blobs, ns, n);
      loose := SweptBlobsReached(h, s, RemoveBlob(m, n), ns - {n});
    }
  }

  lemma {:induction false} SweptTempsReached(h: Hash, s: State, m: State, ns: set<Name>) returns (loose: Dir)
    requires Reaches(h, s, m) && !m.up && m.open.None? && forall n | n in ns :: StrayTemp(m.db, m.tmp, n)
    ensures Reaches(h, s, m.(tmp := m.tmp - ns, looseTmp := loose))
    decreases ns
  {
    if ns == {} {
      loose := m.looseTmp;
      assert m.tmp - {} == m.tmp;
    } else {
      var n :| n in ns;
      SweptTemp(h, s, m, n);
      WithoutOne(m.tmp, ns, n);
      loose := SweptTempsReached(h, s, RemoveTmp(m, n), ns - {n});
    }
  }

  /** What `RecoverStorage` leaves behind. */
  ghost function Recovery(s: State): State {
    s.(blobs := map n | n in s.blobs && !Stray(s.db, s.blobs, n) :: s.blobs[n],
       tmp := map n | n in s.tmp && !StrayTemp(s.db, s.tmp, n) :: s.tmp[n],
       looseBlobs := map[], looseTmp := map[], up := true)
  }

  lemma RecoveryReached(h: Hash, s: State)
    requires !s.up && s.open.None?
    ensures Reaches(h, s, Recovery(s))
  {
    var bs := set n | n in s.blobs && Stray(s.db, s.blobs, n);
    var ts := set n | n in s.tmp && StrayTemp(s.db, s.tmp, n);
    var looseBlobs, looseTmp := SweptReached(h, s, bs, ts);
    SweptDirs(s, bs, ts);
    RecoveryEnds(h, s, Swept(s, bs, ts, looseBlobs, looseTmp));
  }

  ghost function Swept(s: State, bs: set<Name>, ts: set<Name>, looseBlobs: Dir, looseTmp: Dir): State {
    s.(blobs := s.blobs - bs, tmp := s.tmp - ts, looseBlobs := looseBlobs, looseTmp := looseTmp)
  }

  lemma SweptReached(h: Hash, s: State, bs: set<Name>, ts: set<Name>) returns (looseBlobs: Dir, looseTmp: Dir)
    requires !s.up && s.open.None?
    requires (forall n | n in bs :: Stray(s.db, s.blobs, n)) && (forall n | n in ts :: StrayTemp(s.db, s.tmp, n))
    ensures Reaches(h, s, Swept(s, bs, ts, looseBlobs, looseTmp))
  {
    ReachesSelf(h, s);
    looseBlobs := SweptBlobsReached(h, s, s, bs);
    looseTmp := SweptTempsReached(h, s, s.(blobs := s.blobs - bs, looseBlobs := looseBlobs), ts);
  }

  lemma SweptDirs(s: State, bs: set<Name>, ts: set<Name>)
    requires bs == set n | n in s.blobs && Stray(s.db, s.blobs, n)
    requires ts == set n | n in s.tmp && StrayTemp(s.db, s.tmp, n)
    ensures s.blobs - bs == Recovery(s).blobs && s.tmp - ts == Recovery(s).tmp
  {
    assert s.blobs - bs == Recovery(s).blobs;
    assert s.tmp - ts == Recovery(s).tmp;
  }

  lemma RecoveryEnds(h: Hash, s: State, k: State)
    requires !s.up && s.open.None? && Reaches(h, s, k)
    requires k == s.(blobs := Recovery(s).blobs, tmp := Recovery(s).tmp,
                     looseBlobs := k.looseBlobs, looseTmp := k.looseTmp)
    ensures Reaches(h, s, Recovery(s))
  {
    NoStrays(s, k);
    RecoveredTaken(h, k);
    Also(h, s, k, Recovered, Recovery(s));
  }

  lemma RecoveredTaken(h: Hash, k: State)
    requires !k.up && k.open.None?
    requires (forall n :: !Stray(k.db, k.blobs, n)) && (forall n :: !StrayTemp(k.db, k.tmp, n))
    ensures Taken(h, k, Recovered) == Some(k.(looseBlobs := map[], looseTmp := map[], up := true))
  {
  }

  lemma NoStrays(s: State, k: State)
    requires k.db == s.db
    requires k.blobs == map n | n in s.blobs && !Stray(s.db, s.blobs, n) :: s.blobs[n]
    requires k.tmp == map n | n in s.tmp && !StrayTemp(s.db, s.tmp, n) :: s.tmp[n]
    ensures (forall n :: !Stray(k.db, k.blobs, n)) && (forall n :: !StrayTemp(k.db, k.tmp, n))
  {
  }

  /**
   * After a crash at any step of any run, recovery keeps every referenced blob and every upload's
   * temporary file that survived, removes only unreferenced generated files, leaves no generated file
   * unreferenced, and has nothing to do a second time.
   */
  lemma RecoveryExact(h: Hash, ss: seq<State>, es: seq<Event>, i: nat)
    requires Run(h, ss, es) && i < |es| && es[i].Crash?
    ensures var s := ss[i + 1];
            var r := Recovery(s);
            && Reaches(h, s, r) && Inv(h, r)
            && (forall n | !Unheld(s.db, n) :: n in r.blobs && r.blobs[n] == s.blobs[n])
            && (forall n | n in s.tmp && n in s.db.uploads :: n in r.tmp && r.tmp[n] == s.tmp[n])
            && (forall n | n in s.blobs && n !in r.blobs :: n.Uuid? && Unheld(s.db, n))
            && (forall n | n in s.tmp && n !in r.tmp :: n.Uuid? && n !in s.db.uploads)
            && (forall n | n in r.blobs && n.Uuid? && r.blobs[n].Regular? :: !Unheld(r.db, n))
            && (forall n | n in r.tmp && n.Uuid? && r.tmp[n].Regular? :: n in r.db.uploads)
            && Recovery(r) == r
  {
    var s := ss[i + 1];
    var r := Recovery(s);
    RunInv(h, ss, es, i + 1);
    assert StepAt(h, ss, es, i);
    RecoveryReached(h, s);
    ReachesKeeps(h, s, r);
    NoStrays(s, r);
    RecoveryIdempotent(s);
    forall n | !Unheld(s.db, n)
      ensures n in s.blobs
    {
      if forall f | Held(s.db, f) :: f.blob != n {
        StorageSafety.HeldBlobs(s.db, n);
      } else {
        var f :| Held(s.db, f) && f.blob == n;
        assert Stored(h, s, f);
      }
    }
  }

  lemma RecoveryIdempotent(s: State)
    ensures Recovery(Recovery(s)) == Recovery(s)
  {
  }
}
