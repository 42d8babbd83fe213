/** Web uploads: the browser's grants beside a run of the store. */
module WebUploads {
  import opened Bytes
  import opened Tables
  import opened Storage
  import Runs
  import StorageSafety
  import Grants
  import Server

  datatype Moment = Moment(store: State, auth: Grants.State)

  /**
   * One step of either side. Beginning a web upload writes both in one transaction; appending to it and
   * committing it check ownership under the lock that the store's step needs.
   */
  datatype Step =
    | Auth(grant: Grants.Event)
    | Begin(u: Grants.UploadId, upload: Upload, token: Grants.Token)
    | Web(e: Event, u: Grants.UploadId, token: Grants.Token)
    | Other(e: Event)

  /** The step acknowledges a chunk of the upload, or renames its file for publication. */
  predicate Advances(e: Event, u: Grants.UploadId) {
    (e.ChunkAck? && e.id == Uuid(u)) || (e.Prepare? && e.temp == Uuid(u))
  }

  ghost predicate Steps(h: Hash, m: Moment, step: Step, now: int, r: Moment) {
    match step
    case Auth(e) => // a commit that is under way holds the database lock
      m.store.open.None? && Grants.Enabled(m.auth, e, now) && r == m.(auth := Grants.Next(m.auth, e, now))
    case Begin(u, upload, token) =>
      && Grants.Enabled(m.auth, Grants.BeginUpload(u, token), now)
      && r.auth == Grants.Next(m.auth, Grants.BeginUpload(u, token), now)
      && Runs.Taken(h, m.store, Insert(Uuid(u), upload)) == Some(r.store)
    case Web(e, u, token) =>
      && Advances(e, u) && Grants.Owned(m.auth, u, token, now)
      && Runs.Taken(h, m.store, e) == Some(r.store) && r.auth == m.auth
    case Other(e) => Runs.Taken(h, m.store, e) == Some(r.store) && r.auth == m.auth
  }

  ghost predicate StepAt(h: Hash, ms: seq<Moment>, steps: seq<Step>, times: seq<int>, i: nat)
    requires |ms| == |steps| + 1 && |times| == |steps|
  {
    i < |steps| ==> Steps(h, ms[i], steps[i], times[i], ms[i + 1])
  }

  ghost predicate Run(h: Hash, ms: seq<Moment>, steps: seq<Step>, times: seq<int>) {
    && |ms| == |steps| + 1 && |times| == |steps| && Init(ms[0].store) && ms[0].auth == Grants.EMPTY
    && forall i: nat {:trigger StepAt(h, ms, steps, times, i)} :: StepAt(h, ms, steps, times, i)
  }

  lemma {:induction false} RunInv(h: Hash, ms: seq<Moment>, steps: seq<Step>, times: seq<int>, i: nat)
    requires Run(h, ms, steps, times) && i < |ms|
    ensures Inv(h, ms[i].store) && Grants.Inv(ms[i].auth)
  {
    if i == 0 {
      Runs.InitInv(h, ms[0].store);
    } else {
      RunInv(h, ms, steps, times, i - 1);
      assert StepAt(h, ms, steps, times, i - 1);
      StepKeeps(h, ms[i - 1], steps[i - 1], times[i - 1], ms[i]);
    }
  }

  /** The store's part of a step, if it has one. */
  function StoreEvent(step: Step): Option<Event> {
    match step
    case Auth(_) => None
    case Begin(u, upload, _) => Some(Insert(Uuid(u), upload))
    case Web(e, _, _) => Some(e)
    case Other(e) => Some(e)
  }

  function AuthEvent(step: Step): Option<Grants.Event> {
    match step
    case Auth(e) => Some(e)
    case Begin(u, _, token) => Some(Grants.BeginUpload(u, token))
    case _ => None
  }

  lemma StepKeeps(h: Hash, m: Moment, step: Step, now: int, r: Moment)
    requires Inv(h, m.store) && Grants.Inv(m.auth) && Steps(h, m, step, now, r)
    ensures Inv(h, r.store) && Grants.Inv(r.auth)
  {
    var e, g := StoreEvent(step), AuthEvent(step);
    if e.Some? {
      StorageSafety.StepKeeps(h, m.store, e.value);
    }
    if g.Some? {
      Grants.StepKeeps(m.auth, g.value, now);
    }
  }

  // ---------------------------------------------------------------- superseded uploads

  /** The upload was begun, and the write proof it was begun under is not current any more. */
  predicate Superseded(s: Grants.State, u: Grants.UploadId) {
    u in s.begun && (u in s.uploads ==> !Grants.Current(s, s.uploads[u].session, Grants.FilesWrite, s.uploads[u].grant))
  }

  lemma SupersededAfter(s: Grants.State, r: Grants.State, u: Grants.UploadId)
    requires Grants.Inv(s) && Grants.After(s, r) && Superseded(s, u)
    ensures Superseded(r, u)
  {
    if u in r.uploads {
      var w := s.uploads[u];
      assert Grants.Superseded(s, w.session, Grants.FilesWrite, w.grant);
    }
  }

  lemma SupersededStep(h: Hash, m: Moment, step: Step, now: int, r: Moment, u: Grants.UploadId)
    requires Grants.Inv(m.auth) && Steps(h, m, step, now, r) && Superseded(m.auth, u)
    ensures Superseded(r.auth, u)
  {
    var g := AuthEvent(step);
    if g.Some? {
      Grants.StepAfter(m.auth, g.value, now);
      SupersededAfter(m.auth, r.auth, u);
    }
  }

  lemma {:induction false} SupersededStays(
    h: Hash, ms: seq<Moment>, steps: seq<Step>, times: seq<int>, i: nat, j: nat, u: Grants.UploadId)
    requires Run(h, ms, steps, times) && i <= j < |ms| && Superseded(ms[i].auth, u)
    ensures Superseded(ms[j].auth, u)
    decreases j
  {
    if i < j {
      SupersededStays(h, ms, steps, times, i, j - 1, u);
      SupersededNext(h, ms, steps, times, j - 1, u);
    }
  }

  lemma SupersededNext(h: Hash, ms: seq<Moment>, steps: seq<Step>, times: seq<int>, i: nat, u: Grants.UploadId)
    requires Run(h, ms, steps, times) && i < |steps| && Superseded(ms[i].auth, u)
    ensures Superseded(ms[i + 1].auth, u)
  {
    RunInv(h, ms, steps, times, i);
    assert StepAt(h, ms, steps, times, i);
    SupersededStep(h, ms[i], steps[i], times[i], ms[i + 1], u);
  }

  /** No web request advances the upload any more, from the moment its write proof is superseded on. */
  lemma NoWebStepAfter(
    h: Hash, ms: seq<Moment>, steps: seq<Step>, times: seq<int>, i: nat, k: nat, u: Grants.UploadId)
    requires Run(h, ms, steps, times) && i <= k < |steps| && Superseded(ms[i].auth, u)
    ensures steps[k].Web? ==> steps[k].u != u
  {
    SupersededStays(h, ms, steps, times, i, k, u);
    assert StepAt(h, ms, steps, times, k);
  }

  // ---------------------------------------------------------------- what that freezes

  /** No request of the device itself advances the upload: those do not ask for a grant. */
  ghost predicate Untouched(steps: seq<Step>, u: Grants.UploadId, i: nat, j: nat) {
    forall k | i <= k < j && k < |steps| :: steps[k].Other? ==> !Advances(steps[k].e, u)
  }

  lemma StepFreezes(h: Hash, m: Moment, step: Step, now: int, r: Moment, u: Grants.UploadId)
    requires Steps(h, m, step, now, r) && Superseded(m.auth, u)
    requires step.Other? ==> !Advances(step.e, u)
    ensures Runs.Acked(r.store, Uuid(u)) == Runs.Acked(m.store, Uuid(u))
    ensures StoreEvent(step).Some? ==> !Advances(StoreEvent(step).value, u)
  {
    var e := StoreEvent(step);
    if e.Some? {
      Runs.AckedStep(h, m.store, e.value, Uuid(u));
    }
  }

  /**
   * Once its write proof is superseded, by a fresh proof, a logout, an expired session or otherwise, the
   * acknowledged bytes of a web upload are frozen and it is not published, in every later moment of any
   * run, unless the device continues it under its own signed requests.
   */
  lemma {:induction false} SupersededUploadIsFrozen(
    h: Hash, ms: seq<Moment>, steps: seq<Step>, times: seq<int>, i: nat, j: nat, u: Grants.UploadId)
    requires Run(h, ms, steps, times) && i <= j < |ms| && Superseded(ms[i].auth, u) && Untouched(steps, u, i, j)
    ensures Runs.Acked(ms[j].store, Uuid(u)) == Runs.Acked(ms[i].store, Uuid(u))
    ensures forall k | i <= k < j && StoreEvent(steps[k]).Some? :: !Advances(StoreEvent(steps[k]).value, u)
    decreases j
  {
    if i < j {
      SupersededUploadIsFrozen(h, ms, steps, times, i, j - 1, u);
      SupersededStays(h, ms, steps, times, i, j - 1, u);
      FrozenNext(h, ms, steps, times, j - 1, u);
    }
  }

  lemma FrozenNext(h: Hash, ms: seq<Moment>, steps: seq<Step>, times: seq<int>, i: nat, u: Grants.UploadId)
    requires Run(h, ms, steps, times) && i < |steps| && Superseded(ms[i].auth, u)
    requires steps[i].Other? ==> !Advances(steps[i].e, u)
    ensures Runs.Acked(ms[i + 1].store, Uuid(u)) == Runs.Acked(ms[i].store, Uuid(u))
    ensures StoreEvent(steps[i]).Some? ==> !Advances(StoreEvent(steps[i]).value, u)
  {
    assert StepAt(h, ms, steps, times, i);
    StepFreezes(h, ms[i], steps[i], times[i], ms[i + 1], u);
  }

  // ---------------------------------------------------------------- publication

  /** A commit of the upload's file is under way. */
  predicate Committing(s: State, u: Grants.UploadId) {
    s.open.Some? && s.open.value.temp == Uuid(u)
  }

  lemma OpenAfter(h: Hash, s: State, e: Event, u: Grants.UploadId)
    requires Enabled(h, s, e) && Committing(Next(h, s, e), u)
    ensures (Committing(s, u) && !e.Insert?) || (e.Prepare? && e.temp == Uuid(u))
  {
    if !e.Sql? && !e.CommitSql? && !e.Prepare? {
      Runs.QuietFrame(h, s, e);
    }
  }

  lemma CommittingStep(h: Hash, m: Moment, step: Step, now: int, r: Moment, u: Grants.UploadId)
    requires Steps(h, m, step, now, r) && Committing(r.store, u) && (Committing(m.store, u) ==> !Superseded(m.auth, u))
    requires step.Other? ==> !Advances(step.e, u)
    ensures !Superseded(r.auth, u)
  {
    var e := StoreEvent(step);
    if e.Some? {
      OpenAfter(h, m.store, e.value, u);
    }
  }

  /** Until a web upload's commit has ended, the write proof it was begun under stays current. */
  lemma {:induction false} PublishedOnlyWhileCurrent(
    h: Hash, ms: seq<Moment>, steps: seq<Step>, times: seq<int>, i: nat, u: Grants.UploadId)
    requires Run(h, ms, steps, times) && i < |ms| && Untouched(steps, u, 0, i) && Committing(ms[i].store, u)
    ensures !Superseded(ms[i].auth, u)
  {
    assert i > 0;
    assert StepAt(h, ms, steps, times, i - 1);
    if Committing(ms[i - 1].store, u) {
      PublishedOnlyWhileCurrent(h, ms, steps, times, i - 1, u);
    }
    CommittingStep(h, ms[i - 1], steps[i - 1], times[i - 1], ms[i], u);
  }

  // ---------------------------------------------------------------- the purge of uploads

  /** Web uploads whose write grant is current and has not expired, as the purge finds them. */
  function GrantedUploads(s: Grants.State, now: int): set<Name> {
    set u | u in s.uploads
            && (s.uploads[u].session, Grants.FilesWrite) in s.sub
            && s.sub[(s.uploads[u].session, Grants.FilesWrite)].challenge == s.uploads[u].grant
            && s.sub[(s.uploads[u].session, Grants.FilesWrite)].expiresAt > now :: Uuid(u)
  }

  /** The purge spares every web upload that its owner can still use and has used within a day. */
  lemma PurgeSparesUsable(m: Moment, u: Grants.UploadId, token: Grants.Token, now: int)
    requires Uuid(u) in m.store.db.uploads && Grants.Owned(m.auth, u, token, now)
    requires now <= m.store.db.uploads[Uuid(u)].touchedAt + 24 * 3600
    ensures Uuid(u) !in Server.Stale(m.store.db, GrantedUploads(m.auth, now), now)
  {
    assert Uuid(u) in GrantedUploads(m.auth, now);
  }

  /** The purge takes every web upload whose write proof is superseded, unless a request is using it. */
  lemma PurgeTakesSuperseded(m: Moment, u: Grants.UploadId, now: int)
    requires Uuid(u) in m.store.db.uploads && m.store.db.uploads[Uuid(u)].web && Superseded(m.auth, u)
    requires Uuid(u) !in m.store.tasks
    ensures var r := Server.DiscardedAll(
                       m.store,
                       Server.Stale(m.store.db, GrantedUploads(m.auth, now), now) - m.store.tasks.Keys);
            Uuid(u) !in r.db.uploads && Uuid(u) !in r.tmp
  {
    assert Uuid(u) !in GrantedUploads(m.auth, now);
  }
}
