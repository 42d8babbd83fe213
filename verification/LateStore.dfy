/** What operations that outlive their requests can do to the blobs of the store. */
module LateStore {
  import opened Bytes
  import opened Paths
  import opened Tables
  import opened Storage
  import Runs
  import LateWrites

  /** The file of a chunked upload from its hash check on, with what is still on its way to it. */
  ghost predicate AtPublication(u: LateWrites.State) {
    u.published == Some(u.content) && u.writer.None? && |u.content| == u.size && LateWrites.Fitting(u)
  }

  lemma FinishIsPublication(h: Hash, us: seq<LateWrites.State>, vs: seq<LateWrites.Event>, k: nat)
    requires LateWrites.Run(h, us, vs) && k < |vs| && vs[k].Finish?
    ensures AtPublication(us[k + 1]) && us[k + 1].content == us[k].content
    ensures LateWrites.Clean(us[k + 1]) <==> LateWrites.Clean(us[k])
  {
    assert LateWrites.StepAt(h, us, vs, k);
    LateWrites.RunFitting(h, us, vs, k + 1);
  }

  /** For each blob that came from a chunked upload, that upload at its publication. */
  ghost predicate Uploaded(s: State, files: map<Name, LateWrites.State>) {
    forall n | n in files && n in s.published :: AtPublication(files[n]) && files[n].content == s.published[n]
  }

  ghost predicate Leads(h: Hash, u: LateWrites.State, content: bytes) {
    exists rs: seq<LateWrites.State>, vs: seq<LateWrites.Event> ::
      LateWrites.Follows(h, u, rs, vs) && rs[|vs|].content == content
  }

  /** Contents that blobs can have on disk after some of what was on its way has landed. */
  ghost predicate Possible(h: Hash, files: map<Name, LateWrites.State>, landed: map<Name, bytes>) {
    forall n | n in landed :: n in files && Leads(h, files[n], landed[n])
  }

  /** What a reader finds under the name. */
  ghost function OnDisk(s: State, landed: map<Name, bytes>, n: Name): bytes
    requires n in s.blobs && s.blobs[n].Regular?
  {
    if n in landed then landed[n] else s.blobs[n].content
  }

  ghost predicate Intact(s: State, landed: map<Name, bytes>, f: FileRef) {
    && f.blob in s.published && f.blob in s.blobs && s.blobs[f.blob].Regular?
    && OnDisk(s, landed, f.blob) == s.published[f.blob]
  }

  ghost predicate AllIntact(s: State, landed: map<Name, bytes>) {
    forall f | Held(s.db, f) :: Intact(s, landed, f)
  }

  lemma CleanIsIntact(h: Hash, s: State, files: map<Name, LateWrites.State>, landed: map<Name, bytes>, f: FileRef)
    requires Stored(h, s, f) && Uploaded(s, files) && Possible(h, files, landed)
    requires f.blob in files ==> LateWrites.Clean(files[f.blob])
    ensures Intact(s, landed, f)
  {
    if f.blob in landed {
      LateWrites.StaysExactlyWhenClean(h, files[f.blob]);
    }
  }

  lemma IntactIsClean(h: Hash, s: State, files: map<Name, LateWrites.State>, f: FileRef)
    requires Stored(h, s, f) && Uploaded(s, files) && f.blob in files
    requires forall landed | Possible(h, files, landed) :: Intact(s, landed, f)
    ensures LateWrites.Clean(files[f.blob])
  {
    var u := files[f.blob];
    forall rs: seq<LateWrites.State>, vs: seq<LateWrites.Event> | LateWrites.Follows(h, u, rs, vs)
      ensures rs[|vs|].content == u.content
    {
      var landed := map[f.blob := rs[|vs|].content];
      assert Leads(h, u, landed[f.blob]);
      assert Possible(h, files, landed);
      assert Intact(s, landed, f);
    }
    LateWrites.StaysExactlyWhenClean(h, u);
  }

  /**
   * In every reachable state: every row finds its content on disk, whatever late operations land in
   * whatever order, if and only if each upload behind a row was clean at its hash check.
   */
  lemma ContentSurvivesExactlyWhenClean(
    h: Hash, ss: seq<State>, es: seq<Event>, i: nat, files: map<Name, LateWrites.State>)
    requires Runs.Run(h, ss, es) && i < |ss| && Uploaded(ss[i], files)
    ensures (forall landed | Possible(h, files, landed) :: AllIntact(ss[i], landed))
       <==> (forall f | Held(ss[i].db, f) && f.blob in files :: LateWrites.Clean(files[f.blob]))
  {
    Runs.RunInv(h, ss, es, i);
    var s := ss[i];
    if forall f | Held(s.db, f) && f.blob in files :: LateWrites.Clean(files[f.blob]) {
      forall landed, f | Possible(h, files, landed) && Held(s.db, f)
        ensures Intact(s, landed, f)
      {
        CleanIsIntact(h, s, files, landed, f);
      }
    }
    if forall landed | Possible(h, files, landed) :: AllIntact(s, landed) {
      forall f | Held(s.db, f) && f.blob in files
        ensures LateWrites.Clean(files[f.blob])
      {
        assert forall landed | Possible(h, files, landed) :: AllIntact(s, landed) && Intact(s, landed, f);
        IntactIsClean(h, s, files, f);
      }
    }
  }

  /** An intact row has its recorded digest and size. */
  lemma IntactIsReadable(h: Hash, ss: seq<State>, es: seq<Event>, i: nat, landed: map<Name, bytes>, f: FileRef)
    requires Runs.Run(h, ss, es) && i < |ss| && Held(ss[i].db, f) && Intact(ss[i], landed, f)
    ensures h(OnDisk(ss[i], landed, f.blob)) == f.digest && |OnDisk(ss[i], landed, f.blob)| == f.size
  {
    Runs.RunInv(h, ss, es, i);
    assert Stored(h, ss[i], f);
  }

  /** The store with the blobs as a reader finds them. */
  ghost function AfterLandings(s: State, landed: map<Name, bytes>): State {
    s.(blobs := map n | n in s.blobs ::
                  if n in landed && s.blobs[n].Regular? then Regular(landed[n]) else s.blobs[n])
  }

  /** A chunk of a live file reads the same whatever has landed, if the upload behind the file was clean. */
  lemma CleanFileReadsTheSame(
    h: Hash, ss: seq<State>, es: seq<Event>, i: nat, files: map<Name, LateWrites.State>, landed: map<Name, bytes>,
    p: Path, revision: nat, offset: nat)
    requires Runs.Run(h, ss, es) && i < |ss| && Uploaded(ss[i], files) && Possible(h, files, landed)
    requires IsLive(ss[i].db, p)
    requires var n := ss[i].db.entries[p].file.blob; n in files ==> LateWrites.Clean(files[n])
    ensures Runs.Chunk(AfterLandings(ss[i], landed), p, revision, offset) == Runs.Chunk(ss[i], p, revision, offset)
  {
    Runs.RunInv(h, ss, es, i);
    var f := ss[i].db.entries[p].file;
    assert Held(ss[i].db, f);
    assert Stored(h, ss[i], f);
    CleanIsIntact(h, ss[i], files, landed, f);
    IntactReadsTheSame(ss[i], landed, p, revision, offset);
  }

  lemma IntactReadsTheSame(s: State, landed: map<Name, bytes>, p: Path, revision: nat, offset: nat)
    requires IsLive(s.db, p) && Intact(s, landed, s.db.entries[p].file)
    requires var n := s.db.entries[p].file.blob; s.blobs[n] == Regular(s.published[n])
    ensures Runs.Chunk(AfterLandings(s, landed), p, revision, offset) == Runs.Chunk(s, p, revision, offset)
  {
    var n := s.db.entries[p].file.blob;
    assert AfterLandings(s, landed).blobs[n] == s.blobs[n];
  }
}
