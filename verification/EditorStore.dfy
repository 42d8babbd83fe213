/** The server that the editor's protocol talks to is one path of the file store. */
module EditorStore {
  import opened Bytes
  import opened Paths
  import opened Tables
  import opened Storage
  import opened Runs
  import Editor

  /** The contents a path has had, by revision, up to some moment of a run. */
  ghost function Versions(h: Hash, ss: seq<State>, es: seq<Event>, p: Path, i: nat): map<nat, bytes>
    requires Run(h, ss, es) && i < |ss|
  {
    RunInv(h, ss, es, i);
    var before := if i == 0 then map[] else Versions(h, ss, es, p, i - 1);
    if IsLive(ss[i].db, p) then
      LiveContent(h, ss[i], p);
      before[ss[i].db.entries[p].revision := ContentOf(ss[i], p)]
    else
      before
  }

  /** The path as the editor sees it. */
  ghost function View(h: Hash, ss: seq<State>, es: seq<Event>, p: Path, i: nat): Editor.Server
    requires Run(h, ss, es) && i < |ss|
  {
    Editor.Server(
      Versions(h, ss, es, p, i),
      if IsLive(ss[i].db, p) then Some(ss[i].db.entries[p].revision) else None,
      Revision(ss[i].db, p))
  }

  /** What a write of the editor protocol does to its server: new content or none, under a larger revision. */
  ghost predicate Written(v: Editor.Server, w: Editor.Server) {
    exists revision, content ::
      revision > v.generation && w == AfterWrite(v, revision, content)
  }

  ghost function AfterWrite(v: Editor.Server, revision: nat, content: Option<bytes>): Editor.Server {
    if content.Some? then Editor.Server(v.contents[revision := content.value], Some(revision), revision)
    else v.(current := None, generation := revision)
  }

  lemma UnchangedRow(h: Hash, ss: seq<State>, es: seq<Event>, p: Path, i: nat)
    requires Run(h, ss, es) && i + 1 < |ss|
    requires p in ss[i].db.entries && p in ss[i + 1].db.entries && ss[i].db.entries[p] == ss[i + 1].db.entries[p]
    ensures View(h, ss, es, p, i + 1) == View(h, ss, es, p, i)
  {
    if IsLive(ss[i].db, p) {
      RevisionNamesContent(h, ss, es, i, i + 1, p);
      var before, r := Versions(h, ss, es, p, i), ss[i].db.entries[p].revision;
      assert before[r := ContentOf(ss[i], p)] == before;
    }
  }

  lemma NewVersion(h: Hash, ss: seq<State>, es: seq<Event>, p: Path, i: nat)
    requires Run(h, ss, es) && i + 1 < |ss| && IsLive(ss[i + 1].db, p)
    ensures ss[i + 1].db.entries[p].file.blob in ss[i + 1].published
    ensures View(h, ss, es, p, i + 1)
         == AfterWrite(View(h, ss, es, p, i), Revision(ss[i + 1].db, p), Some(ContentOf(ss[i + 1], p)))
  {
    RunInv(h, ss, es, i + 1);
    LiveContent(h, ss[i + 1], p);
  }

  lemma ChangedRow(h: Hash, ss: seq<State>, es: seq<Event>, p: Path, i: nat)
    requires Run(h, ss, es) && i + 1 < |ss| && p in ss[i + 1].db.entries
    requires ss[i + 1].db.entries[p].revision > Revision(ss[i].db, p)
    ensures Written(View(h, ss, es, p, i), View(h, ss, es, p, i + 1))
  {
    RunInv(h, ss, es, i + 1);
    var row := ss[i + 1].db.entries[p];
    var v, w := View(h, ss, es, p, i), View(h, ss, es, p, i + 1);
    if row.Live? {
      NewVersion(h, ss, es, p, i);
      assert w == AfterWrite(v, row.revision, Some(ContentOf(ss[i + 1], p)));
    } else {
      assert w == AfterWrite(v, row.revision, None);
    }
  }

  /**
   * Every step of the store, crashes and folder renames included, is for one path either nothing or one
   * write of the editor protocol's server; so what the editor's runs guarantee holds against the store.
   */
  lemma StoreStepIsServerStep(h: Hash, ss: seq<State>, es: seq<Event>, p: Path, i: nat)
    requires Run(h, ss, es) && i + 1 < |ss|
    ensures || View(h, ss, es, p, i + 1) == View(h, ss, es, p, i)
            || Written(View(h, ss, es, p, i), View(h, ss, es, p, i + 1))
  {
    RunInv(h, ss, es, i);
    RunAfter(h, ss, es, i, i + 1);
    if p in ss[i + 1].db.entries {
      if p in ss[i].db.entries && ss[i].db.entries[p] == ss[i + 1].db.entries[p] {
        UnchangedRow(h, ss, es, p, i);
      } else {
        ChangedRow(h, ss, es, p, i);
      }
    }
  }

  /** The view keeps the conditions that the editor's proofs assume of their server. */
  lemma {:induction false} ViewOk(h: Hash, ss: seq<State>, es: seq<Event>, p: Path, i: nat)
    requires Run(h, ss, es) && i < |ss|
    ensures Editor.ServerOk(View(h, ss, es, p, i))
  {
    if i > 0 {
      ViewOk(h, ss, es, p, i - 1);
      StoreStepIsServerStep(h, ss, es, p, i - 1);
    } else {
      RunInv(h, ss, es, 0);
    }
  }

  // ---------------------------------------------------------------- editor saves as store steps

  /** The namespace check never refuses an edit of a live file: nothing live is above or below it. */
  lemma EditOfLiveFileAllowed(h: Hash, s: State, p: Path, base: nat, file: FileRef, now: int)
    requires Inv(h, s) && IsLive(s.db, p)
    ensures Allowed(s.db, Commit(p, base, file, {}, now)) <==> Revision(s.db, p) == base
  {
    assert forall q | IsLive(s.db, q) :: !Below(q, p) && !Below(p, q);
  }

  /** `save`'s own check, made in the transaction: the file is live at the revision the request names. */
  ghost predicate EditAllowed(s: State, p: Path, q: Editor.Request) {
    q.base > 0 && IsLive(s.db, p) && Revision(s.db, p) == q.base
  }

  /** The open commit publishes the bytes of an editor's request at the path. */
  ghost predicate Publishes(s: State, p: Path, q: Editor.Request) {
    && s.open.Some? && s.open.value.t.Commit?
    && var t := s.open.value.t;
    t.path == p && t.base == q.base && t.file.blob in s.published && s.published[t.file.blob] == q.code
  }

  /**
   * Exactly when the protocol's server accepts a save, the store lets a commit of it through: the
   * editor's own check, the namespace check and the compare-and-set together.
   */
  lemma StoreAcceptsWhatServerAccepts(
    h: Hash, ss: seq<State>, es: seq<Event>, p: Path, i: nat, q: Editor.Request, file: FileRef, now: int)
    requires Run(h, ss, es) && i < |ss|
    ensures Editor.ServerAccepts(View(h, ss, es, p, i), q)
            <==> EditAllowed(ss[i], p, q) && Allowed(ss[i].db, Commit(p, q.base, file, {}, now))
  {
    RunInv(h, ss, es, i);
    if IsLive(ss[i].db, p) {
      EditOfLiveFileAllowed(h, ss[i], p, q.base, file, now);
    }
  }

  lemma CommittedRow(h: Hash, s: State, e: Event, p: Path)
    requires Inv(h, s) && Enabled(h, s, e) && e.CommitSql? && s.open.value.t.path == p
    ensures var r := Next(h, s, e);
            && IsLive(r.db, p) && r.db.entries[p].revision == s.db.generation + 1
            && r.db.entries[p].file.blob == s.open.value.t.file.blob && r.published == s.published
            && Revision(s.db, p) == s.open.value.t.base <= s.db.generation
  {
  }

  /** The commit of an editor's save is, for its path, the accepting step of the protocol's server. */
  lemma CommittedEditIsTake(h: Hash, ss: seq<State>, es: seq<Event>, p: Path, i: nat, q: Editor.Request)
    requires Run(h, ss, es) && i < |es| && es[i].CommitSql? && Publishes(ss[i], p, q)
    requires q.base > 0 && IsLive(ss[i].db, p)
    ensures Editor.ServerAccepts(View(h, ss, es, p, i), q)
    ensures ss[i].db.generation + 1 > View(h, ss, es, p, i).generation
    ensures View(h, ss, es, p, i + 1) == AfterWrite(View(h, ss, es, p, i), ss[i].db.generation + 1, Some(q.code))
  {
    CommittedAt(h, ss, es, p, i);
    NewVersion(h, ss, es, p, i);
  }

  lemma CommittedAt(h: Hash, ss: seq<State>, es: seq<Event>, p: Path, i: nat)
    requires Run(h, ss, es) && i < |es| && es[i].CommitSql? && ss[i].open.Some?
    requires ss[i].open.value.t.Commit? && ss[i].open.value.t.path == p
    ensures var s, r := ss[i], ss[i + 1];
            && IsLive(r.db, p) && Revision(r.db, p) == s.db.generation + 1
            && r.db.entries[p].file.blob == s.open.value.t.file.blob && r.published == s.published
            && Revision(s.db, p) == s.open.value.t.base <= s.db.generation
  {
    RunInv(h, ss, es, i);
    assert StepAt(h, ss, es, i);
    CommittedRow(h, ss[i], es[i], p);
  }

  // ---------------------------------------------------------------- an editor beside the store

  /** An editor step beside one step of the store: its own, or the store's as its server sees it. */
  ghost predicate Accompanies(
    h: Hash, ss: seq<State>, es: seq<Event>, p: Path, i: nat, j: nat, d: Editor.State, e: Editor.Event)
    requires Run(h, ss, es) && i < |ss| && Editor.Enabled(d, e)
  {
    if e.Take? && Editor.ServerAccepts(d.server, d.requests[e.request]) then
      && j == i + 1 && i < |es| && es[i].CommitSql? && Publishes(ss[i], p, d.requests[e.request])
      && e.revision == ss[i].db.generation + 1
    else if e.OtherWrite? then
      j == i + 1 && i < |es|
    else
      i <= j
  }

  /** A run of the editor whose server is the path as the store's run has it at the moments `at`. */
  ghost predicate Beside(
    h: Hash, ss: seq<State>, es: seq<Event>, p: Path, ds: seq<Editor.State>, vs: seq<Editor.Event>, at: seq<nat>)
    requires Run(h, ss, es)
  {
    && Editor.Run(ds, vs) && |at| == |ds|
    && (forall k | 0 <= k < |at| :: at[k] < |ss| && ds[k].server == View(h, ss, es, p, at[k]))
    && (forall k: nat {:trigger Editor.StepAt(ds, vs, k)} | k < |vs| ::
          Editor.StepAt(ds, vs, k) && Accompanies(h, ss, es, p, at[k], at[k + 1], ds[k], vs[k]))
  }

  lemma LiveVersion(h: Hash, ss: seq<State>, es: seq<Event>, p: Path, i: nat)
    requires Run(h, ss, es) && i < |ss| && IsLive(ss[i].db, p)
    ensures ss[i].db.entries[p].file.blob in ss[i].published
    ensures var v := View(h, ss, es, p, i);
            v.current == Some(Revision(ss[i].db, p)) && v.current.value in v.contents
            && v.contents[v.current.value] == ContentOf(ss[i], p)
  {
    RunInv(h, ss, es, i);
    LiveContent(h, ss[i], p);
  }

  /**
   * The store never commits an editor save over a content whose text the editor had not recorded:
   * at an earlier moment the editor held exactly the revision that the commit replaces, together
   * with the text of the bytes that the store has at the path when it commits.
   */
  lemma StoreSavesReplaceRecordedVersions(
    h: Hash, ss: seq<State>, es: seq<Event>, p: Path, ds: seq<Editor.State>, vs: seq<Editor.Event>, at: seq<nat>,
    k: nat)
    returns (j: nat)
    requires Run(h, ss, es) && Beside(h, ss, es, p, ds, vs, at) && k < |vs| && vs[k].Take?
    requires vs[k].request in ds[k].requests && Editor.ServerAccepts(ds[k].server, ds[k].requests[vs[k].request])
    ensures var i, q := at[k], ds[k].requests[vs[k].request];
            && i < |es| && es[i].CommitSql? && Publishes(ss[i], p, q)
            && IsLive(ss[i].db, p) && Revision(ss[i].db, p) == q.base
            && ss[i].db.entries[p].file.blob in ss[i].published
            && j <= k && ds[j].client.entry == Some(q.base)
            && ds[j].client.savedText == Editor.Normalize(ContentOf(ss[i], p))
  {
    assert Editor.StepAt(ds, vs, k);
    j := Editor.SavesReplaceRecordedVersions(ds, vs, k);
    LiveVersion(h, ss, es, p, at[k]);
  }

  // ---------------------------------------------------------------- any editor fits beside any run

  /** A fresh page can be opened at any moment of a run. */
  lemma BesideStarts(h: Hash, ss: seq<State>, es: seq<Event>, p: Path, i: nat, d: Editor.State)
    requires Run(h, ss, es) && i < |ss| && d.server == View(h, ss, es, p, i)
    requires Editor.Init(d.(server := Editor.Server(map[], None, 0)))
    ensures Beside(h, ss, es, p, [d], [], [i])
  {
    ViewOk(h, ss, es, p, i);
    forall k: nat
      ensures Editor.StepAt([d], [], k)
    {
    }
  }

  lemma BesideSnoc(
    h: Hash, ss: seq<State>, es: seq<Event>, p: Path, ds: seq<Editor.State>, vs: seq<Editor.Event>, at: seq<nat>,
    e: Editor.Event, j: nat)
    requires Run(h, ss, es) && Beside(h, ss, es, p, ds, vs, at) && j < |ss|
    requires Editor.Enabled(ds[|vs|], e) && Accompanies(h, ss, es, p, at[|vs|], j, ds[|vs|], e)
    requires Editor.Next(ds[|vs|], e).server == View(h, ss, es, p, j)
    ensures Beside(h, ss, es, p, ds + [Editor.Next(ds[|vs|], e)], vs + [e], at + [j])
  {
    var ds', vs', at' := ds + [Editor.Next(ds[|vs|], e)], vs + [e], at + [j];
    forall k: nat
      ensures Editor.StepAt(ds', vs', k)
      ensures k < |vs'| ==> Accompanies(h, ss, es, p, at'[k], at'[k + 1], ds'[k], vs'[k])
    {
      assert Editor.StepAt(ds, vs, k);
    }
  }

  /** Whatever the editor does on its own, and a save that its server refuses, goes on beside the store. */
  lemma EditorStepFits(
    h: Hash, ss: seq<State>, es: seq<Event>, p: Path, ds: seq<Editor.State>, vs: seq<Editor.Event>, at: seq<nat>,
    e: Editor.Event)
    requires Run(h, ss, es) && Beside(h, ss, es, p, ds, vs, at) && Editor.Enabled(ds[|vs|], e) && !e.OtherWrite?
    requires e.Take? ==> !Editor.ServerAccepts(ds[|vs|].server, ds[|vs|].requests[e.request])
    ensures Beside(h, ss, es, p, ds + [Editor.Next(ds[|vs|], e)], vs + [e], at + [at[|vs|]])
  {
    BesideSnoc(h, ss, es, p, ds, vs, at, e, at[|vs|]);
  }

  /** A commit of a save that is still on its way is taken by the editor's server. */
  lemma SaveFits(
    h: Hash, ss: seq<State>, es: seq<Event>, p: Path, ds: seq<Editor.State>, vs: seq<Editor.Event>, at: seq<nat>,
    n: nat)
    requires Run(h, ss, es) && Beside(h, ss, es, p, ds, vs, at) && at[|vs|] < |es| && es[at[|vs|]].CommitSql?
    requires n in ds[|vs|].wire && n in ds[|vs|].requests && Publishes(ss[at[|vs|]], p, ds[|vs|].requests[n])
    requires ds[|vs|].requests[n].base > 0 && IsLive(ss[at[|vs|]].db, p)
    ensures var i := at[|vs|];
            var e := Editor.Take(n, ss[i].db.generation + 1);
            && Editor.Enabled(ds[|vs|], e) && Editor.ServerAccepts(ds[|vs|].server, ds[|vs|].requests[n])
            && Beside(h, ss, es, p, ds + [Editor.Next(ds[|vs|], e)], vs + [e], at + [i + 1])
  {
    var i, d := at[|vs|], ds[|vs|];
    TakeAccompanies(h, ss, es, p, i, d, n);
    BesideSnoc(h, ss, es, p, ds, vs, at, Editor.Take(n, ss[i].db.generation + 1), i + 1);
  }

  lemma TakeAccompanies(h: Hash, ss: seq<State>, es: seq<Event>, p: Path, i: nat, d: Editor.State, n: nat)
    requires Run(h, ss, es) && i < |es| && es[i].CommitSql? && d.server == View(h, ss, es, p, i)
    requires n in d.wire && n in d.requests && Publishes(ss[i], p, d.requests[n])
    requires d.requests[n].base > 0 && IsLive(ss[i].db, p)
    ensures var e := Editor.Take(n, ss[i].db.generation + 1);
            && Editor.Enabled(d, e) && Editor.ServerAccepts(d.server, d.requests[n])
            && Accompanies(h, ss, es, p, i, i + 1, d, e) && Editor.Next(d, e).server == View(h, ss, es, p, i + 1)
  {
    CommittedEditIsTake(h, ss, es, p, i, d.requests[n]);
    AcceptedTake(d, n, ss[i].db.generation + 1);
  }

  lemma AcceptedTake(d: Editor.State, n: nat, revision: nat)
    requires n in d.wire && n in d.requests && Editor.ServerAccepts(d.server, d.requests[n])
    requires revision > d.server.generation
    ensures Editor.Enabled(d, Editor.Take(n, revision))
    ensures Editor.Next(d, Editor.Take(n, revision)).server == AfterWrite(d.server, revision, Some(d.requests[n].code))
  {
  }

  /** Every other step of the store is a foreign write for the editor, or nothing. */
  lemma StoreStepFits(
    h: Hash, ss: seq<State>, es: seq<Event>, p: Path, ds: seq<Editor.State>, vs: seq<Editor.Event>, at: seq<nat>)
    returns (e: Editor.Event)
    requires Run(h, ss, es) && Beside(h, ss, es, p, ds, vs, at) && at[|vs|] < |es|
    ensures Editor.Enabled(ds[|vs|], e)
    ensures Beside(h, ss, es, p, ds + [Editor.Next(ds[|vs|], e)], vs + [e], at + [at[|vs|] + 1])
  {
    var i, d := at[|vs|], ds[|vs|];
    StoreStepIsServerStep(h, ss, es, p, i);
    if View(h, ss, es, p, i + 1) == d.server {
      e := Editor.Edit(d.client.value);
      Editor.RunInv(ds, vs, |vs|);
    } else {
      var revision, content :| revision > d.server.generation
        && View(h, ss, es, p, i + 1) == AfterWrite(d.server, revision, content);
      e := Editor.OtherWrite(revision, content);
      ForeignWrite(d, revision, content);
    }
    BesideSnoc(h, ss, es, p, ds, vs, at, e, i + 1);
  }

  lemma ForeignWrite(d: Editor.State, revision: nat, content: Option<bytes>)
    requires revision > d.server.generation
    ensures Editor.Enabled(d, Editor.OtherWrite(revision, content))
    ensures Editor.Next(d, Editor.OtherWrite(revision, content)).server == AfterWrite(d.server, revision, content)
  {
  }
}
