/** What every transaction keeps, and what two states of one run can have in common. */
module Transactions {
  import opened Bytes
  import opened Paths
  import opened Tables
  import Folders

  /** The UUID of a new blob names no content yet. */
  ghost predicate FreshFile(db: Db, t: Transaction) {
    t.Commit? ==> Unheld(db, t.file.blob)
  }

  lemma CommitKeeps(db: Db, t: Transaction)
    requires Good(db) && t.Commit? && Allowed(db, t) && FreshFile(db, t)
    ensures Good(Apply(db, t)) && Later(db, Apply(db, t))
  {
    var d := db.(uploads := db.uploads - t.drop);
    assert Good(d) && Clear(d, t.path) && Unheld(d, t.file.blob);
    PublishKeeps(d, t.path, t.file, t.now);
  }

  lemma RestoreKeeps(db: Db, t: Transaction)
    requires Good(db) && t.Restore? && Allowed(db, t)
    ensures Good(Apply(db, t)) && Later(db, Apply(db, t))
  {
    var row := db.trash[t.id];
    TrashKeeps(db, db.trash - {t.id});
    PublishKeeps(db.(trash := db.trash - {t.id}), row.path, row.file, t.now);
  }

  /** Every transaction keeps the invariant and leads to a later state. */
  lemma ApplyKeeps(db: Db, t: Transaction)
    requires Good(db) && Allowed(db, t) && FreshFile(db, t)
    ensures Good(Apply(db, t)) && Later(db, Apply(db, t))
  {
    match t
    case Commit(_, _, _, _, _) => CommitKeeps(db, t);
    case Delete(path, _, now) => DiscardKeeps(db, path, now);
    case Restore(_, _) => RestoreKeeps(db, t);
    case PurgeExpired(now) => TrashKeeps(db, Unexpired(db.trash, now));
    case PurgeItem(id) => TrashKeeps(db, db.trash - {id});
    case RenameFolder(dir, name, now) => Folders.RenameMovesTree(db, dir, name, now);
    case DeleteFolder(dir, now) => Folders.DeleteEmptiesFolder(db, dir, now);
  }

  lemma DiscardHeld(db: Db, p: Path, now: int)
    requires IsLive(db, p)
    ensures forall f | Held(Discard(db, p, db.entries[p].file, now), f) :: Held(db, f)
  {
  }

  lemma MovedHeld(db: Db, d: Db, dir: Path, target: Path)
    requires Folders.TreeMoved(db, dir, d, target) && d.trash == db.trash
    ensures forall f | Held(d, f) :: Held(db, f)
  {
    forall f, p | IsLive(d, p) && d.entries[p].file == f
      ensures Held(db, f)
    {
      if Below(p, target) {
        Folders.DestBelow(p, target, dir);
        assert db.entries[Dest(p, target, dir)].file == f;
      }
    }
  }

  lemma RenameHeld(db: Db, dir: Path, name: bytes, now: int)
    requires Good(db) && Allowed(db, RenameFolder(dir, name, now))
    ensures forall f | Held(Apply(db, RenameFolder(dir, name, now)), f) :: Held(db, f)
  {
    Folders.RenameMovesTree(db, dir, name, now);
    MovedHeld(db, Apply(db, RenameFolder(dir, name, now)), dir, Sibling(dir, name));
  }

  /** No transaction invents content: what a later row names was named before, or is the committed file. */
  lemma ApplyHeld(db: Db, t: Transaction)
    requires Good(db) && Allowed(db, t)
    ensures forall f | Held(Apply(db, t), f) :: Held(db, f) || (t.Commit? && f == t.file)
  {
    match t
    case Delete(path, _, now) => DiscardHeld(db, path, now);
    case RenameFolder(dir, name, now) => RenameHeld(db, dir, name, now);
    case DeleteFolder(dir, now) => Folders.DeleteEmptiesFolder(db, dir, now);
    case _ =>
  }

  /** What the caller unlinks afterwards was named before and is named by nothing any more. */
  lemma DroppedUnheld(db: Db, t: Transaction, n: Name)
    requires Good(db) && Allowed(db, t) && FreshFile(db, t) && n in Dropped(db, t)
    ensures Unheld(Apply(db, t), n) && !Unheld(db, n)
  {
  }

  // ---------------------------------------------------------------- two states of one run

  /** A revision is used once: if two states of a run show it, it is the same row of the same path. */
  lemma RevisionNeverReused(a: Db, b: Db, p: Path, q: Path)
    requires Good(a) && Later(a, b)
    requires p in a.entries && q in b.entries && a.entries[p].revision == b.entries[q].revision
    ensures p == q && a.entries[p] == b.entries[q]
  {
  }

  /** Two states with one generation have the same entries. */
  lemma GenerationNamesEntries(a: Db, b: Db)
    requires Good(a) && Good(b) && Later(a, b) && a.generation == b.generation
    ensures a.entries == b.entries
  {
  }

  /** Uploads, edits and effective deletes are compare-and-set on one path. */
  predicate Replaces(t: Transaction, path: Path, base: nat) {
    (t.Commit? && t.path == path && t.base == base) || (t.Delete? && t.path == path && t.base == base)
  }

  /** At most one compare-and-set per path and base is accepted in a whole run. */
  lemma NoLostUpdate(db: Db, t: Transaction, later: Db, u: Transaction, path: Path, base: nat)
    requires Good(db) && Allowed(db, t) && Replaces(t, path, base)
    requires Later(Apply(db, t), later)
    requires Replaces(u, path, base)
    ensures Revision(db, path) == base && Revision(Apply(db, t), path) > db.generation >= base
    ensures !Allowed(later, u)
  {
  }

  // ---------------------------------------------------------------- row by row

  /** A commit puts its file at its path under the next revision, and drops the uploads it names. */
  lemma CommitRows(db: Db, t: Transaction)
    requires t.Commit? && Allowed(db, t)
    ensures var d := Apply(db, t);
            && d.entries == db.entries[t.path := Live(db.generation + 1, t.file, t.now)]
            && d.generation == db.generation + 1 && d.trash == db.trash && d.uploads == db.uploads - t.drop
  {
  }

  /** A deletion leaves a tombstone under the next revision and one trash row with the content, for 30 days. */
  lemma DeleteRows(db: Db, t: Transaction) returns (id: nat)
    requires t.Delete? && Allowed(db, t)
    ensures var d := Apply(db, t);
            && d.entries == db.entries[t.path := Tombstone(db.generation + 1, t.now)]
            && d.generation == db.generation + 1 && d.uploads == db.uploads
            && id !in db.trash && db.entries[t.path].Live?
            && d.trash == db.trash[id := TrashRow(t.path, db.entries[t.path].file, t.now, t.now + 30 * 86400)]
  {
    id := NextId(db.trash);
  }

  /** A restoration puts the trashed content back at its path under the next revision; only its row leaves the trash. */
  lemma RestoreRows(db: Db, t: Transaction)
    requires t.Restore? && Allowed(db, t)
    ensures t.id in db.trash
    ensures var d, row := Apply(db, t), db.trash[t.id];
            && d.entries == db.entries[row.path := Live(db.generation + 1, row.file, t.now)]
            && d.generation == db.generation + 1 && d.uploads == db.uploads
            && t.id !in d.trash && (forall id | id != t.id :: id in d.trash <==> id in db.trash)
            && (forall id | id in d.trash :: d.trash[id] == db.trash[id])
  {
  }

  /** A purge takes exactly the rows whose time has come, and has exactly their blobs unlinked. */
  lemma PurgeRows(db: Db, t: Transaction)
    requires t.PurgeExpired?
    ensures var d := Apply(db, t);
            && d.entries == db.entries && d.generation == db.generation && d.uploads == db.uploads
            && (forall id :: id in d.trash <==> id in db.trash && t.now < db.trash[id].expiresAt)
            && (forall id | id in d.trash :: d.trash[id] == db.trash[id])
    ensures forall n :: n in Dropped(db, t) <==>
              exists id :: id in db.trash && db.trash[id].expiresAt <= t.now && db.trash[id].file.blob == n
  {
  }

  lemma PurgeItemRows(db: Db, t: Transaction)
    requires t.PurgeItem? && Allowed(db, t)
    ensures t.id in db.trash && Dropped(db, t) == {db.trash[t.id].file.blob}
    ensures var d := Apply(db, t);
            && d.entries == db.entries && d.generation == db.generation && d.uploads == db.uploads
            && t.id !in d.trash && (forall id | id != t.id :: id in d.trash <==> id in db.trash)
            && (forall id | id in d.trash :: d.trash[id] == db.trash[id])
  {
  }

  /** No live file above or below a path is exactly what publishing there needs. */
  lemma ClearIsNeeded(db: Db, p: Path, file: FileRef, now: int)
    requires Antichain(db)
    ensures Antichain(Publish(db, p, file, now)) <==> Clear(db, p)
  {
    var d := Publish(db, p, file, now);
    AncestorsAreAbove(p, p);
    assert IsLive(d, p);
    assert forall q | IsLive(db, q) && q != p :: IsLive(d, q);
  }

  // ---------------------------------------------------------------- what is kept

  /** What a transaction takes away for good. */
  ghost predicate Loses(db: Db, t: Transaction, f: FileRef) {
    match t
    case Commit(path, _, _, _, _) => path in db.entries && db.entries[path].Live? && db.entries[path].file == f
    case PurgeExpired(now) => exists id :: id in db.trash && db.trash[id].expiresAt <= now && db.trash[id].file == f
    case PurgeItem(id) => id in db.trash && db.trash[id].file == f
    case _ => false
  }

  lemma DeleteKeepsContent(db: Db, t: Transaction, f: FileRef)
    requires t.Delete? && Allowed(db, t) && Held(db, f)
    ensures Held(Apply(db, t), f)
  {
    var id := DeleteRows(db, t);
    var d := Apply(db, t);
    if p :| p in db.entries && db.entries[p].Live? && db.entries[p].file == f {
      if p == t.path {
        assert d.trash[id].file == f;
      } else {
        assert d.entries[p].file == f;
      }
    } else {
      var k :| k in db.trash && db.trash[k].file == f;
      assert d.trash[k].file == f;
    }
  }

  lemma RestoreKeepsContent(db: Db, t: Transaction, f: FileRef)
    requires t.Restore? && Allowed(db, t) && Held(db, f)
    ensures Held(Apply(db, t), f)
  {
    RestoreRows(db, t);
    var d, row := Apply(db, t), db.trash[t.id];
    if p :| p in db.entries && db.entries[p].Live? && db.entries[p].file == f {
      assert p != row.path;
      assert d.entries[p].file == f;
    } else {
      var k :| k in db.trash && db.trash[k].file == f;
      if k == t.id {
        assert d.entries[row.path].file == f;
      } else {
        assert d.trash[k].file == f;
      }
    }
  }

  lemma PurgeKeepsContent(db: Db, t: Transaction, f: FileRef)
    requires OneHolder(db) && (t.PurgeExpired? || t.PurgeItem?) && Allowed(db, t) && Held(db, f)
    ensures Held(Apply(db, t), f) <==> !Loses(db, t, f)
  {
    var d := Apply(db, t);
    if p :| p in db.entries && db.entries[p].Live? && db.entries[p].file == f {
      assert d.entries[p].file == f;
    } else {
      var k :| k in db.trash && db.trash[k].file == f;
      if k in d.trash {
        assert d.trash[k].file == f;
      }
    }
  }

  lemma CommitKeepsContent(db: Db, t: Transaction, f: FileRef)
    requires OneHolder(db) && t.Commit? && Allowed(db, t) && FreshFile(db, t) && Held(db, f)
    ensures Held(Apply(db, t), f) <==> !Loses(db, t, f)
  {
    CommitRows(db, t);
    var d := Apply(db, t);
    if p :| p in db.entries && db.entries[p].Live? && db.entries[p].file == f {
      if p != t.path {
        assert d.entries[p].file == f;
      }
    } else {
      var k :| k in db.trash && db.trash[k].file == f;
      assert d.trash[k].file == f;
    }
  }

  lemma RenameKeepsContent(db: Db, t: Transaction, f: FileRef)
    requires Good(db) && t.RenameFolder? && Allowed(db, t) && Held(db, f)
    ensures Held(Apply(db, t), f)
  {
    Folders.RenameMovesTree(db, t.dir, t.name, t.now);
    MovedKeeps(db, Apply(db, t), t.dir, Sibling(t.dir, t.name), f);
  }

  lemma MovedKeeps(db: Db, d: Db, dir: Path, target: Path, f: FileRef)
    requires Folders.TreeMoved(db, dir, d, target) && d.trash == db.trash && Clear(db, target) && Held(db, f)
    ensures Held(d, f)
  {
    if p :| p in db.entries && db.entries[p].Live? && db.entries[p].file == f {
      var q := if Below(p, dir) then Dest(p, dir, target) else p;
      assert q in d.entries && d.entries[q].Live? && d.entries[q].file == f;
    } else {
      var k :| k in db.trash && db.trash[k].file == f;
      assert d.trash[k].file == f;
    }
  }

  /**
   * Conservation: a transaction ends the life of a content exactly when it replaces it by a commit at
   * its path or purges its trash row. Deleting, restoring and every folder operation lose nothing.
   */
  lemma ContentLostExactly(db: Db, t: Transaction, f: FileRef)
    requires Good(db) && Allowed(db, t) && FreshFile(db, t) && Held(db, f)
    ensures Held(Apply(db, t), f) <==> !Loses(db, t, f)
  {
    match t
    case Commit(_, _, _, _, _) => CommitKeepsContent(db, t, f);
    case Delete(_, _, _) => DeleteKeepsContent(db, t, f);
    case Restore(_, _) => RestoreKeepsContent(db, t, f);
    case PurgeExpired(_) => PurgeKeepsContent(db, t, f);
    case PurgeItem(_) => PurgeKeepsContent(db, t, f);
    case RenameFolder(_, _, _) => RenameKeepsContent(db, t, f);
    case DeleteFolder(dir, now) => Folders.DeleteEmptiesFolder(db, dir, now);
  }
}
