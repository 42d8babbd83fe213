/** Renaming and deleting a folder: a loop over its files inside one transaction. */
module Folders {
  import opened Bytes
  import opened Paths
  import opened Tables

  // ---------------------------------------------------------------- destinations

  lemma DestBelow(p: Path, dir: Path, target: Path)
    requires Below(p, dir)
    ensures Below(Dest(p, dir, target), target)
    ensures Dest(Dest(p, dir, target), target, dir) == p
  {
  }

  lemma DestKeepsOrder(p: Path, q: Path, dir: Path, target: Path)
    requires Below(p, dir) && Below(q, dir)
    ensures Below(Dest(q, dir, target), Dest(p, dir, target)) ==> Below(q, p)
  {
    var dp, dq := Dest(p, dir, target), Dest(q, dir, target);
    DestBelow(p, dir, target);
    DestBelow(q, dir, target);
    if Below(dq, dp) {
      AncestorsAreAbove(dq, dp);
      assert dq == dp + [SLASH] + dq[|dp| + 1..];
      assert dq[|target|..] == dp[|target|..] + [SLASH] + dq[|dp| + 1..];
      assert q == dir + dq[|target|..] && p == dir + dp[|target|..];
      assert q == p + [SLASH] + dq[|dp| + 1..];
    }
  }

  // ---------------------------------------------------------------- the rename loop, row by row

  /** A list of live files of `dir` on their way to a folder that shares no descendant with it. */
  ghost predicate Movable(db: Db, fs: seq<DirectoryFile>, dir: Path, target: Path) {
    && (forall i | 0 <= i < |fs| ::
          IsLive(db, fs[i].path) && Below(fs[i].path, dir) && db.entries[fs[i].path].file == fs[i].file)
    && (forall i, j | 0 <= i < j < |fs| :: fs[i].path != fs[j].path)
    && (forall q :: !(Below(q, dir) && Below(q, target)))
  }

  ghost predicate Moved(fs: seq<DirectoryFile>, dir: Path, target: Path, p: Path) {
    exists i :: 0 <= i < |fs| && (p == fs[i].path || p == Dest(fs[i].path, dir, target))
  }

  /** What the loop leaves in every row: old paths buried, new ones live, revisions two by two, the rest untouched. */
  ghost predicate MoveResult(db: Db, fs: seq<DirectoryFile>, dir: Path, target: Path, now: int, d: Db) {
    && d.generation == db.generation + 2 * |fs| && d.trash == db.trash && d.uploads == db.uploads
    && (forall i | 0 <= i < |fs| ::
          && fs[i].path in d.entries
          && d.entries[fs[i].path] == Tombstone(db.generation + 2 * i + 1, now)
          && Dest(fs[i].path, dir, target) in d.entries
          && d.entries[Dest(fs[i].path, dir, target)] == Live(db.generation + 2 * i + 2, fs[i].file, now))
    && (forall p | !Moved(fs, dir, target, p) ::
          (p in d.entries <==> p in db.entries) && (p in d.entries ==> d.entries[p] == db.entries[p]))
  }

  lemma Distinctness(db: Db, fs: seq<DirectoryFile>, dir: Path, target: Path, i: nat, j: nat)
    requires Movable(db, fs, dir, target) && i < |fs| && j < |fs|
    ensures fs[j].path != Dest(fs[i].path, dir, target)
    ensures i != j ==> fs[i].path != fs[j].path && Dest(fs[i].path, dir, target) != Dest(fs[j].path, dir, target)
  {
    DestBelow(fs[i].path, dir, target);
    DestBelow(fs[j].path, dir, target);
  }

  lemma MovePrefix(db: Db, fs: seq<DirectoryFile>, dir: Path, target: Path, n: nat)
    requires Movable(db, fs, dir, target) && n < |fs|
    ensures Movable(db, fs[..n], dir, target)
    ensures !Moved(fs[..n], dir, target, fs[n].path)
    ensures !Moved(fs[..n], dir, target, Dest(fs[n].path, dir, target))
  {
    forall i | 0 <= i < n
      ensures fs[..n][i] == fs[i]
      ensures fs[i].path != fs[n].path && fs[n].path != Dest(fs[i].path, dir, target)
      ensures fs[i].path != Dest(fs[n].path, dir, target)
      ensures Dest(fs[i].path, dir, target) != Dest(fs[n].path, dir, target)
    {
      Distinctness(db, fs, dir, target, i, n);
      Distinctness(db, fs, dir, target, n, i);
    }
  }

  lemma MovedSnoc(fs: seq<DirectoryFile>, dir: Path, target: Path, p: Path)
    requires |fs| > 0
    ensures var n := |fs| - 1;
            Moved(fs, dir, target, p) <==>
            Moved(fs[..n], dir, target, p) || p == fs[n].path || p == Dest(fs[n].path, dir, target)
  {
  }

  lemma {:induction false} MoveAllRows(db: Db, fs: seq<DirectoryFile>, dir: Path, target: Path, now: int)
    requires Movable(db, fs, dir, target)
    ensures MoveResult(db, fs, dir, target, now, MoveAll(db, fs, dir, target, now))
  {
    if fs != [] {
      var n := |fs| - 1;
      var f, to := fs[n], Dest(fs[n].path, dir, target);
      MovePrefix(db, fs, dir, target, n);
      MoveAllRows(db, fs[..n], dir, target, now);
      var b := MoveAll(db, fs[..n], dir, target, now);
      MoveStep(db, fs, dir, target, now, b, Move(b, f, to, now));
    }
  }

  /** The two writes of one iteration, seen from any path. */
  lemma MoveEntries(b: Db, f: DirectoryFile, to: Path, now: int)
    requires f.path in b.entries && f.path != to
    ensures var d := Move(b, f, to, now);
            && d == b.(entries := b.entries[f.path := Tombstone(b.generation + 1, now)]
                                           [to := Live(b.generation + 2, f.file, now)],
                       generation := b.generation + 2)
  {
  }

  lemma MoveStepRow(
    db: Db, fs: seq<DirectoryFile>, dir: Path, target: Path, now: int, b: Db, entries: map<Path, Row>, i: nat)
    requires Movable(db, fs, dir, target) && i < |fs|
    requires MoveResult(db, fs[..|fs| - 1], dir, target, now, b)
    requires var f := fs[|fs| - 1];
             entries == b.entries[f.path := Tombstone(b.generation + 1, now)]
                                 [Dest(f.path, dir, target) := Live(b.generation + 2, f.file, now)]
    ensures fs[i].path in entries && entries[fs[i].path] == Tombstone(db.generation + 2 * i + 1, now)
    ensures Dest(fs[i].path, dir, target) in entries
    ensures entries[Dest(fs[i].path, dir, target)] == Live(db.generation + 2 * i + 2, fs[i].file, now)
  {
    var n := |fs| - 1;
    var f, to := fs[n], Dest(fs[n].path, dir, target);
    Distinctness(db, fs, dir, target, i, n);
    Distinctness(db, fs, dir, target, n, i);
    if i < n {
      EarlierMove(db, fs, dir, target, now, b, i);
      var buried, live := Tombstone(b.generation + 1, now), Live(b.generation + 2, f.file, now);
      OtherRow(b.entries, f.path, to, buried, live, fs[i].path);
      OtherRow(b.entries, f.path, to, buried, live, Dest(fs[i].path, dir, target));
    }
  }

  lemma OtherRow(m: map<Path, Row>, p: Path, q: Path, r: Row, t: Row, k: Path)
    requires k != p && k != q && k in m
    ensures k in m[p := r][q := t] && m[p := r][q := t][k] == m[k]
  {
  }

  lemma EarlierMove(db: Db, fs: seq<DirectoryFile>, dir: Path, target: Path, now: int, b: Db, i: nat)
    requires i < |fs| - 1 && MoveResult(db, fs[..|fs| - 1], dir, target, now, b)
    ensures fs[i].path in b.entries && b.entries[fs[i].path] == Tombstone(db.generation + 2 * i + 1, now)
    ensures Dest(fs[i].path, dir, target) in b.entries
    ensures b.entries[Dest(fs[i].path, dir, target)] == Live(db.generation + 2 * i + 2, fs[i].file, now)
  {
    assert fs[..|fs| - 1][i] == fs[i];
  }

  lemma MoveStep(db: Db, fs: seq<DirectoryFile>, dir: Path, target: Path, now: int, b: Db, d: Db)
    requires Movable(db, fs, dir, target) && |fs| > 0
    requires MoveResult(db, fs[..|fs| - 1], dir, target, now, b)
    requires d == Move(b, fs[|fs| - 1], Dest(fs[|fs| - 1].path, dir, target), now)
    ensures MoveResult(db, fs, dir, target, now, d)
  {
    var n := |fs| - 1;
    var f, to := fs[n], Dest(fs[n].path, dir, target);
    Distinctness(db, fs, dir, target, n, n);
    MovePrefix(db, fs, dir, target, n);
    MoveEntries(b, f, to, now);
    forall i | 0 <= i < |fs|
      ensures && fs[i].path in d.entries
              && d.entries[fs[i].path] == Tombstone(db.generation + 2 * i + 1, now)
              && Dest(fs[i].path, dir, target) in d.entries
              && d.entries[Dest(fs[i].path, dir, target)] == Live(db.generation + 2 * i + 2, fs[i].file, now)
    {
      MoveStepRow(db, fs, dir, target, now, b, d.entries, i);
    }
    forall p | !Moved(fs, dir, target, p)
      ensures (p in d.entries <==> p in db.entries) && (p in d.entries ==> d.entries[p] == db.entries[p])
    {
      MovedSnoc(fs, dir, target, p);
    }
  }

  // ---------------------------------------------------------------- the rename loop keeps the invariant

  ghost predicate Renamable(db: Db, fs: seq<DirectoryFile>, dir: Path, target: Path) {
    && Good(db) && Movable(db, fs, dir, target) && Clear(db, target) && !IsLive(db, target)
    && (forall i | 0 <= i < |fs| :: ValidPath(Dest(fs[i].path, dir, target)))
  }

  /** After any number of iterations, nothing live lies above or below the next destination. */
  lemma DestClear(db: Db, fs: seq<DirectoryFile>, dir: Path, target: Path, now: int, b: Db, n: nat, q: Path)
    requires Renamable(db, fs, dir, target) && n < |fs|
    requires MoveResult(db, fs[..n], dir, target, now, b)
    requires IsLive(b, q)
    ensures !Below(q, Dest(fs[n].path, dir, target)) && !Below(Dest(fs[n].path, dir, target), q)
  {
    var p := fs[n].path;
    var to := Dest(p, dir, target);
    DestBelow(p, dir, target);
    if Moved(fs[..n], dir, target, q) {
      var i :| 0 <= i < n && (q == fs[..n][i].path || q == Dest(fs[..n][i].path, dir, target));
      assert fs[..n][i] == fs[i];
      assert fs[..n][i].path in b.entries && !b.entries[fs[..n][i].path].Live?;
      DestKeepsOrder(fs[i].path, p, dir, target);
      DestKeepsOrder(p, fs[i].path, dir, target);
      assert IsLive(db, fs[i].path) && IsLive(db, p);
    } else {
      assert IsLive(db, q);
      if Below(q, to) {
        BelowTransitive(q, to, target);
      }
      if Below(to, q) {
        AncestorsOrdered(to, q, target);
      }
    }
  }

  lemma MoveKeeps(b: Db, f: DirectoryFile, to: Path, now: int)
    requires Good(b) && IsLive(b, f.path) && b.entries[f.path].file == f.file
    requires ValidPath(to) && Clear(b, to)
    ensures Good(Move(b, f, to, now)) && Later(b, Move(b, f, to, now))
  {
    BuryKeeps(b, f.path, now);
    PublishKeeps(Bury(b, f.path, now), to, f.file, now);
    LaterTransitive(b, Bury(b, f.path, now), Move(b, f, to, now));
  }

  lemma NextMoveReady(db: Db, fs: seq<DirectoryFile>, dir: Path, target: Path, now: int, k: nat)
    requires Renamable(db, fs, dir, target) && k < |fs|
    ensures var b := MoveAll(db, fs[..k], dir, target, now);
            && IsLive(b, fs[k].path) && b.entries[fs[k].path].file == fs[k].file
            && Clear(b, Dest(fs[k].path, dir, target))
  {
    MovePrefix(db, fs, dir, target, k);
    MoveAllRows(db, fs[..k], dir, target, now);
    var b := MoveAll(db, fs[..k], dir, target, now);
    var to := Dest(fs[k].path, dir, target);
    forall q | IsLive(b, q)
      ensures !Below(q, to) && !Below(to, q)
    {
      DestClear(db, fs, dir, target, now, b, k, q);
    }
  }

  lemma MoveAllSnoc(db: Db, fs: seq<DirectoryFile>, dir: Path, target: Path, now: int, k: nat)
    requires k < |fs|
    ensures MoveAll(db, fs[..k + 1], dir, target, now)
         == Move(MoveAll(db, fs[..k], dir, target, now), fs[k], Dest(fs[k].path, dir, target), now)
  {
    assert fs[..k + 1][..k] == fs[..k] && fs[..k + 1][k] == fs[k];
  }

  /** Every prefix of the loop leaves tables with no live file above another, and is a later state. */
  lemma {:induction false} MoveAllKeeps(db: Db, fs: seq<DirectoryFile>, dir: Path, target: Path, now: int, n: nat)
    requires Renamable(db, fs, dir, target) && n <= |fs|
    ensures var d := MoveAll(db, fs[..n], dir, target, now); Good(d) && Later(db, d)
  {
    if n > 0 {
      var k := n - 1;
      MoveAllKeeps(db, fs, dir, target, now, k);
      NextMoveReady(db, fs, dir, target, now, k);
      MoveAllSnoc(db, fs, dir, target, now, k);
      var b := MoveAll(db, fs[..k], dir, target, now);
      MoveKeeps(b, fs[k], Dest(fs[k].path, dir, target), now);
      LaterTransitive(db, b, MoveAll(db, fs[..n], dir, target, now));
    } else {
      assert fs[..n] == [];
    }
  }

  lemma FilesRenamable(db: Db, dir: Path, name: bytes, now: int)
    requires Good(db) && Allowed(db, RenameFolder(dir, name, now))
    ensures Renamable(db, Files(db, dir), dir, Sibling(dir, name))
  {
    FilesSpec(db, dir);
    SiblingApart(dir, name);
  }

  // ---------------------------------------------------------------- what a rename means

  /** Every row outside the two folders is untouched; the live tree moved from one name to the other. */
  ghost predicate TreeMoved(db: Db, dir: Path, d: Db, target: Path) {
    && (forall p | IsLive(db, p) && Below(p, dir) ::
          IsLive(d, Dest(p, dir, target)) && d.entries[Dest(p, dir, target)].file == db.entries[p].file)
    && (forall q | IsLive(d, q) && Below(q, target) :: IsLive(db, Dest(q, target, dir)))
    && (forall p | Below(p, dir) :: !IsLive(d, p))
    && (forall p | !Below(p, dir) && !Below(p, target) ::
          (p in d.entries <==> p in db.entries) && (p in d.entries ==> d.entries[p] == db.entries[p]))
  }

  lemma RenameMovesTree(db: Db, dir: Path, name: bytes, now: int)
    requires Good(db) && Allowed(db, RenameFolder(dir, name, now))
    ensures var d := Apply(db, RenameFolder(dir, name, now));
            && Good(d) && Later(db, d)
            && d.generation == db.generation + 2 * |LiveBelow(db, dir)|
            && d.trash == db.trash && d.uploads == db.uploads
            && TreeMoved(db, dir, d, Sibling(dir, name))
  {
    FilesSpec(db, dir);
    FilesRenamable(db, dir, name, now);
    FilesMoved(db, Files(db, dir), dir, Sibling(dir, name), now);
  }

  lemma FilesMoved(db: Db, fs: seq<DirectoryFile>, dir: Path, target: Path, now: int)
    requires Good(db) && Renamable(db, fs, dir, target)
    requires forall p | IsLive(db, p) && Below(p, dir) :: exists i :: 0 <= i < |fs| && fs[i].path == p
    ensures var d := MoveAll(db, fs, dir, target, now);
            && Good(d) && Later(db, d) && d.generation == db.generation + 2 * |fs|
            && d.trash == db.trash && d.uploads == db.uploads && TreeMoved(db, dir, d, target)
  {
    MoveAllKeeps(db, fs, dir, target, now, |fs|);
    assert fs[..|fs|] == fs;
    MoveAllRows(db, fs, dir, target, now);
    RowsToTree(db, fs, dir, target, now, MoveAll(db, fs, dir, target, now));
  }

  lemma RowsToTree(db: Db, fs: seq<DirectoryFile>, dir: Path, target: Path, now: int, d: Db)
    requires Renamable(db, fs, dir, target) && MoveResult(db, fs, dir, target, now, d)
    requires forall p | IsLive(db, p) && Below(p, dir) :: exists i :: 0 <= i < |fs| && fs[i].path == p
    ensures TreeMoved(db, dir, d, target)
  {
    forall p | Moved(fs, dir, target, p)
      ensures Below(p, dir) || Below(p, target)
    {
      var i :| 0 <= i < |fs| && (p == fs[i].path || p == Dest(fs[i].path, dir, target));
      DestBelow(fs[i].path, dir, target);
    }
    forall p | Below(p, dir)
      ensures !IsLive(d, p)
    {
      UnmovedSource(db, fs, dir, target, now, d, p);
    }
    forall q | IsLive(d, q) && Below(q, target)
      ensures IsLive(db, Dest(q, target, dir))
    {
      assert Moved(fs, dir, target, q);
      var i :| 0 <= i < |fs| && (q == fs[i].path || q == Dest(fs[i].path, dir, target));
      DestBelow(fs[i].path, dir, target);
    }
  }

  lemma UnmovedSource(db: Db, fs: seq<DirectoryFile>, dir: Path, target: Path, now: int, d: Db, p: Path)
    requires Renamable(db, fs, dir, target) && MoveResult(db, fs, dir, target, now, d)
    requires forall p | IsLive(db, p) && Below(p, dir) :: exists i :: 0 <= i < |fs| && fs[i].path == p
    requires Below(p, dir)
    ensures !IsLive(d, p)
  {
  }

  // ---------------------------------------------------------------- renaming back

  /** Without one file and its destination, the others still go to the other destinations. */
  lemma DestElsewhere(a: set<Path>, b: set<Path>, dir: Path, target: Path, p: Path)
    requires p in a && forall x | x in a :: Below(x, dir) && Dest(x, dir, target) in b
    ensures forall x | x in a - {p} :: Below(x, dir) && Dest(x, dir, target) in b - {Dest(p, dir, target)}
  {
    DestBelow(p, dir, target);
    forall x | x in a - {p}
      ensures Dest(x, dir, target) != Dest(p, dir, target)
    {
      DestBelow(x, dir, target);
    }
  }

  lemma {:induction false} SameSize(a: set<Path>, b: set<Path>, dir: Path, target: Path)
    requires forall p | p in a :: Below(p, dir) && Dest(p, dir, target) in b
    requires forall q | q in b :: Below(q, target) && Dest(q, target, dir) in a
    ensures |a| == |b|
  {
    if p :| p in a {
      var to := Dest(p, dir, target);
      DestBelow(p, dir, target);
      DestElsewhere(a, b, dir, target, p);
      DestElsewhere(b, a, target, dir, to);
      SameSize(a - {p}, b - {to}, dir, target);
    } else {
      assert a == {} && b == {};
    }
  }

  /** Read by suffixes: what was at `dir/rest` is at `target/rest`, with its content, and nothing else is there. */
  lemma RenameBySuffix(db: Db, dir: Path, name: bytes, now: int, rest: bytes)
    requires Good(db) && Allowed(db, RenameFolder(dir, name, now))
    ensures var d, p := Apply(db, RenameFolder(dir, name, now)), dir + [SLASH] + rest;
            var q := Sibling(dir, name) + [SLASH] + rest;
            && !IsLive(d, p) && (IsLive(d, q) <==> IsLive(db, p))
            && (IsLive(db, p) ==> d.entries[q].file == db.entries[p].file)
  {
    RenameMovesTree(db, dir, name, now);
    var target := Sibling(dir, name);
    DestBySuffix(dir, target, rest);
    DestBySuffix(target, dir, rest);
  }

  lemma DestBySuffix(dir: Path, target: Path, rest: bytes)
    ensures Below(dir + [SLASH] + rest, dir)
    ensures Dest(dir + [SLASH] + rest, dir, target) == target + [SLASH] + rest
  {
    var p := dir + [SLASH] + rest;
    assert p[..|dir| + 1] == dir + [SLASH];
    assert p[|dir|..] == [SLASH] + rest;
    assert target + ([SLASH] + rest) == target + [SLASH] + rest;
  }

  /** After a rename the reverse rename is accepted, and it restores the live content of every path. */
  lemma RenameBack(db: Db, dir: Path, name: bytes, now: int, later: int)
    requires Good(db) && Allowed(db, RenameFolder(dir, name, now))
    ensures var d := Apply(db, RenameFolder(dir, name, now));
            var back := RenameFolder(Sibling(dir, name), dir[BaseStart(dir)..], later);
            && Allowed(d, back)
            && (forall p :: IsLive(Apply(d, back), p) <==> IsLive(db, p))
            && (forall p | IsLive(db, p) :: Apply(d, back).entries[p].file == db.entries[p].file)
  {
    var d := Apply(db, RenameFolder(dir, name, now));
    BackAllowed(db, dir, name, now, later, d);
    RenameMovesTree(db, dir, name, now);
    SiblingInverse(dir, name);
    var target := Sibling(dir, name);
    RenameMovesTree(d, target, dir[BaseStart(dir)..], later);
    var e := Apply(d, RenameFolder(target, dir[BaseStart(dir)..], later));
    TreeRestored(db, dir, d, target, e);
  }

  lemma TreeRestored(db: Db, dir: Path, d: Db, target: Path, e: Db)
    requires TreeMoved(db, dir, d, target) && TreeMoved(d, target, e, dir)
    requires forall p | IsLive(db, p) :: !Below(p, target)
    ensures forall p :: IsLive(e, p) <==> IsLive(db, p)
    ensures forall p | IsLive(db, p) :: e.entries[p].file == db.entries[p].file
  {
    forall p
      ensures IsLive(e, p) <==> IsLive(db, p)
      ensures IsLive(db, p) ==> e.entries[p].file == db.entries[p].file
    {
      if Below(p, dir) {
        DestBelow(p, dir, target);
      }
    }
  }

  /** A folder that holds valid paths is a valid path. */
  lemma TargetValid(target: Path, q: Path)
    requires Below(q, target) && ValidPath(q) && target != []
    ensures ValidPath(target)
  {
    var rest := q[|target| + 1..];
    assert q == target + [SLASH] + rest;
    SplitJoin(target, rest);
    assert forall i | 0 <= i < |Split(target)| :: Split(target)[i] == Split(q)[i];
    assert forall i | 0 <= i < |target| :: target[i] == q[i];
  }

  /** Once its tree has moved away, the old folder name is free. */
  lemma SourceClear(db: Db, dir: Path, d: Db, target: Path, p: Path)
    requires Good(db) && TreeMoved(db, dir, d, target)
    requires !Below(dir, target) && IsLive(db, p) && Below(p, dir)
    ensures Clear(d, dir) && !IsLive(d, dir)
  {
    AncestorsAreAbove(dir, dir);
    assert !IsLive(db, dir);
    forall q | IsLive(d, q)
      ensures !Below(q, dir) && !Below(dir, q)
    {
      if Below(dir, q) {
        BelowTransitive(p, dir, q);
        if Below(q, target) {
          BelowTransitive(dir, q, target);
        }
        if Below(q, dir) {
          BelowTransitive(q, dir, q);
        }
      }
    }
  }

  lemma TreeSize(db: Db, dir: Path, d: Db, target: Path)
    requires TreeMoved(db, dir, d, target)
    ensures |LiveBelow(d, target)| == |LiveBelow(db, dir)|
  {
    forall p | p in LiveBelow(db, dir)
      ensures Below(p, dir) && Dest(p, dir, target) in LiveBelow(d, target)
    {
      DestBelow(p, dir, target);
    }
    forall q | q in LiveBelow(d, target)
      ensures Below(q, target) && Dest(q, target, dir) in LiveBelow(db, dir)
    {
      DestBelow(q, target, dir);
    }
    SameSize(LiveBelow(db, dir), LiveBelow(d, target), dir, target);
  }

  lemma BackFilesValid(db: Db, dir: Path, d: Db, target: Path)
    requires Good(db) && TreeMoved(db, dir, d, target)
    ensures forall i | 0 <= i < |Files(d, target)| :: ValidPath(Dest(Files(d, target)[i].path, target, dir))
  {
    FilesSpec(d, target);
  }

  lemma BackAllowed(db: Db, dir: Path, name: bytes, now: int, later: int, d: Db)
    requires Good(db) && Allowed(db, RenameFolder(dir, name, now))
    requires d == Apply(db, RenameFolder(dir, name, now))
    ensures Allowed(d, RenameFolder(Sibling(dir, name), dir[BaseStart(dir)..], later))
  {
    var target := Sibling(dir, name);
    RenameMovesTree(db, dir, name, now);
    TreeSize(db, dir, d, target);
    BackFilesValid(db, dir, d, target);
    assert ValidPath(target) && Clear(d, dir) && !IsLive(d, dir) by {
      SiblingApart(dir, name);
      FilesSpec(db, dir);
      var p := Files(db, dir)[0].path;
      DestBelow(p, dir, target);
      TargetValid(target, Dest(p, dir, target));
      SourceClear(db, dir, d, target, p);
    }
    SiblingInverse(dir, name);
    BaseIsValid(dir);
  }

  // ---------------------------------------------------------------- deleting a folder

  /** Files to discard, as the range scan found them. */
  ghost predicate Listed(db: Db, fs: seq<DirectoryFile>) {
    && (forall i | 0 <= i < |fs| :: IsLive(db, fs[i].path) && db.entries[fs[i].path].file == fs[i].file)
    && (forall i, j | 0 <= i < j < |fs| :: fs[i].path != fs[j].path)
  }

  ghost predicate Named(fs: seq<DirectoryFile>, p: Path) {
    exists i :: 0 <= i < |fs| && fs[i].path == p
  }

  /** Each file is buried, with consecutive revisions; the other rows are untouched. */
  ghost predicate Buried(db: Db, fs: seq<DirectoryFile>, now: int, d: Db) {
    && d.generation == db.generation + |fs| && d.uploads == db.uploads
    && (forall i | 0 <= i < |fs| ::
          fs[i].path in d.entries && d.entries[fs[i].path] == Tombstone(db.generation + i + 1, now))
    && (forall p | !Named(fs, p) ::
          (p in d.entries <==> p in db.entries) && (p in d.entries ==> d.entries[p] == db.entries[p]))
  }

  /** Each file has exactly one new trash row with its content, and no other trash row is touched. */
  ghost predicate Trashed(
    was: map<nat, TrashRow>, first: nat, fs: seq<DirectoryFile>, now: int, trash: map<nat, TrashRow>) {
    && (forall id :: id in trash <==> id in was || first <= id < first + |fs|)
    && (forall id | id in was :: trash[id] == was[id])
    && (forall i | 0 <= i < |fs| ::
          trash[first + i] == TrashRow(fs[i].path, fs[i].file, now, now + RETENTION_SECONDS))
  }

  ghost predicate DiscardResult(db: Db, fs: seq<DirectoryFile>, now: int, d: Db) {
    Buried(db, fs, now, d) && Trashed(db.trash, NextId(db.trash), fs, now, d.trash)
  }

  lemma NamedSnoc(fs: seq<DirectoryFile>, p: Path)
    requires |fs| > 0
    ensures Named(fs, p) <==> Named(fs[..|fs| - 1], p) || p == fs[|fs| - 1].path
  {
  }

  lemma DiscardNextId(db: Db, fs: seq<DirectoryFile>, now: int, b: Db)
    requires DiscardResult(db, fs, now, b)
    ensures NextId(b.trash) == NextId(db.trash) + |fs|
  {
  }

  lemma LastNotNamed(db: Db, fs: seq<DirectoryFile>, now: int, b: Db)
    requires Listed(db, fs) && |fs| > 0 && Buried(db, fs[..|fs| - 1], now, b)
    ensures !Named(fs[..|fs| - 1], fs[|fs| - 1].path) && fs[|fs| - 1].path in b.entries
  {
    assert IsLive(db, fs[|fs| - 1].path);
  }

  lemma BuriedRow(db: Db, fs: seq<DirectoryFile>, now: int, b: Db, i: nat)
    requires Listed(db, fs) && i < |fs| && Buried(db, fs[..|fs| - 1], now, b) && fs[|fs| - 1].path in b.entries
    ensures var d := Bury(b, fs[|fs| - 1].path, now);
            fs[i].path in d.entries && d.entries[fs[i].path] == Tombstone(db.generation + i + 1, now)
  {
    var n := |fs| - 1;
    if i < n {
      assert fs[..n][i] == fs[i] && fs[i].path != fs[n].path;
    }
  }

  lemma BuriedStep(db: Db, fs: seq<DirectoryFile>, now: int, b: Db, trash: map<nat, TrashRow>)
    requires Listed(db, fs) && |fs| > 0 && Buried(db, fs[..|fs| - 1], now, b)
    ensures Buried(db, fs, now, Bury(b, fs[|fs| - 1].path, now).(trash := trash))
  {
    var n, d := |fs| - 1, Bury(b, fs[|fs| - 1].path, now);
    LastNotNamed(db, fs, now, b);
    forall i | 0 <= i < |fs|
      ensures fs[i].path in d.entries && d.entries[fs[i].path] == Tombstone(db.generation + i + 1, now)
    {
      BuriedRow(db, fs, now, b, i);
    }
    forall p | !Named(fs, p)
      ensures !Named(fs[..n], p) && p != fs[n].path
    {
      NamedSnoc(fs, p);
    }
  }

  lemma TrashedStep(
    was: map<nat, TrashRow>, first: nat, fs: seq<DirectoryFile>, now: int, trash: map<nat, TrashRow>)
    requires |fs| > 0 && Trashed(was, first, fs[..|fs| - 1], now, trash) && forall id | id in was :: id < first
    ensures var f := fs[|fs| - 1];
            var row := TrashRow(f.path, f.file, now, now + RETENTION_SECONDS);
            Trashed(was, first, fs, now, trash[first + |fs| - 1 := row])
  {
  }

  lemma DiscardStep(db: Db, fs: seq<DirectoryFile>, now: int, b: Db)
    requires Listed(db, fs) && |fs| > 0
    requires DiscardResult(db, fs[..|fs| - 1], now, b)
    ensures DiscardResult(db, fs, now, Discard(b, fs[|fs| - 1].path, fs[|fs| - 1].file, now))
  {
    var f := fs[|fs| - 1];
    DiscardNextId(db, fs[..|fs| - 1], now, b);
    DiscardIsBury(b, f.path, f.file, now);
    BuriedStep(db, fs, now, b, Discard(b, f.path, f.file, now).trash);
    TrashedStep(db.trash, NextId(db.trash), fs, now, b.trash);
  }

  lemma DiscardAllSnoc(db: Db, fs: seq<DirectoryFile>, now: int, k: nat)
    requires k < |fs|
    ensures DiscardAll(db, fs[..k + 1], now) == Discard(DiscardAll(db, fs[..k], now), fs[k].path, fs[k].file, now)
  {
    assert fs[..k + 1][..k] == fs[..k] && fs[..k + 1][k] == fs[k];
  }

  lemma {:induction false} DiscardAllRows(db: Db, fs: seq<DirectoryFile>, now: int)
    requires Listed(db, fs)
    ensures DiscardResult(db, fs, now, DiscardAll(db, fs, now))
  {
    if fs != [] {
      DiscardAllRows(db, fs[..|fs| - 1], now);
      DiscardStep(db, fs, now, DiscardAll(db, fs[..|fs| - 1], now));
    }
  }

  lemma NextDiscardReady(db: Db, fs: seq<DirectoryFile>, now: int, k: nat)
    requires Listed(db, fs) && k < |fs|
    ensures var b := DiscardAll(db, fs[..k], now); IsLive(b, fs[k].path) && b.entries[fs[k].path].file == fs[k].file
  {
    DiscardAllRows(db, fs[..k], now);
    assert !Named(fs[..k], fs[k].path);
  }

  /** Every prefix of the deletion loop keeps the invariant and is a later state. */
  lemma {:induction false} DiscardAllKeeps(db: Db, fs: seq<DirectoryFile>, now: int, n: nat)
    requires Good(db) && Listed(db, fs) && n <= |fs|
    ensures var d := DiscardAll(db, fs[..n], now); Good(d) && Later(db, d)
  {
    if n > 0 {
      var k := n - 1;
      DiscardAllKeeps(db, fs, now, k);
      NextDiscardReady(db, fs, now, k);
      DiscardAllSnoc(db, fs, now, k);
      var b := DiscardAll(db, fs[..k], now);
      DiscardKeeps(b, fs[k].path, now);
      LaterTransitive(db, b, DiscardAll(db, fs[..n], now));
    } else {
      assert fs[..n] == [];
    }
  }

  /** Deleting a folder empties it and keeps every other row; the trash gains exactly its files. */
  lemma DeleteEmptiesFolder(db: Db, dir: Path, now: int)
    requires Good(db) && Allowed(db, DeleteFolder(dir, now))
    ensures var d := Apply(db, DeleteFolder(dir, now));
            && Good(d) && Later(db, d)
            && d.generation == db.generation + |LiveBelow(db, dir)| && d.uploads == db.uploads
            && LiveBelow(d, dir) == {}
            && (forall p | !Below(p, dir) ::
                  (p in d.entries <==> p in db.entries) && (p in d.entries ==> d.entries[p] == db.entries[p]))
            && (forall f :: Held(d, f) <==> Held(db, f))
  {
    var fs := Files(db, dir);
    FilesSpec(db, dir);
    assert fs[..|fs|] == fs;
    FilesDiscarded(db, fs, dir, now);
  }

  lemma FilesDiscarded(db: Db, fs: seq<DirectoryFile>, dir: Path, now: int)
    requires Good(db) && Listed(db, fs)
    requires forall i | 0 <= i < |fs| :: Below(fs[i].path, dir)
    requires forall p | IsLive(db, p) && Below(p, dir) :: exists i :: 0 <= i < |fs| && fs[i].path == p
    ensures var d := DiscardAll(db, fs, now);
            && Good(d) && Later(db, d)
            && d.generation == db.generation + |fs| && d.uploads == db.uploads
            && LiveBelow(d, dir) == {}
            && (forall p | !Below(p, dir) ::
                  (p in d.entries <==> p in db.entries) && (p in d.entries ==> d.entries[p] == db.entries[p]))
            && (forall f :: Held(d, f) <==> Held(db, f))
  {
    var d := DiscardAll(db, fs, now);
    DiscardAllRows(db, fs, now);
    DiscardEmpties(db, fs, dir, now, d);
    DiscardHolds(db, fs, now, d);
    DiscardAllKeeps(db, fs, now, |fs|);
    assert fs[..|fs|] == fs;
  }

  lemma DiscardEmpties(db: Db, fs: seq<DirectoryFile>, dir: Path, now: int, d: Db)
    requires Listed(db, fs) && DiscardResult(db, fs, now, d)
    requires forall i | 0 <= i < |fs| :: Below(fs[i].path, dir)
    requires forall p | IsLive(db, p) && Below(p, dir) :: exists i :: 0 <= i < |fs| && fs[i].path == p
    ensures LiveBelow(d, dir) == {}
    ensures forall p | !Below(p, dir) ::
              (p in d.entries <==> p in db.entries) && (p in d.entries ==> d.entries[p] == db.entries[p])
  {
  }

  lemma DiscardHolds(db: Db, fs: seq<DirectoryFile>, now: int, d: Db)
    requires Listed(db, fs) && DiscardResult(db, fs, now, d)
    ensures forall f :: Held(d, f) <==> Held(db, f)
  {
    forall f
      ensures Held(d, f) <==> Held(db, f)
    {
      DiscardHoldsNoMore(db, fs, now, d, f);
      DiscardHoldsNoLess(db, fs, now, d, f);
    }
  }

  lemma DiscardHoldsNoMore(db: Db, fs: seq<DirectoryFile>, now: int, d: Db, f: FileRef)
    requires Listed(db, fs) && DiscardResult(db, fs, now, d)
    ensures Held(d, f) ==> Held(db, f)
  {
    var first := NextId(db.trash);
    if id :| id in d.trash && d.trash[id].file == f {
      if id !in db.trash {
        assert d.trash[first + (id - first)].file == fs[id - first].file;
      }
    }
  }

  lemma DiscardHoldsNoLess(db: Db, fs: seq<DirectoryFile>, now: int, d: Db, f: FileRef)
    requires Listed(db, fs) && DiscardResult(db, fs, now, d)
    ensures Held(db, f) ==> Held(d, f)
  {
  }
}
