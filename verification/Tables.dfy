/** The SQL tables of the file store and the transactions that change them. */
module Tables {
  import opened Bytes
  import opened Paths

  const RETENTION_SECONDS := 30 * 24 * 60 * 60
  const FILE_LIMIT := 10_000

  type Digest = bytes

  /** A name in `blobs` or `tmp`: generated by the server, or put there by someone else. */
  datatype Name = Uuid(id: nat) | Foreign(text: bytes)

  datatype FileRef = FileRef(blob: Name, digest: Digest, size: nat)

  datatype Row =
    | Live(revision: nat, file: FileRef, updatedAt: int)
    | Tombstone(revision: nat, updatedAt: int)

  datatype TrashRow = TrashRow(path: Path, file: FileRef, deletedAt: int, expiresAt: int)

  datatype Upload = Upload(
    device: nat, path: Path, base: nat, size: nat, digest: Digest, received: nat, touchedAt: int, web: bool)

  datatype Db = Db(
    entries: map<Path, Row>, trash: map<nat, TrashRow>, uploads: map<Name, Upload>, generation: nat)

  predicate IsLive(db: Db, p: Path) {
    p in db.entries && db.entries[p].Live?
  }

  function Revision(db: Db, p: Path): (r: nat) {
    if p in db.entries then db.entries[p].revision else 0
  }

  /** No live file above or below `p`. */
  ghost predicate Clear(db: Db, p: Path) {
    forall q | q in db.entries && db.entries[q].Live? :: !Below(q, p) && !Below(p, q)
  }

  /** No row names the blob. */
  ghost predicate Unheld(db: Db, blob: Name) {
    && (forall p | IsLive(db, p) :: db.entries[p].file.blob != blob)
    && (forall id | id in db.trash :: db.trash[id].file.blob != blob)
  }

  ghost predicate Held(db: Db, f: FileRef) {
    || (exists p :: p in db.entries && db.entries[p].Live? && db.entries[p].file == f)
    || (exists id :: id in db.trash && db.trash[id].file == f)
  }

  // ---------------------------------------------------------------- single row changes

  /** `next_revision` followed by the live upsert. */
  function Publish(db: Db, p: Path, file: FileRef, now: int): Db {
    db.(entries := db.entries[p := Live(db.generation + 1, file, now)], generation := db.generation + 1)
  }

  /** `tombstone`: the update touches no row when the path has none. */
  function Bury(db: Db, p: Path, now: int): Db {
    db.(entries := if p in db.entries then db.entries[p := Tombstone(db.generation + 1, now)] else db.entries,
        generation := db.generation + 1)
  }

  /** SQLite's choice for an integer primary key: one more than the largest. */
  function NextId(trash: map<nat, TrashRow>): (id: nat)
    ensures id !in trash
    ensures forall k | k in trash :: k < id
  {
    if trash == map[] then
      1
    else
      LargestExists(trash.Keys);
      var m :| m in trash && forall k | k in trash :: k <= m;
      m + 1
  }

  lemma {:induction false} LargestExists(s: set<nat>)
    requires s != {}
    ensures exists m :: m in s && forall k | k in s :: k <= m
  {
    var x :| x in s;
    var rest := s - {x};
    if rest == {} {
      assert s == {x};
    } else {
      LargestExists(rest);
      var m :| m in rest && forall k | k in rest :: k <= m;
      var top := if x < m then m else x;
      forall k | k in s
        ensures k <= top
      {
        assert k == x || k in rest;
      }
      assert top in s;
    }
  }

  /** A deletion moves the content to the trash and buries the path. */
  function Discard(db: Db, p: Path, file: FileRef, now: int): Db {
    Bury(db.(trash := db.trash[NextId(db.trash) := TrashRow(p, file, now, now + RETENTION_SECONDS)]), p, now)
  }

  // ---------------------------------------------------------------- folders

  datatype DirectoryFile = DirectoryFile(path: Path, revision: nat, file: FileRef)

  function LiveBelow(db: Db, dir: Path): set<Path> {
    set p | p in db.entries && db.entries[p].Live? && Below(p, dir)
  }

  function FileAt(db: Db, p: Path): DirectoryFile
    requires IsLive(db, p)
  {
    DirectoryFile(p, db.entries[p].revision, db.entries[p].file)
  }

  /** Live files below a folder in path order, as the range scan returns them. */
  function Files(db: Db, dir: Path): (fs: seq<DirectoryFile>)
    ensures |fs| == |LiveBelow(db, dir)|
  {
    var keys := Sorted(LiveBelow(db, dir));
    assert forall i | 0 <= i < |keys| :: keys[i] in keys;
    seq(|keys|, i requires 0 <= i < |keys| => FileAt(db, keys[i]))
  }

  lemma FilesSpec(db: Db, dir: Path)
    ensures var fs := Files(db, dir);
            && (forall i | 0 <= i < |fs| ::
                  IsLive(db, fs[i].path) && Below(fs[i].path, dir) && fs[i] == FileAt(db, fs[i].path))
            && (forall i, j | 0 <= i < j < |fs| :: fs[i].path != fs[j].path)
            && (forall p | IsLive(db, p) && Below(p, dir) :: exists i :: 0 <= i < |fs| && fs[i].path == p)
  {
    var keys := Sorted(LiveBelow(db, dir));
    var fs := Files(db, dir);
    assert forall i | 0 <= i < |keys| :: keys[i] in keys && fs[i].path == keys[i];
    forall i, j | 0 <= i < j < |fs|
      ensures fs[i].path != fs[j].path
    {
      LtIrreflexive(keys[i]);
    }
    forall p | IsLive(db, p) && Below(p, dir)
      ensures exists i :: 0 <= i < |fs| && fs[i].path == p
    {
      assert p in keys;
      var i :| 0 <= i < |keys| && keys[i] == p;
      assert fs[i].path == p;
    }
  }

  /** The live files below a folder, each once, in path order, with their revisions and contents. */
  ghost predicate IsListing(db: Db, dir: Path, fs: seq<DirectoryFile>) {
    && (forall i | 0 <= i < |fs| ::
          && IsLive(db, fs[i].path) && Below(fs[i].path, dir)
          && fs[i].revision == db.entries[fs[i].path].revision && fs[i].file == db.entries[fs[i].path].file)
    && (forall i, j | 0 <= i < j < |fs| :: Lt(fs[i].path, fs[j].path))
    && (forall p | IsLive(db, p) && Below(p, dir) :: exists i :: 0 <= i < |fs| && fs[i].path == p)
  }

  lemma FilesAreListing(db: Db, dir: Path)
    ensures IsListing(db, dir, Files(db, dir))
  {
    FilesSpec(db, dir);
    var keys := Sorted(LiveBelow(db, dir));
    assert forall i | 0 <= i < |keys| :: Files(db, dir)[i].path == keys[i];
  }

  lemma ListingKeys(db: Db, dir: Path, fs: seq<DirectoryFile>, keys: seq<Path>)
    requires IsListing(db, dir, fs) && |keys| == |fs| && forall i | 0 <= i < |fs| :: keys[i] == fs[i].path
    ensures keys == Sorted(LiveBelow(db, dir))
  {
    forall p
      ensures p in keys <==> p in LiveBelow(db, dir)
    {
      if p in LiveBelow(db, dir) {
        var i :| 0 <= i < |fs| && fs[i].path == p;
        assert keys[i] == p;
      }
    }
    SortedUnique(keys, LiveBelow(db, dir));
  }

  /** The scan is the only list that these conditions allow. */
  lemma FilesUnique(db: Db, dir: Path, fs: seq<DirectoryFile>)
    ensures IsListing(db, dir, fs) <==> fs == Files(db, dir)
  {
    FilesAreListing(db, dir);
    if IsListing(db, dir, fs) {
      ListingKeys(db, dir, fs, seq(|fs|, i requires 0 <= i < |fs| => fs[i].path));
      assert forall i | 0 <= i < |fs| :: fs[i] == Files(db, dir)[i];
    }
  }

  /** `LIMIT` one more than the largest folder that may be changed. */
  function Scan(db: Db, dir: Path): (fs: seq<DirectoryFile>)
    ensures |Files(db, dir)| <= FILE_LIMIT ==> fs == Files(db, dir)
    ensures |Files(db, dir)| > FILE_LIMIT ==> |fs| == FILE_LIMIT + 1 && fs <= Files(db, dir)
  {
    if |Files(db, dir)| > FILE_LIMIT then Files(db, dir)[..FILE_LIMIT + 1] else Files(db, dir)
  }

  /** Where a file below `dir` goes when `dir` becomes `target`. */
  function Dest(p: Path, dir: Path, target: Path): Path {
    if |dir| <= |p| then target + p[|dir|..] else target
  }

  /** One iteration of the rename loop. */
  function Move(db: Db, f: DirectoryFile, to: Path, now: int): Db {
    Publish(Bury(db, f.path, now), to, f.file, now)
  }

  ghost function MoveAll(db: Db, fs: seq<DirectoryFile>, dir: Path, target: Path, now: int): Db {
    if fs == [] then
      db
    else
      var n := |fs| - 1;
      Move(MoveAll(db, fs[..n], dir, target, now), fs[n], Dest(fs[n].path, dir, target), now)
  }

  ghost function DiscardAll(db: Db, fs: seq<DirectoryFile>, now: int): Db {
    if fs == [] then
      db
    else
      var n := |fs| - 1;
      Discard(DiscardAll(db, fs[..n], now), fs[n].path, fs[n].file, now)
  }

  // ---------------------------------------------------------------- transactions

  datatype Transaction =
    | Commit(path: Path, base: nat, file: FileRef, drop: set<Name>, now: int)
    | Delete(path: Path, base: nat, now: int)
    | Restore(id: nat, now: int)
    | PurgeExpired(now: int)
    | PurgeItem(id: nat)
    | RenameFolder(dir: Path, name: bytes, now: int)
    | DeleteFolder(dir: Path, now: int)

  ghost predicate FolderOk(db: Db, dir: Path) {
    ValidPath(dir) && 0 < |Files(db, dir)| <= FILE_LIMIT
  }

  /** The checks each transaction makes before it changes a row. */
  ghost predicate Allowed(db: Db, t: Transaction) {
    match t
    case Commit(path, base, file, drop, now) => ValidPath(path) && Clear(db, path) && Revision(db, path) == base
    case Delete(path, base, now) => ValidPath(path) && IsLive(db, path) && Revision(db, path) == base
    case Restore(id, now) =>
      id in db.trash && db.trash[id].expiresAt > now && ValidPath(db.trash[id].path)
      && Clear(db, db.trash[id].path) && !IsLive(db, db.trash[id].path)
    case PurgeExpired(now) => true
    case PurgeItem(id) => id in db.trash
    case RenameFolder(dir, name, now) =>
      FolderOk(db, dir)
      && ValidPath(name) && SLASH !in name && |name| <= MAX_PART
      && var target := Sibling(dir, name);
      target != dir && Clear(db, target) && !IsLive(db, target)
      && forall i | 0 <= i < |Files(db, dir)| :: ValidPath(Dest(Files(db, dir)[i].path, dir, target))
    case DeleteFolder(dir, now) => FolderOk(db, dir)
  }

  ghost function Unexpired(trash: map<nat, TrashRow>, now: int): map<nat, TrashRow> {
    map id | id in trash && trash[id].expiresAt > now :: trash[id]
  }

  ghost function Apply(db: Db, t: Transaction): Db
    requires Allowed(db, t)
  {
    match t
    case Commit(path, base, file, drop, now) => Publish(db.(uploads := db.uploads - drop), path, file, now)
    case Delete(path, base, now) => Discard(db, path, db.entries[path].file, now)
    case Restore(id, now) =>
      Publish(db.(trash := db.trash - {id}), db.trash[id].path, db.trash[id].file, now)
    case PurgeExpired(now) => db.(trash := Unexpired(db.trash, now))
    case PurgeItem(id) => db.(trash := db.trash - {id})
    case RenameFolder(dir, name, now) => MoveAll(db, Files(db, dir), dir, Sibling(dir, name), now)
    case DeleteFolder(dir, now) => DiscardAll(db, Files(db, dir), now)
  }

  /** Blobs that the caller unlinks once the transaction has committed. */
  ghost function Dropped(db: Db, t: Transaction): set<Name>
    requires Allowed(db, t)
  {
    match t
    case Commit(path, _, _, _, _) => if IsLive(db, path) then {db.entries[path].file.blob} else {}
    case PurgeExpired(now) => set id | id in db.trash && db.trash[id].expiresAt <= now :: db.trash[id].file.blob
    case PurgeItem(id) => {db.trash[id].file.blob}
    case _ => {}
  }

  // ---------------------------------------------------------------- invariant

  ghost predicate Revisions(db: Db) {
    && (forall p | p in db.entries :: 1 <= db.entries[p].revision <= db.generation)
    && (forall p, q | p in db.entries && q in db.entries && p != q ::
          db.entries[p].revision != db.entries[q].revision)
  }

  /** No live file lies above another one. */
  ghost predicate Antichain(db: Db) {
    forall p, q | IsLive(db, p) && IsLive(db, q) :: !Below(q, p)
  }

  ghost predicate ValidPaths(db: Db) {
    && (forall p | p in db.entries :: ValidPath(p))
    && (forall id | id in db.trash :: ValidPath(db.trash[id].path))
  }

  /** Every blob named by a row is named by that row alone. */
  ghost predicate OneHolder(db: Db) {
    && (forall p, q | IsLive(db, p) && IsLive(db, q) && p != q ::
          db.entries[p].file.blob != db.entries[q].file.blob)
    && (forall p, id | IsLive(db, p) && id in db.trash :: db.entries[p].file.blob != db.trash[id].file.blob)
    && (forall i, j | i in db.trash && j in db.trash && i != j :: db.trash[i].file.blob != db.trash[j].file.blob)
  }

  ghost predicate Good(db: Db) {
    Revisions(db) && Antichain(db) && ValidPaths(db) && OneHolder(db)
  }

  /** `b` is a later state of `a`: rows stay, and a changed row carries a revision above `a`'s generation. */
  ghost predicate Later(a: Db, b: Db) {
    && a.generation <= b.generation
    && (forall p | p in a.entries :: p in b.entries)
    && (forall p | p in b.entries ::
          (p in a.entries && a.entries[p] == b.entries[p]) || b.entries[p].revision > a.generation)
  }

  lemma LaterTransitive(a: Db, b: Db, c: Db)
    requires Later(a, b) && Later(b, c)
    ensures Later(a, c)
  {
  }

  // ---------------------------------------------------------------- preservation, one row at a time

  lemma PublishKeeps(db: Db, p: Path, file: FileRef, now: int)
    requires Good(db) && ValidPath(p) && Clear(db, p) && Unheld(db, file.blob)
    ensures Good(Publish(db, p, file, now)) && Later(db, Publish(db, p, file, now))
  {
  }

  lemma BuryLater(db: Db, p: Path, now: int)
    requires Revisions(db)
    ensures Revisions(Bury(db, p, now)) && Later(db, Bury(db, p, now))
  {
  }

  /** Burying one path leaves every other live row as it was. */
  lemma BuryLive(db: Db, p: Path, now: int)
    ensures var b := Bury(db, p, now);
            && b.trash == db.trash
            && (forall q :: IsLive(b, q) <==> IsLive(db, q) && q != p)
            && (forall q | IsLive(b, q) :: b.entries[q] == db.entries[q])
            && (forall q :: q in b.entries <==> q in db.entries)
  {
  }

  lemma FewerLiveRows(db: Db, b: Db)
    requires Antichain(db) && ValidPaths(db) && OneHolder(db)
    requires b.trash == db.trash && forall q | q in b.entries :: q in db.entries
    requires forall q | IsLive(b, q) :: IsLive(db, q) && b.entries[q] == db.entries[q]
    ensures Antichain(b) && ValidPaths(b) && OneHolder(b)
  {
  }

  lemma BuryKeeps(db: Db, p: Path, now: int)
    requires Good(db)
    ensures Good(Bury(db, p, now)) && Later(db, Bury(db, p, now))
    ensures IsLive(db, p) ==> Unheld(Bury(db, p, now), db.entries[p].file.blob)
  {
    BuryLater(db, p, now);
    BuryLive(db, p, now);
    FewerLiveRows(db, Bury(db, p, now));
  }

  lemma TrashOne(db: Db, id: nat, row: TrashRow)
    requires Good(db) && id !in db.trash && ValidPath(row.path) && Unheld(db, row.file.blob)
    ensures Good(db.(trash := db.trash[id := row]))
  {
  }

  lemma LaterTrash(db: Db, b: Db, trash: map<nat, TrashRow>)
    requires Later(db, b)
    ensures Later(db, b.(trash := trash))
  {
  }

  lemma DiscardIsBury(db: Db, p: Path, file: FileRef, now: int)
    ensures var b := Bury(db, p, now);
            Discard(db, p, file, now)
            == b.(trash := b.trash[NextId(b.trash) := TrashRow(p, file, now, now + RETENTION_SECONDS)])
  {
  }

  lemma TrashKeeps(db: Db, trash: map<nat, TrashRow>)
    requires Good(db)
    requires forall id | id in trash :: id in db.trash && trash[id] == db.trash[id]
    ensures Good(db.(trash := trash)) && Later(db, db.(trash := trash))
    ensures forall id | id in db.trash && id !in trash :: Unheld(db.(trash := trash), db.trash[id].file.blob)
  {
  }

  lemma DiscardKeeps(db: Db, p: Path, now: int)
    requires Good(db) && IsLive(db, p)
    ensures var d := Discard(db, p, db.entries[p].file, now); Good(d) && Later(db, d)
  {
    var file := db.entries[p].file;
    BuryKeeps(db, p, now);
    var b, row := Bury(db, p, now), TrashRow(p, file, now, now + RETENTION_SECONDS);
    TrashOne(b, NextId(b.trash), row);
    LaterTrash(db, b, b.trash[NextId(b.trash) := row]);
    DiscardIsBury(db, p, file, now);
  }
}
