/** Manifest pages, and a client that pages while other requests change the store. */
module Manifest {
  import opened Bytes
  import opened Paths
  import opened Tables
  import Transactions

  datatype Entry = Entry(path: Path, revision: nat, sha256: Option<Digest>, size: Option<nat>, deleted: bool)

  datatype ManifestPage = ManifestPage(generation: nat, entries: seq<Entry>, next: Option<Path>)

  function Public(p: Path, row: Row): Entry {
    match row
    case Live(revision, file, _) => Entry(p, revision, Some(file.digest), Some(file.size), false)
    case Tombstone(revision, _) => Entry(p, revision, None, None, true)
  }

  function Rows(entries: map<Path, Row>, keys: seq<Path>): (r: seq<Entry>)
    requires forall i | 0 <= i < |keys| :: keys[i] in entries
    ensures |r| == |keys|
  {
    seq(|keys|, i requires 0 <= i < |keys| => Public(keys[i], entries[keys[i]]))
  }

  function Keys(entries: map<Path, Row>): (keys: seq<Path>)
    ensures Ascending(keys) && |keys| == |entries|
    ensures forall i | 0 <= i < |keys| :: keys[i] in entries
  {
    var keys := Sorted(entries.Keys);
    assert forall i | 0 <= i < |keys| :: keys[i] in keys;
    keys
  }

  /** The whole manifest: every row, tombstones included, in path order. */
  function Full(entries: map<Path, Row>): seq<Entry> {
    Rows(entries, Keys(entries))
  }

  /** An entry tells its row's revision, whether it is deleted, and the digest and size of a live file. */
  predicate Tells(e: Entry, row: Row) {
    && e.revision == row.revision && (e.deleted <==> row.Tombstone?)
    && (row.Live? ==> e.sha256 == Some(row.file.digest) && e.size == Some(row.file.size))
    && (row.Tombstone? ==> e.sha256 == None && e.size == None)
  }

  /** A list of entries in path order, one for each row of the table and none besides. */
  ghost predicate IsManifest(entries: map<Path, Row>, list: seq<Entry>) {
    && (forall i | 0 <= i < |list| :: list[i].path in entries && Tells(list[i], entries[list[i].path]))
    && (forall i, j | 0 <= i < j < |list| :: Lt(list[i].path, list[j].path))
    && (forall p | p in entries :: exists i :: 0 <= i < |list| && list[i].path == p)
  }

  lemma FullEntry(entries: map<Path, Row>, i: nat)
    requires i < |Full(entries)|
    ensures var e := Full(entries)[i];
            e.path == Keys(entries)[i] && e.path in entries && Tells(e, entries[e.path])
  {
  }

  lemma KeyIndex(entries: map<Path, Row>, p: Path) returns (i: nat)
    requires p in entries
    ensures i < |Keys(entries)| && Keys(entries)[i] == p
  {
    assert p in Sorted(entries.Keys);
    i :| i < |Keys(entries)| && Keys(entries)[i] == p;
  }

  lemma FullIsManifest(entries: map<Path, Row>)
    ensures IsManifest(entries, Full(entries))
    ensures forall i | 0 <= i < |Full(entries)| :: Full(entries)[i].path == Keys(entries)[i]
  {
    var full := Full(entries);
    forall i | 0 <= i < |full|
      ensures full[i].path == Keys(entries)[i] && full[i].path in entries && Tells(full[i], entries[full[i].path])
    {
      FullEntry(entries, i);
    }
    forall p | p in entries
      ensures exists i :: 0 <= i < |full| && full[i].path == p
    {
      var i := KeyIndex(entries, p);
      assert full[i].path == p;
    }
  }

  /** What a page shows of the table: exactly the rows after the cursor, as far as it goes. */
  ghost predicate Shows(entries: map<Path, Row>, after: Path, page: ManifestPage) {
    && (forall i | 0 <= i < |page.entries| ::
          var e := page.entries[i]; e.path in entries && Tells(e, entries[e.path]) && Lt(after, e.path))
    && (forall i, j | 0 <= i < j < |page.entries| :: Lt(page.entries[i].path, page.entries[j].path))
    && (forall p | p in entries && Lt(after, p) && (page.next.Some? ==> Lt(p, page.next.value)) ::
          exists i :: 0 <= i < |page.entries| && page.entries[i].path == p)
    && (page.next.Some? ==> page.next.value in entries && Lt(after, page.next.value))
  }

  lemma StartSplits(keys: seq<Path>, after: Path, j: nat)
    requires Ascending(keys) && j < |keys|
    ensures Lt(after, keys[j]) <==> Start(keys, after, 0) <= j
  {
    var k := Start(keys, after, 0);
    if j > k {
      LtTransitive(after, keys[k], keys[j]);
    }
  }

  lemma IndexBefore(keys: seq<Path>, i: nat, j: nat)
    requires Ascending(keys) && i < |keys| && j < |keys|
    ensures Lt(keys[i], keys[j]) <==> i < j
  {
    LtIrreflexive(keys[i]);
    if j < i {
      LtAsymmetric(keys[j], keys[i]);
    }
  }

  lemma CutEntry(
    entries: map<Path, Row>, keys: seq<Path>, full: seq<Entry>, after: Path, limit: nat, page: ManifestPage, i: nat)
    requires |keys| == |full| && Ascending(keys) && IsCut(keys, full, after, limit, page) && i < |page.entries|
    requires forall i | 0 <= i < |full| ::
               full[i].path == keys[i] && full[i].path in entries && Tells(full[i], entries[full[i].path])
    ensures Start(keys, after, 0) + i < |full| && page.entries[i] == full[Start(keys, after, 0) + i]
    ensures var e := page.entries[i]; e.path in entries && Tells(e, entries[e.path]) && Lt(after, e.path)
  {
    StartSplits(keys, after, Start(keys, after, 0) + i);
  }

  lemma CutHas(
    keys: seq<Path>, full: seq<Entry>, after: Path, limit: nat, page: ManifestPage, j: nat)
    requires |keys| == |full| && Ascending(keys) && IsCut(keys, full, after, limit, page) && j < |keys|
    requires forall i | 0 <= i < |full| :: full[i].path == keys[i]
    requires Lt(after, keys[j]) && (page.next.Some? ==> Lt(keys[j], page.next.value))
    ensures exists i :: 0 <= i < |page.entries| && page.entries[i].path == keys[j]
  {
    var k := Start(keys, after, 0);
    StartSplits(keys, after, j);
    if page.next.Some? {
      IndexBefore(keys, j, k + limit);
    }
    assert page.entries[j - k] == full[j];
  }

  lemma CutShows(
    entries: map<Path, Row>, keys: seq<Path>, full: seq<Entry>, after: Path, limit: nat, page: ManifestPage)
    requires IsManifest(entries, full) && |keys| == |full| && Ascending(keys)
    requires forall i | 0 <= i < |full| :: full[i].path == keys[i]
    requires IsCut(keys, full, after, limit, page)
    ensures Shows(entries, after, page)
  {
    forall i | 0 <= i < |page.entries|
      ensures var e := page.entries[i]; e.path in entries && Tells(e, entries[e.path]) && Lt(after, e.path)
      ensures Start(keys, after, 0) + i < |full| && page.entries[i] == full[Start(keys, after, 0) + i]
    {
      CutEntry(entries, keys, full, after, limit, page, i);
    }
    forall p | p in entries && Lt(after, p) && (page.next.Some? ==> Lt(p, page.next.value))
      ensures exists i :: 0 <= i < |page.entries| && page.entries[i].path == p
    {
      var j :| 0 <= j < |full| && full[j].path == p;
      CutHas(keys, full, after, limit, page, j);
    }
    if page.next.Some? {
      StartSplits(keys, after, Start(keys, after, 0) + limit);
    }
  }

  lemma PageShows(db: Db, after: Path, limit: nat, page: ManifestPage)
    requires IsPage(db, after, limit, page)
    ensures Shows(db.entries, after, page)
  {
    FullIsManifest(db.entries);
    CutShows(db.entries, Keys(db.entries), Full(db.entries), after, limit, page);
  }

  const PAGE_LIMIT := 1000

  function Distance(a: int, b: int): int {
    if a < b then b - a else a - b
  }

  /** The page size nearest to what was asked for. */
  function Clamp(limit: Option<int>): (n: nat)
    ensures 1 <= n <= PAGE_LIMIT && (limit == None ==> n == PAGE_LIMIT)
    ensures limit.Some? ==> forall m | 1 <= m <= PAGE_LIMIT :: Distance(n, limit.value) <= Distance(m, limit.value)
  {
    match limit
    case None => PAGE_LIMIT
    case Some(n) => if n < 1 then 1 else if n > PAGE_LIMIT then PAGE_LIMIT else n
  }

  /** What one page promises: the first rows after the cursor, and the first omitted path if there is one. */
  ghost predicate IsPage(db: Db, after: Path, limit: nat, page: ManifestPage) {
    page.generation == db.generation && IsCut(Keys(db.entries), Full(db.entries), after, limit, page)
  }

  ghost predicate IsCut(keys: seq<Path>, full: seq<Entry>, after: Path, limit: nat, page: ManifestPage)
    requires |keys| == |full|
  {
    var k := Start(keys, after, 0);
    if k + limit < |full| then
      page.entries == full[k..k + limit] && page.next == Some(full[k + limit].path)
    else
      page.entries == full[k..] && page.next == None
  }

  method GetPage(db: Db, after: Option<Path>, limit: Option<int>) returns (page: ManifestPage)
    ensures IsPage(db, if after.Some? then after.value else [], Clamp(limit), page)
    ensures Shows(db.entries, if after.Some? then after.value else [], page)
  {
    page := Cut(
      Keys(db.entries), Full(db.entries), db.generation, if after.Some? then after.value else [], Clamp(limit));
    PageShows(db, if after.Some? then after.value else [], Clamp(limit), page);
  }

  /** Fetches one row more than asked for, and pops it into `next`. */
  method Cut(keys: seq<Path>, full: seq<Entry>, generation: nat, cursor: Path, n: nat) returns (page: ManifestPage)
    requires |keys| == |full|
    ensures page.generation == generation && IsCut(keys, full, cursor, n, page)
  {
    var k := Start(keys, cursor, 0);
    var entries, next := Take(full, k, n + 1), None;
    if |entries| > n {
      next := Some(entries[n].path);
      assert entries[n] == entries[..n + 1][n];
      entries := entries[..n];
    } else {
      assert entries == entries[..|entries|];
    }
    page := ManifestPage(generation, entries, next);
  }

  /** `LIMIT n` from position k. */
  function Take<T>(s: seq<T>, k: nat, n: nat): (r: seq<T>)
    requires k <= |s|
    ensures |r| == if k + n < |s| then n else |s| - k
    ensures forall m | 0 <= m <= |r| :: r[..m] == s[k..k + m]
  {
    if k + n < |s| then s[k..k + n] else s[k..]
  }

  // ---------------------------------------------------------------- a client following the pages

  /** A page that has a successor is not empty, so the client resumes after its last entry. */
  ghost function Cursor(pages: seq<ManifestPage>, i: nat): Path
    requires i <= |pages|
  {
    if i == 0 || pages[i - 1].entries == [] then [] else pages[i - 1].entries[|pages[i - 1].entries| - 1].path
  }

  /** Each page is answered by some state; the client stops at a page without a successor. */
  ghost predicate Paging(dbs: seq<Db>, pages: seq<ManifestPage>, limit: nat) {
    && limit > 0 && |dbs| == |pages| > 0
    && (forall i: nat {:trigger Answered(dbs, pages, limit, i)} :: Answered(dbs, pages, limit, i))
    && (forall i | 0 <= i < |pages| - 1 :: pages[i].next.Some?)
  }

  ghost predicate Answered(dbs: seq<Db>, pages: seq<ManifestPage>, limit: nat, i: nat) {
    i < |dbs| && i < |pages| ==> IsPage(dbs[i], Cursor(pages, i), limit, pages[i])
  }

  /** The states come from one run, in this order. */
  ghost predicate InOrder(dbs: seq<Db>) {
    && (forall i | 0 <= i < |dbs| :: Good(dbs[i]))
    && (forall i, j | 0 <= i <= j < |dbs| :: Later(dbs[i], dbs[j]))
  }

  function Bodies(pages: seq<ManifestPage>): (b: seq<seq<Entry>>)
    ensures |b| == |pages|
  {
    seq(|pages|, i requires 0 <= i < |pages| => pages[i].entries)
  }

  lemma CutEnd(keys: seq<Path>, full: seq<Entry>, after: Path, limit: nat, page: ManifestPage)
    requires |keys| == |full| && Ascending(keys) && limit > 0
    requires forall i | 0 <= i < |full| :: full[i].path == keys[i]
    requires IsCut(keys, full, after, limit, page) && page.next.Some?
    ensures var k := Start(keys, after, 0);
            && k + limit < |keys| && |page.entries| == limit
            && page.entries[limit - 1].path == keys[k + limit - 1]
            && Lt(after, keys[k + limit - 1])
  {
    var k := Start(keys, after, 0);
    assert page.entries[limit - 1] == full[k + limit - 1];
    if limit > 1 {
      LtTransitive(after, keys[k], keys[k + limit - 1]);
    }
  }

  /** A page with a successor ends strictly after its cursor, at a stored path; the rest of the list follows it. */
  lemma PageEnd(db: Db, after: Path, limit: nat, page: ManifestPage)
    requires limit > 0 && IsPage(db, after, limit, page) && page.next.Some?
    ensures |page.entries| == limit
    ensures var end := page.entries[limit - 1].path;
            && end in db.entries && Lt(after, end)
            && page.entries + Full(db.entries)[Start(Keys(db.entries), end, 0)..]
            == Full(db.entries)[Start(Keys(db.entries), after, 0)..]
  {
    var keys, full := Keys(db.entries), Full(db.entries);
    CutEnd(keys, full, after, limit, page);
    CutThenRest(keys, full, after, limit, page, page.entries[limit - 1].path);
  }

  /** The cursor moves strictly forward, to a stored path. */
  lemma CursorAdvances(dbs: seq<Db>, pages: seq<ManifestPage>, limit: nat, i: nat)
    requires Paging(dbs, pages, limit) && i < |pages| - 1
    ensures Lt(Cursor(pages, i), Cursor(pages, i + 1)) && Cursor(pages, i + 1) in dbs[i].entries
  {
    assert Answered(dbs, pages, limit, i);
    PageEnd(dbs[i], Cursor(pages, i), limit, pages[i]);
  }

  lemma {:induction false} StepsAscend(s: seq<bytes>, i: nat, j: nat)
    requires forall k | 0 <= k < |s| - 1 :: Lt(s[k], s[k + 1])
    requires i < j < |s|
    ensures Lt(s[i], s[j])
  {
    assert Lt(s[j - 1], s[j - 1 + 1]);
    if i < j - 1 {
      StepsAscend(s, i, j - 1);
      LtTransitive(s[i], s[j - 1], s[j]);
    }
  }

  lemma {:induction false} AscendingFits(s: seq<bytes>, keys: set<bytes>)
    requires Ascending(s) && forall i | 0 <= i < |s| :: s[i] in keys
    ensures |s| <= |keys|
  {
    if s != [] {
      forall i | 0 <= i < |s[1..]|
        ensures s[1..][i] in keys - {s[0]}
      {
        LtIrreflexive(s[0]);
      }
      AscendingFits(s[1..], keys - {s[0]});
    }
  }

  /** However the store changes meanwhile, the client makes at most one request per row of the last state, plus one. */
  lemma PagingTerminates(dbs: seq<Db>, pages: seq<ManifestPage>, limit: nat)
    requires Paging(dbs, pages, limit) && InOrder(dbs)
    ensures |pages| <= |dbs[|dbs| - 1].entries| + 1
  {
    var n := |pages| - 1;
    var cursors := seq(n, i requires 0 <= i < n => Cursor(pages, i + 1));
    CursorsAscend(dbs, pages, limit, cursors);
    forall i | 0 <= i < n
      ensures cursors[i] in dbs[n].entries.Keys
    {
      CursorStays(dbs, pages, limit, i);
    }
    AscendingFits(cursors, dbs[n].entries.Keys);
  }

  lemma CursorsAscend(dbs: seq<Db>, pages: seq<ManifestPage>, limit: nat, cursors: seq<Path>)
    requires Paging(dbs, pages, limit) && |cursors| == |pages| - 1
    requires forall i | 0 <= i < |cursors| :: cursors[i] == Cursor(pages, i + 1)
    ensures Ascending(cursors)
  {
    forall i | 0 <= i < |cursors| - 1
      ensures Lt(cursors[i], cursors[i + 1])
    {
      CursorAdvances(dbs, pages, limit, i + 1);
    }
    StepsAreAscending(cursors);
  }

  /** Rows are never removed, so every cursor is still a stored path at the end. */
  lemma CursorStays(dbs: seq<Db>, pages: seq<ManifestPage>, limit: nat, i: nat)
    requires Paging(dbs, pages, limit) && InOrder(dbs) && i < |pages| - 1
    ensures Cursor(pages, i + 1) in dbs[|pages| - 1].entries
  {
    CursorAdvances(dbs, pages, limit, i);
    assert Later(dbs[i], dbs[|pages| - 1]);
  }

  lemma StepsAreAscending(s: seq<bytes>)
    requires forall k | 0 <= k < |s| - 1 :: Lt(s[k], s[k + 1])
    ensures Ascending(s)
  {
    forall i, j | 0 <= i < j < |s|
      ensures Lt(s[i], s[j])
    {
      StepsAscend(s, i, j);
    }
  }

  lemma BodiesCons(pages: seq<ManifestPage>, i: nat)
    requires i < |pages|
    ensures Flatten(Bodies(pages[i..])) == pages[i].entries + Flatten(Bodies(pages[i + 1..]))
  {
    assert Bodies(pages[i..]) == [pages[i].entries] + Bodies(pages[i + 1..]);
    FlattenCons(pages[i].entries, Bodies(pages[i + 1..]));
  }

  lemma CutThenRest(
    keys: seq<Path>, full: seq<Entry>, after: Path, limit: nat, page: ManifestPage, cursor: Path)
    requires |keys| == |full| && Ascending(keys) && limit > 0
    requires IsCut(keys, full, after, limit, page) && page.next.Some?
    requires cursor == keys[Start(keys, after, 0) + limit - 1]
    ensures page.entries + full[Start(keys, cursor, 0)..] == full[Start(keys, after, 0)..]
  {
    NextStart(keys, after, limit);
    SliceJoin(full, Start(keys, after, 0), Start(keys, after, 0) + limit);
  }

  lemma NextStart(keys: seq<Path>, after: Path, limit: nat)
    requires Ascending(keys) && limit > 0 && Start(keys, after, 0) + limit <= |keys|
    ensures Start(keys, keys[Start(keys, after, 0) + limit - 1], 0) == Start(keys, after, 0) + limit
  {
    AfterIndex(keys, Start(keys, after, 0) + limit - 1);
  }

  /** The manifest after a cursor. */
  ghost function Rest(entries: map<Path, Row>, cursor: Path): seq<Entry> {
    Full(entries)[Start(Keys(entries), cursor, 0)..]
  }

  /** A page and what follows it make up what followed its cursor. */
  lemma PageThenRest(dbs: seq<Db>, pages: seq<ManifestPage>, limit: nat, i: nat)
    requires Paging(dbs, pages, limit) && i < |pages|
    ensures pages[i].next.Some? && i + 1 < |pages| ==>
              pages[i].entries + Rest(dbs[i].entries, Cursor(pages, i + 1)) == Rest(dbs[i].entries, Cursor(pages, i))
    ensures pages[i].next.None? ==> pages[i].entries == Rest(dbs[i].entries, Cursor(pages, i))
  {
    assert Answered(dbs, pages, limit, i);
    PageRest(dbs[i], Cursor(pages, i), limit, pages[i]);
  }

  lemma PageRest(db: Db, after: Path, limit: nat, page: ManifestPage)
    requires limit > 0 && IsPage(db, after, limit, page)
    ensures page.next.Some? ==>
              page.entries != []
              && page.entries + Rest(db.entries, page.entries[|page.entries| - 1].path) == Rest(db.entries, after)
    ensures page.next.None? ==> page.entries == Rest(db.entries, after)
  {
    if page.next.Some? {
      PageEnd(db, after, limit, page);
    }
  }

  /** If each body joins with the rest after it, the bodies from the i-th on are the rest before it. */
  lemma {:induction false} BodiesAreRest(pages: seq<ManifestPage>, rests: seq<seq<Entry>>, i: nat)
    requires i < |pages| == |rests|
    requires forall j | 0 <= j < |pages| - 1 :: pages[j].entries + rests[j + 1] == rests[j]
    requires pages[|pages| - 1].entries == rests[|pages| - 1]
    ensures Flatten(Bodies(pages[i..])) == rests[i]
    decreases |pages| - i
  {
    BodiesCons(pages, i);
    if i + 1 < |pages| {
      BodiesAreRest(pages, rests, i + 1);
    } else {
      assert Bodies(pages[i + 1..]) == [];
    }
  }

  lemma PageJoinsRest(dbs: seq<Db>, pages: seq<ManifestPage>, limit: nat, entries: map<Path, Row>, j: nat)
    requires Paging(dbs, pages, limit) && pages[|pages| - 1].next == None
    requires j < |pages| && dbs[j].entries == entries
    ensures j < |pages| - 1 ==>
              pages[j].entries + Rest(entries, Cursor(pages, j + 1)) == Rest(entries, Cursor(pages, j))
    ensures j == |pages| - 1 ==> pages[j].entries == Rest(entries, Cursor(pages, j))
  {
    PageThenRest(dbs, pages, limit, j);
  }

  /** Pages answered by states with the same rows follow each other to the end of the manifest. */
  lemma PagesAreRest(dbs: seq<Db>, pages: seq<ManifestPage>, limit: nat, entries: map<Path, Row>)
    requires Paging(dbs, pages, limit) && pages[|pages| - 1].next == None
    requires forall j | 0 <= j < |dbs| :: dbs[j].entries == entries
    ensures Flatten(Bodies(pages)) == Rest(entries, [])
  {
    var rests := seq(|pages|, i requires 0 <= i < |pages| => Rest(entries, Cursor(pages, i)));
    PagesAreRests(dbs, pages, limit, entries, rests);
    assert pages[0..] == pages;
  }

  lemma PagesAreRests(
    dbs: seq<Db>, pages: seq<ManifestPage>, limit: nat, entries: map<Path, Row>, rests: seq<seq<Entry>>)
    requires Paging(dbs, pages, limit) && pages[|pages| - 1].next == None
    requires forall j | 0 <= j < |dbs| :: dbs[j].entries == entries
    requires |rests| == |pages| && forall j | 0 <= j < |pages| :: rests[j] == Rest(entries, Cursor(pages, j))
    ensures Flatten(Bodies(pages[0..])) == rests[0]
  {
    forall j | 0 <= j < |pages|
      ensures j < |pages| - 1 ==> pages[j].entries + rests[j + 1] == rests[j]
      ensures j == |pages| - 1 ==> pages[j].entries == rests[j]
    {
      PageJoinsRest(dbs, pages, limit, entries, j);
    }
    BodiesAreRest(pages, rests, 0);
  }

  /** If all pages carry one generation, together they are exactly the sorted manifest of that generation. */
  lemma PagesFormManifest(dbs: seq<Db>, pages: seq<ManifestPage>, limit: nat)
    requires Paging(dbs, pages, limit) && InOrder(dbs) && pages[|pages| - 1].next == None
    requires forall i | 0 <= i < |pages| :: pages[i].generation == pages[0].generation
    ensures forall i | 0 <= i < |dbs| ::
              Flatten(Bodies(pages)) == Full(dbs[i].entries) && IsManifest(dbs[i].entries, Flatten(Bodies(pages)))
  {
    FullIsManifest(dbs[0].entries);
    forall i | 0 <= i < |dbs|
      ensures dbs[i].entries == dbs[0].entries
    {
      assert Answered(dbs, pages, limit, i) && Answered(dbs, pages, limit, 0);
      Transactions.GenerationNamesEntries(dbs[0], dbs[i]);
    }
    PagesAreRest(dbs, pages, limit, dbs[0].entries);
    EmptyCursor(dbs[0]);
    assert Full(dbs[0].entries)[0..] == Full(dbs[0].entries);
  }

  /** The first request's empty cursor skips nothing: no stored path is empty. */
  lemma EmptyCursor(db: Db)
    requires Good(db)
    ensures Start(Keys(db.entries), [], 0) == 0
  {
  }
}
