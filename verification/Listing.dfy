/** The web listing: immediate children of a folder, grouped, totalled and paged by key. */
module Listing {
  import opened Bytes
  import opened Paths
  import opened Tables
  import Server
  import Snapshot

  const PAGE_SIZE := 200
  const MAX_CURSOR := 8194

  // "directory:" and "file:"
  const DIRECTORY: bytes := [100, 105, 114, 101, 99, 116, 111, 114, 121, 58]
  const FILE: bytes := [102, 105, 108, 101, 58]

  function Prefix(dir: Path): bytes {
    if dir == [] then [] else dir + [SLASH]
  }

  /** Live files that the query sees: the folder's range, or everything for the root. */
  function Candidates(db: Db, dir: Path): (s: set<Path>)
    ensures forall p | p in s :: IsLive(db, p) && Prefix(dir) <= p
    ensures forall p | IsLive(db, p) && Prefix(dir) <= p :: p in s
  {
    RangeAll(dir);
    set p | p in db.entries && db.entries[p].Live? && (dir == [] || InRange(p, dir))
  }

  lemma RangeAll(dir: Path)
    ensures forall p :: InRange(p, dir) <==> Below(p, dir)
  {
    forall p
      ensures InRange(p, dir) <==> Below(p, dir)
    {
      RangeIsBelow(p, dir);
    }
  }

  /** Index of the first slash from `i` on, or the length: `instr`. */
  function SlashFrom(p: bytes, i: nat): (k: nat)
    requires i <= |p|
    ensures i <= k <= |p|
    ensures forall j | i <= j < k :: p[j] != SLASH
    ensures k < |p| ==> p[k] == SLASH
    decreases |p| - i
  {
    if i < |p| && p[i] != SLASH then SlashFrom(p, i + 1) else i
  }

  /** The key of the row that a file is shown in: its folder's, or its own. */
  function KeyOf(p: Path, dir: Path): bytes
    requires Prefix(dir) <= p
  {
    var k := SlashFrom(p, |Prefix(dir)|);
    if k < |p| then DIRECTORY + p[..k] else FILE + p
  }

  function ItemKeys(db: Db, dir: Path): set<bytes> {
    set p | p in Candidates(db, dir) :: KeyOf(p, dir)
  }

  /** The files shown in one row. */
  function Group(db: Db, dir: Path, key: bytes): set<Path> {
    set p | p in Candidates(db, dir) && KeyOf(p, dir) == key
  }

  // ---------------------------------------------------------------- rows are the immediate children

  ghost predicate Child(c: Path, dir: Path) {
    Prefix(dir) <= c && SLASH !in c[|Prefix(dir)|..]
  }

  lemma FolderKey(p: Path, c: Path, dir: Path)
    requires Prefix(dir) <= p && Child(c, dir)
    ensures KeyOf(p, dir) == DIRECTORY + c <==> Below(p, c)
  {
    var n, k := |Prefix(dir)|, SlashFrom(p, |Prefix(dir)|);
    assert forall j | n <= j < |c| :: c[j] == c[n..][j - n] && c[n..][j - n] in c[n..];
    AncestorsAreAbove(p, c);
    if k < |p| && p[..k] == c {
      assert Below(p, c);
    }
    if Below(p, c) {
      assert forall j | 0 <= j < |c| :: p[j] == c[j];
      assert k == |c|;
    }
    KindsDiffer(c, p);
    assert DIRECTORY + c == DIRECTORY + p[..k] ==> c == p[..k] by {
      assert (DIRECTORY + c)[|DIRECTORY|..] == c && (DIRECTORY + p[..k])[|DIRECTORY|..] == p[..k];
    }
  }

  lemma KindsDiffer(a: bytes, b: bytes)
    ensures DIRECTORY + a != FILE + b
  {
    assert (DIRECTORY + a)[0] == 100 && (FILE + b)[0] == 102;
  }

  lemma FileKey(p: Path, c: Path, dir: Path)
    requires Prefix(dir) <= p
    ensures KeyOf(p, dir) == FILE + c <==> p == c && Child(c, dir)
  {
    var n, k := |Prefix(dir)|, SlashFrom(p, |Prefix(dir)|);
    KindsDiffer(p[..k], c);
    assert FILE + p == FILE + c ==> p == c by {
      assert (FILE + p)[|FILE|..] == p && (FILE + c)[|FILE|..] == c;
    }
    assert k < |p| ==> p[n..][k - n] == SLASH;
    assert forall j | n <= j < |p| :: p[j] == p[n..][j - n];
  }

  /** A file row for each live child; a folder row for each child with live files below it; nothing else. */
  lemma RowsAreChildren(db: Db, dir: Path, c: Path)
    requires Child(c, dir)
    ensures FILE + c in ItemKeys(db, dir) <==> IsLive(db, c)
    ensures DIRECTORY + c in ItemKeys(db, dir) <==> LiveBelow(db, c) != {}
    ensures Group(db, dir, DIRECTORY + c) == LiveBelow(db, c)
  {
    forall p | p in Candidates(db, dir)
      ensures KeyOf(p, dir) == FILE + c <==> p == c
      ensures KeyOf(p, dir) == DIRECTORY + c <==> Below(p, c)
    {
      FileKey(p, c, dir);
      FolderKey(p, c, dir);
    }
    forall p | p in LiveBelow(db, c)
      ensures p in Candidates(db, dir)
    {
      AncestorsAreAbove(p, c);
      assert p[..|Prefix(dir)|] == c[..|Prefix(dir)|];
    }
    if IsLive(db, c) {
      assert c in Candidates(db, dir);
    }
    if DIRECTORY + c in ItemKeys(db, dir) {
      var p :| p in Candidates(db, dir) && KeyOf(p, dir) == DIRECTORY + c;
      assert p in LiveBelow(db, c);
    }
    if LiveBelow(db, c) != {} {
      var p :| p in LiveBelow(db, c);
      assert p in Candidates(db, dir) && KeyOf(p, dir) == DIRECTORY + c;
    }
  }

  lemma EveryRowIsAChild(db: Db, dir: Path, key: bytes)
    requires key in ItemKeys(db, dir)
    ensures exists c :: Child(c, dir) && (key == FILE + c || key == DIRECTORY + c)
  {
  }

  // ---------------------------------------------------------------- totals

  function Sizes(db: Db): map<Path, nat> {
    map p | p in db.entries && db.entries[p].Live? :: db.entries[p].file.size
  }

  ghost function Sum(m: map<Path, nat>, s: set<Path>): nat
    requires s <= m.Keys
  {
    if s == {} then 0 else var p :| p in s; m[p] + Sum(m, s - {p})
  }

  lemma {:induction false} SumRemove(m: map<Path, nat>, s: set<Path>, p: Path)
    requires s <= m.Keys && p in s
    ensures Sum(m, s) == m[p] + Sum(m, s - {p})
  {
    var q :| q in s && Sum(m, s) == m[q] + Sum(m, s - {q});
    if q != p {
      SumRemove(m, s - {q}, p);
      SumRemove(m, s - {p}, q);
      assert s - {q} - {p} == s - {p} - {q};
    }
  }

  lemma {:induction false} SumUnion(m: map<Path, nat>, s: set<Path>, t: set<Path>)
    requires s <= m.Keys && t <= m.Keys && s !! t
    ensures Sum(m, s + t) == Sum(m, s) + Sum(m, t)
  {
    if s == {} {
      assert s + t == t;
    } else {
      var p :| p in s;
      SumRemove(m, s, p);
      SumRemove(m, s + t, p);
      assert s + t - {p} == (s - {p}) + t;
      SumUnion(m, s - {p}, t);
    }
  }

  ghost function SizeOf(db: Db, dir: Path, key: bytes): nat {
    Sum(Sizes(db), Group(db, dir, key))
  }

  function Times(db: Db): map<Path, int> {
    map p | p in db.entries && db.entries[p].Live? :: db.entries[p].updatedAt
  }

  /** `MAX` over a set of rows. */
  ghost predicate IsMax(m: map<Path, int>, s: set<Path>, t: int)
    requires s <= m.Keys
  {
    (forall p | p in s :: m[p] <= t) && exists p :: p in s && m[p] == t
  }

  ghost function RowTotal(db: Db, dir: Path, keys: seq<bytes>): nat {
    if keys == [] then 0 else SizeOf(db, dir, keys[0]) + RowTotal(db, dir, keys[1..])
  }

  ghost function Shown(db: Db, dir: Path, keys: seq<bytes>): set<Path> {
    set p | p in Candidates(db, dir) && KeyOf(p, dir) in keys
  }

  lemma {:induction false} RowsSum(db: Db, dir: Path, keys: seq<bytes>)
    requires Ascending(keys)
    ensures RowTotal(db, dir, keys) == Sum(Sizes(db), Shown(db, dir, keys))
  {
    if keys == [] {
      assert Shown(db, dir, keys) == {};
    } else {
      var first, rest := Group(db, dir, keys[0]), Shown(db, dir, keys[1..]);
      RowsSum(db, dir, keys[1..]);
      assert keys[0] !in keys[1..] by {
        LtIrreflexive(keys[0]);
      }
      assert keys == [keys[0]] + keys[1..];
      assert Shown(db, dir, keys) == first + rest && first !! rest;
      SumUnion(Sizes(db), first, rest);
    }
  }

  /** The rows of a folder add up to the folder: no file is left out or counted twice. */
  lemma RowsAddUp(db: Db, dir: Path)
    ensures RowTotal(db, dir, Sorted(ItemKeys(db, dir))) == Sum(Sizes(db), Candidates(db, dir))
    ensures dir != [] ==> Candidates(db, dir) == LiveBelow(db, dir)
  {
    var keys := Sorted(ItemKeys(db, dir));
    RowsSum(db, dir, keys);
    assert Shown(db, dir, keys) == Candidates(db, dir);
  }

  // ---------------------------------------------------------------- pages

  datatype ListRow = ListRow(key: bytes, size: nat, revision: Option<nat>, sha256: Option<Digest>, updatedAt: int)

  /** The live file that a row's key names, if it is a file's row. */
  function FileOf(db: Db, key: bytes): Option<DirectoryFile> {
    if FILE <= key && IsLive(db, key[|FILE|..]) then Some(FileAt(db, key[|FILE|..])) else None
  }

  /** What a row shows: totals over its files, and for a file its version. */
  ghost predicate IsRow(db: Db, dir: Path, key: bytes, row: ListRow) {
    && row.key == key && row.size == SizeOf(db, dir, key) && IsMax(Times(db), Group(db, dir, key), row.updatedAt)
    && var f := FileOf(db, key);
    row.revision == (if f.Some? then Some(f.value.revision) else None)
    && row.sha256 == (if f.Some? then Some(f.value.file.digest) else None)
  }

  /** A file's row shows that file's size, version and time. */
  lemma FileRow(db: Db, dir: Path, c: Path, row: ListRow)
    requires Child(c, dir) && IsLive(db, c) && IsRow(db, dir, FILE + c, row)
    ensures var e := db.entries[c];
            row == ListRow(FILE + c, e.file.size, Some(e.revision), Some(e.file.digest), e.updatedAt)
  {
    assert (FILE + c)[|FILE|..] == c;
    assert Group(db, dir, FILE + c) == {c} by {
      forall p | p in Candidates(db, dir)
        ensures KeyOf(p, dir) == FILE + c <==> p == c
      {
        FileKey(p, c, dir);
      }
      assert c in Candidates(db, dir);
    }
    SumRemove(Sizes(db), {c}, c);
    assert {c} - {c} == {};
  }

  /** `info`: what a folder's properties show. */
  datatype FolderInfo = FolderInfo(count: nat, size: nat, updatedAt: int, snapshot: Option<Digest>)

  ghost predicate IsInfo(hash: bytes -> Digest, db: Db, dir: Path, info: FolderInfo) {
    var files := LiveBelow(db, dir);
    && info.count == |files| && info.size == Sum(Sizes(db), files) && IsMax(Times(db), files, info.updatedAt)
    && info.snapshot == if |files| <= FILE_LIMIT then Some(hash(Snapshot.Encode(Files(db, dir)))) else None
  }

  method Info(hash: bytes -> Digest, db: Db, dir: Path) returns (r: Server.Reply<FolderInfo>)
    ensures r == Server.Err(Server.BadRequest) <==> !ValidPath(dir)
    ensures r == Server.Err(Server.NotFound) <==> ValidPath(dir) && LiveBelow(db, dir) == {}
    ensures r.Ok? <==> ValidPath(dir) && LiveBelow(db, dir) != {}
    ensures r.Ok? ==> IsInfo(hash, db, dir, r.value)
  {
    if !ValidPath(dir) {
      return Server.Err(Server.BadRequest);
    }
    var files := LiveBelow(db, dir);
    if |files| == 0 {
      return Server.Err(Server.NotFound);
    }
    var size := SumOver(Sizes(db), files);
    var updated := MaxOver(Times(db), files);
    var snapshot: Option<Digest> := None;
    if |files| <= FILE_LIMIT {
      var digest := Snapshot.Fingerprint(hash, Scan(db, dir));
      snapshot := Some(digest);
    }
    r := Server.Ok(FolderInfo(|files|, size, updated, snapshot));
  }

  /** A folder row shows exactly what the folder's own properties show. */
  lemma FolderRowAgreesWithInfo(
    hash: bytes -> Digest, db: Db, dir: Path, c: Path, row: ListRow, info: FolderInfo)
    requires Child(c, dir) && IsRow(db, dir, DIRECTORY + c, row) && IsInfo(hash, db, c, info)
    ensures row.size == info.size && row.updatedAt == info.updatedAt && row.revision == None && row.sha256 == None
  {
    RowsAreChildren(db, dir, c);
    assert (DIRECTORY + c)[0] == 100 && FILE[0] == 102;
  }

  method MaxOver(m: map<Path, int>, s: set<Path>) returns (t: int)
    requires s <= m.Keys && s != {}
    ensures IsMax(m, s, t)
  {
    var p :| p in s;
    t := m[p];
    var rest := s - {p};
    while rest != {}
      invariant rest <= s && IsMax(m, s - rest, t)
      decreases rest
    {
      var q :| q in rest;
      assert s - (rest - {q}) == (s - rest) + {q};
      if m[q] > t {
        t := m[q];
      }
      rest := rest - {q};
    }
    assert s - rest == s;
  }

  method SumOver(m: map<Path, nat>, s: set<Path>) returns (total: nat)
    requires s <= m.Keys
    ensures total == Sum(m, s)
  {
    total := 0;
    var rest := s;
    while rest != {}
      invariant rest <= s && total + Sum(m, rest) == Sum(m, s)
      decreases rest
    {
      var p :| p in rest;
      SumRemove(m, rest, p);
      total := total + m[p];
      rest := rest - {p};
    }
  }

  ghost predicate RowsOf(db: Db, dir: Path, shown: seq<bytes>, rows: seq<ListRow>) {
    |rows| == |shown| && forall i | 0 <= i < |rows| :: IsRow(db, dir, shown[i], rows[i])
  }

  method RowFor(db: Db, dir: Path, key: bytes) returns (row: ListRow)
    requires key in ItemKeys(db, dir)
    ensures IsRow(db, dir, key, row)
  {
    var files := Group(db, dir, key);
    assert files != {} by {
      var p :| p in Candidates(db, dir) && KeyOf(p, dir) == key;
      assert p in files;
    }
    var size := SumOver(Sizes(db), files);
    var updated := MaxOver(Times(db), files);
    var f := FileOf(db, key);
    row := if f.Some? then ListRow(key, size, Some(f.value.revision), Some(f.value.file.digest), updated)
           else ListRow(key, size, None, None, updated);
  }

  method Totals(db: Db, dir: Path, shown: seq<bytes>) returns (rows: seq<ListRow>)
    requires forall i | 0 <= i < |shown| :: shown[i] in ItemKeys(db, dir)
    ensures RowsOf(db, dir, shown, rows)
  {
    rows := [];
    for i := 0 to |shown|
      invariant |rows| == i
      invariant forall j | 0 <= j < i :: IsRow(db, dir, shown[j], rows[j])
    {
      var row := RowFor(db, dir, shown[i]);
      rows := rows + [row];
    }
  }

  /** One page: rows after the cursor in key order, one fetched too many and popped, next = last key shown. */
  method List(db: Db, dir: Path, after: bytes) returns (page: Option<(seq<ListRow>, Option<bytes>)>)
    ensures page.Some? <==> (dir == [] || ValidPath(dir)) && |after| <= MAX_CURSOR
    ensures page.Some? ==> IsPage(db, dir, Sorted(ItemKeys(db, dir)), after, page.value.0, page.value.1)
  {
    if !(dir == [] || ValidPath(dir)) || |after| > MAX_CURSOR {
      return None;
    }
    var keys := Sorted(ItemKeys(db, dir));
    var shown, next := Fetch(keys, after);
    var rows := Totals(db, dir, shown);
    return Some((rows, next));
  }

  /** The first page of the walk from the cursor, and a cursor from which the rest of that walk goes on. */
  ghost predicate IsPage(
    db: Db, dir: Path, keys: seq<bytes>, after: bytes, rows: seq<ListRow>, next: Option<bytes>)
    requires Ascending(keys)
  {
    var walk := Walk(keys, after, PAGE_SIZE);
    && RowsOf(db, dir, walk[0], rows)
    && (next == None <==> |walk| == 1)
    && (next.Some? ==> |walk[0]| == PAGE_SIZE && next.value in keys && walk[1..] == Walk(keys, next.value, PAGE_SIZE))
  }

  method Fetch(keys: seq<bytes>, after: bytes) returns (shown: seq<bytes>, next: Option<bytes>)
    requires Ascending(keys)
    ensures var walk := Walk(keys, after, PAGE_SIZE);
            && shown == walk[0] && (next == None <==> |walk| == 1)
            && (next.Some? ==>
                  |shown| == PAGE_SIZE && next.value in keys && walk[1..] == Walk(keys, next.value, PAGE_SIZE))
    ensures forall i | 0 <= i < |shown| :: shown[i] in keys
  {
    var k := Start(keys, after, 0);
    shown := if k + PAGE_SIZE + 1 <= |keys| then keys[k..k + PAGE_SIZE + 1] else keys[k..];
    next := None;
    if |shown| > PAGE_SIZE {
      shown := shown[..PAGE_SIZE];
      assert shown == keys[k..k + PAGE_SIZE];
      next := Some(shown[PAGE_SIZE - 1]);
      AfterIndex(keys, k + PAGE_SIZE - 1);
    }
  }

  /** Every cursor that a page can return is short enough for the next request. */
  lemma CursorFits(db: Db, dir: Path, key: bytes)
    requires Good(db) && key in ItemKeys(db, dir)
    ensures |key| <= MAX_CURSOR
  {
    var p :| p in Candidates(db, dir) && KeyOf(p, dir) == key;
    assert ValidPath(p);
  }

  lemma PagesJoin(seen: seq<bytes>, walk: seq<seq<bytes>>, all: seq<bytes>)
    requires |walk| > 0 && seen + Flatten(walk) == all
    ensures seen + walk[0] + Flatten(walk[1..]) == all
    ensures |walk| == 1 ==> seen + walk[0] == all
  {
    FlattenCons(walk[0], walk[1..]);
    assert walk == [walk[0]] + walk[1..];
  }

  /** A page, then everything after its cursor, is everything after the request's cursor. */
  lemma PageThenRest(keys: seq<bytes>, seen: seq<bytes>, after: bytes, next: bytes)
    requires Ascending(keys) && seen + After(keys, after) == keys
    ensures var walk := Walk(keys, after, PAGE_SIZE);
            && (|walk| == 1 ==> seen + walk[0] == keys)
            && (walk[1..] == Walk(keys, next, PAGE_SIZE) ==> seen + walk[0] + After(keys, next) == keys)
  {
    WalkComplete(keys, after, PAGE_SIZE);
    WalkComplete(keys, next, PAGE_SIZE);
    PagesJoin(seen, Walk(keys, after, PAGE_SIZE), keys);
  }

  lemma RowsJoin(db: Db, dir: Path, a: seq<bytes>, r: seq<ListRow>, b: seq<bytes>, t: seq<ListRow>)
    requires RowsOf(db, dir, a, r) && RowsOf(db, dir, b, t)
    ensures RowsOf(db, dir, a + b, r + t)
  {
    forall i | 0 <= i < |r + t|
      ensures IsRow(db, dir, (a + b)[i], (r + t)[i])
    {
      if i < |r| {
        assert (a + b)[i] == a[i] && (r + t)[i] == r[i];
      } else {
        assert (a + b)[i] == b[i - |r|] && (r + t)[i] == t[i - |r|];
      }
    }
  }

  /** The rows seen so far are those of the keys before the cursor. */
  ghost predicate Seen(db: Db, dir: Path, keys: seq<bytes>, seen: seq<bytes>, after: bytes, rows: seq<ListRow>) {
    seen + After(keys, after) == keys && RowsOf(db, dir, seen, rows)
  }

  lemma SeenMore(
    db: Db, dir: Path, keys: seq<bytes>, seen: seq<bytes>, after: bytes, rows: seq<ListRow>,
    more: seq<ListRow>, next: Option<bytes>) returns (seen': seq<bytes>)
    requires Ascending(keys) && Seen(db, dir, keys, seen, after, rows) && IsPage(db, dir, keys, after, more, next)
    ensures next == None ==> RowsOf(db, dir, keys, rows + more)
    ensures next.Some? ==>
              && Seen(db, dir, keys, seen', next.value, rows + more)
              && |rows| < |rows + more| <= |keys| && next.value in keys
  {
    seen' := seen + Walk(keys, after, PAGE_SIZE)[0];
    RowsJoin(db, dir, seen, rows, Walk(keys, after, PAGE_SIZE)[0], more);
    PageThenRest(keys, seen, after, if next.Some? then next.value else []);
  }

  /** Asks for one page; the request is always accepted. */
  method More(db: Db, dir: Path, ghost seen: seq<bytes>, after: bytes, rows: seq<ListRow>)
    returns (all: seq<ListRow>, next: Option<bytes>, ghost seen': seq<bytes>)
    requires Good(db) && (dir == [] || ValidPath(dir)) && |after| <= MAX_CURSOR
    requires Seen(db, dir, Sorted(ItemKeys(db, dir)), seen, after, rows)
    ensures next == None ==> RowsOf(db, dir, Sorted(ItemKeys(db, dir)), all)
    ensures next.Some? ==>
              && |next.value| <= MAX_CURSOR && |rows| < |all| <= |ItemKeys(db, dir)|
              && Seen(db, dir, Sorted(ItemKeys(db, dir)), seen', next.value, all)
  {
    var page := List(db, dir, after);
    next := page.value.1;
    seen' := SeenMore(db, dir, Sorted(ItemKeys(db, dir)), seen, after, rows, page.value.0, next);
    all := rows + page.value.0;
    if next.Some? {
      CursorFits(db, dir, next.value);
    }
  }

  lemma NothingSeen(db: Db, dir: Path)
    ensures Seen(db, dir, Sorted(ItemKeys(db, dir)), [], [], [])
  {
    CursorShowsEverything(db, dir);
  }

  /** A client that follows `next` until there is none gets all rows, once each. */
  method Browse(db: Db, dir: Path) returns (rows: seq<ListRow>)
    requires Good(db) && (dir == [] || ValidPath(dir))
    ensures RowsOf(db, dir, Sorted(ItemKeys(db, dir)), rows)
  {
    ghost var seen: seq<bytes> := [];
    rows := [];
    var next: Option<bytes> := Some([]);
    NothingSeen(db, dir);
    while next.Some?
      invariant next.Some? ==>
                  |next.value| <= MAX_CURSOR && Seen(db, dir, Sorted(ItemKeys(db, dir)), seen, next.value, rows)
      invariant next == None ==> RowsOf(db, dir, Sorted(ItemKeys(db, dir)), rows)
      decreases next.Some?, |ItemKeys(db, dir)| - |rows|
    {
      rows, next, seen := More(db, dir, seen, next.value, rows);
    }
  }

  /** Following the cursor through a fixed store shows every row exactly once, in key order. */
  lemma CursorShowsEverything(db: Db, dir: Path)
    ensures var keys := Sorted(ItemKeys(db, dir));
            Flatten(Walk(keys, [], PAGE_SIZE)) == After(keys, []) == keys && Ascending(keys)
  {
    var keys := Sorted(ItemKeys(db, dir));
    WalkComplete(keys, [], PAGE_SIZE);
    forall k | k in keys
      ensures k != []
    {
      var p :| p in Candidates(db, dir) && KeyOf(p, dir) == k;
      assert |KeyOf(p, dir)| > 0;
    }
    assert keys != [] ==> keys[0] in keys;
    assert Start(keys, [], 0) == 0;
    assert keys[0..] == keys;
  }
}
