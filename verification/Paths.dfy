/** Paths as byte strings: the folder range over the sorted index, and `valid_path`. */
module Paths {
  import opened Bytes

  type Path = bytes

  const SLASH: byte := 47       // '/'
  const AFTER_SLASH: byte := 48 // '0', the byte after '/'
  const BACKSLASH: byte := 92
  const DOT: byte := 46
  const MAX_PATH := 4096
  const MAX_PART := 255

  /** `q` lies strictly below the folder `p`, at a component boundary. */
  predicate Below(q: Path, p: Path) {
    p + [SLASH] <= q
  }

  /** The byte range that every index scan uses for the folder `p`. */
  predicate InRange(q: Path, p: Path) {
    Le(p + [SLASH], q) && Lt(q, p + [AFTER_SLASH])
  }

  /** The range `[p/, p0)` contains exactly the strings below `p`, for all byte strings. */
  lemma {:induction false} RangeIsBelow(q: Path, p: Path)
    ensures InRange(q, p) <==> Below(q, p)
  {
    var lo, hi := p + [SLASH], p + [AFTER_SLASH];
    if p == [] {
      assert lo == [SLASH] && hi == [AFTER_SLASH];
      if q != [] {
        assert q == [q[0]] + q[1..] && lo[1..] == hi[1..] == [];
        assert Lt(q, hi) <==> q[0] < AFTER_SLASH;
        assert q[1..] == [] ==> q == [q[0]];
        assert Lt(lo[1..], q[1..]) <==> q[1..] != [];
        assert Le(lo, q) <==> SLASH <= q[0];
        assert Below(q, p) <==> q[0] == SLASH;
      }
    } else {
      assert lo[1..] == p[1..] + [SLASH] && hi[1..] == p[1..] + [AFTER_SLASH];
      assert lo == [p[0]] + lo[1..];
      if q != [] && q[0] == p[0] {
        assert q == [q[0]] + q[1..];
        RangeIsBelow(q[1..], p[1..]);
      }
    }
  }

  /** Component-wise ancestors: the prefixes that end just before a slash. */
  predicate AncestorAt(path: Path, index: nat) {
    index < |path| && path[index] == SLASH
  }

  lemma AncestorsAreAbove(path: Path, p: Path)
    ensures Below(path, p) <==> AncestorAt(path, |p|) && path[..|p|] == p
  {
  }

  lemma BelowTransitive(r: Path, q: Path, p: Path)
    requires Below(r, q) && Below(q, p)
    ensures Below(r, p)
  {
  }

  /** Two folders above one path are on one branch. */
  lemma AncestorsOrdered(q: Path, a: Path, b: Path)
    requires Below(q, a) && Below(q, b)
    ensures a == b || Below(a, b) || Below(b, a)
  {
    AncestorsAreAbove(q, a);
    AncestorsAreAbove(q, b);
    if |a| < |b| {
      AncestorsAreAbove(b, a);
      assert b[|a|] == q[|a|];
    } else if |b| < |a| {
      AncestorsAreAbove(a, b);
      assert a[|b|] == q[|b|];
    }
  }

  // ---------------------------------------------------------------- components

  function Split(p: bytes): (parts: seq<bytes>)
    ensures |parts| > 0
  {
    if p == [] then
      [[]]
    else if p[0] == SLASH then
      [[]] + Split(p[1..])
    else
      var rest := Split(p[1..]);
      [[p[0]] + rest[0]] + rest[1..]
  }

  // ".mysync-conflicts" and ".mysync-staging", reserved for the clients.
  const CONFLICTS: bytes := [46, 109, 121, 115, 121, 110, 99, 45, 99, 111, 110, 102, 108, 105, 99, 116, 115]
  const STAGING: bytes := [46, 109, 121, 115, 121, 110, 99, 45, 115, 116, 97, 103, 105, 110, 103]

  predicate ValidPart(part: bytes) {
    part != [] && |part| <= MAX_PART && part != [DOT] && part != [DOT, DOT]
    && part != CONFLICTS && part != STAGING
  }

  predicate ValidPath(p: Path) {
    && p != [] && |p| <= MAX_PATH
    && p[0] != SLASH && BACKSLASH !in p && 0 !in p
    && forall i | 0 <= i < |Split(p)| :: ValidPart(Split(p)[i])
  }

  lemma {:induction false} SplitJoin(a: bytes, b: bytes)
    ensures Split(a + [SLASH] + b) == Split(a) + Split(b)
  {
    var whole := a + [SLASH] + b;
    if a == [] {
      assert whole[1..] == b;
    } else {
      assert whole[1..] == a[1..] + [SLASH] + b;
      SplitJoin(a[1..], b);
    }
  }

  lemma {:induction false} SplitOne(a: bytes)
    requires SLASH !in a
    ensures Split(a) == [a]
  {
    if a != [] {
      SplitOne(a[1..]);
      assert a == [a[0]] + a[1..];
    }
  }

  /** `rsplit_once('/')`: the position just after the last slash, or 0. */
  function BaseStart(p: Path): (k: nat)
    ensures k <= |p|
    ensures forall i | k <= i < |p| :: p[i] != SLASH
    ensures k > 0 ==> p[k - 1] == SLASH
  {
    if p == [] then 0
    else if p[|p| - 1] == SLASH then |p|
    else
      var init := p[..|p| - 1];
      assert forall i | 0 <= i < |init| :: init[i] == p[i];
      BaseStart(init)
  }

  lemma BaseStartUnique(p: Path, k: nat)
    requires k <= |p| && (forall i | k <= i < |p| :: p[i] != SLASH) && (k > 0 ==> p[k - 1] == SLASH)
    ensures BaseStart(p) == k
  {
  }

  /** The path with its last component replaced. */
  function Sibling(p: Path, name: bytes): (t: Path) {
    p[..BaseStart(p)] + name
  }

  /** A sibling's folder and the original folder share no descendants, in either direction. */
  lemma SiblingApart(p: Path, name: bytes)
    requires SLASH !in name && Sibling(p, name) != p
    ensures var t := Sibling(p, name);
            !Below(t, p) && !Below(p, t) && forall q :: !(Below(q, p) && Below(q, t))
  {
    var t, k := Sibling(p, name), BaseStart(p);
    assert forall i | k <= i < |t| :: t[i] == name[i - k] && name[i - k] in name;
    AncestorsAreAbove(t, p);
    AncestorsAreAbove(p, t);
    forall q | Below(q, p) && Below(q, t)
      ensures false
    {
      AncestorsOrdered(q, p, t);
    }
  }

  lemma SiblingBase(p: Path, name: bytes)
    requires SLASH !in name
    ensures BaseStart(Sibling(p, name)) == BaseStart(p)
  {
    var k, t := BaseStart(p), Sibling(p, name);
    assert forall i | k <= i < |t| :: t[i] == name[i - k] && name[i - k] in name;
    BaseStartUnique(t, k);
  }

  lemma SplitAt(p: bytes, k: nat, name: bytes)
    requires k <= |p|
    ensures (p[..k] + name)[..k] + p[k..] == p
  {
  }

  /** Renaming to a sibling can be undone: the old last component leads back. */
  lemma SiblingInverse(p: Path, name: bytes)
    requires SLASH !in name
    ensures Sibling(Sibling(p, name), p[BaseStart(p)..]) == p
  {
    SiblingBase(p, name);
    SplitAt(p, BaseStart(p), name);
  }

  /** The last component of a valid path is itself an acceptable new name. */
  lemma BaseIsValid(p: Path)
    requires ValidPath(p)
    ensures var base := p[BaseStart(p)..]; ValidPath(base) && SLASH !in base && |base| <= MAX_PART
  {
    var k := BaseStart(p);
    var base := p[k..];
    SplitOne(base);
    if k == 0 {
      assert base == p;
      assert Split(p)[0] == base;
    } else {
      assert p == p[..k - 1] + [SLASH] + base;
      SplitJoin(p[..k - 1], base);
      assert Split(p)[|Split(p)| - 1] == base;
    }
  }

  // ---------------------------------------------------------------- valid paths, by their components

  /** Components with slashes between them. */
  function Join(parts: seq<bytes>): bytes
    requires |parts| > 0
  {
    if |parts| == 1 then parts[0] else parts[0] + [SLASH] + Join(parts[1..])
  }

  ghost predicate NoSlashes(parts: seq<bytes>) {
    forall i | 0 <= i < |parts| :: SLASH !in parts[i]
  }

  /** Splitting undoes joining. */
  lemma {:induction false} SplitUndoesJoin(parts: seq<bytes>)
    requires |parts| > 0 && NoSlashes(parts)
    ensures Split(Join(parts)) == parts
  {
    SplitOne(parts[0]);
    if |parts| > 1 {
      SplitUndoesJoin(parts[1..]);
      SplitJoin(parts[0], Join(parts[1..]));
      assert parts == [parts[0]] + parts[1..];
    } else {
      assert parts == [parts[0]];
    }
  }

  /** Joining undoes splitting. */
  lemma {:induction false} JoinUndoesSplit(p: bytes)
    ensures Join(Split(p)) == p && NoSlashes(Split(p))
  {
    if p != [] {
      JoinUndoesSplit(p[1..]);
      var rest := Split(p[1..]);
      if p[0] == SLASH {
        assert Split(p)[1..] == rest;
        assert p == [] + [SLASH] + p[1..];
      } else {
        JoinLonger(p[0], rest);
        assert p == [p[0]] + p[1..];
      }
    }
  }

  lemma JoinLonger(c: byte, rest: seq<bytes>)
    requires |rest| > 0
    ensures Join([[c] + rest[0]] + rest[1..]) == [c] + Join(rest)
  {
    var head := [c] + rest[0];
    var parts := [head] + rest[1..];
    assert parts[0] == head && parts[1..] == rest[1..];
    if |rest| > 1 {
      JoinTail(c, rest[0], Join(rest[1..]));
    }
  }

  lemma JoinTail(c: byte, a: bytes, tail: bytes)
    ensures [c] + a + [SLASH] + tail == [c] + (a + [SLASH] + tail)
  {
  }

  function Ascii(s: string): (b: bytes)
    requires forall i | 0 <= i < |s| :: s[i] as int < 128
    ensures |b| == |s|
  {
    seq(|s|, i requires 0 <= i < |s| => s[i] as int)
  }

  /** A name that a component may have. */
  ghost predicate Usable(part: bytes) {
    && 1 <= |part| <= 255 && SLASH !in part && BACKSLASH !in part && 0 !in part
    && part != Ascii(".") && part != Ascii("..")
    && part != Ascii(".mysync-conflicts") && part != Ascii(".mysync-staging")
  }

  lemma {:induction false} JoinHas(parts: seq<bytes>, c: byte)
    requires |parts| > 0 && c != SLASH
    ensures c in Join(parts) <==> exists i :: 0 <= i < |parts| && c in parts[i]
  {
    if |parts| > 1 {
      JoinHas(parts[1..], c);
      if i :| 0 <= i < |parts| && c in parts[i] {
        assert i > 0 ==> parts[1..][i - 1] == parts[i];
      }
      if c in Join(parts[1..]) {
        var i :| 0 <= i < |parts[1..]| && c in parts[1..][i];
        assert c in parts[i + 1];
      }
    }
  }

  lemma ReservedNames()
    ensures Ascii(".") == [DOT] && Ascii("..") == [DOT, DOT]
    ensures Ascii(".mysync-conflicts") == CONFLICTS && Ascii(".mysync-staging") == STAGING
  {
  }

  /** The valid paths are exactly the joins, within the length limit, of usable component names. */
  lemma ValidPathExactly(parts: seq<bytes>)
    requires |parts| > 0 && NoSlashes(parts)
    ensures ValidPath(Join(parts)) <==>
              |Join(parts)| <= 4096 && forall i | 0 <= i < |parts| :: Usable(parts[i])
  {
    SplitUndoesJoin(parts);
    ReservedNames();
    JoinHas(parts, BACKSLASH);
    JoinHas(parts, 0);
    FirstByte(parts);
    if ValidPath(Join(parts)) {
      forall i | 0 <= i < |parts|
        ensures Usable(parts[i])
      {
        assert ValidPart(Split(Join(parts))[i]);
      }
    }
  }

  lemma FirstByte(parts: seq<bytes>)
    requires |parts| > 0 && NoSlashes(parts)
    ensures parts[0] != [] ==> Join(parts) != [] && Join(parts)[0] == parts[0][0] && parts[0][0] != SLASH
  {
    assert parts[0] != [] ==> parts[0][0] in parts[0];
  }
}
