/** Byte strings under SQLite's BINARY collation, and sorted key lists with cursors. */
module Bytes {
  type byte = x: int | 0 <= x < 256
  type bytes = seq<byte>

  datatype Option<+T> = None | Some(value: T)

  /** `memcmp` order: a proper prefix comes first. */
  predicate Lt(a: bytes, b: bytes) {
    b != [] && (a == [] || a[0] < b[0] || (a[0] == b[0] && Lt(a[1..], b[1..])))
  }

  predicate Le(a: bytes, b: bytes) {
    a == b || Lt(a, b)
  }

  lemma {:induction false} LtIrreflexive(a: bytes)
    ensures !Lt(a, a)
  {
    if a != [] {
      LtIrreflexive(a[1..]);
    }
  }

  lemma {:induction false} LtTransitive(a: bytes, b: bytes, c: bytes)
    requires Lt(a, b) && Lt(b, c)
    ensures Lt(a, c)
  {
    if a != [] && a[0] == b[0] && b[0] == c[0] {
      LtTransitive(a[1..], b[1..], c[1..]);
    }
  }

  lemma LtAsymmetric(a: bytes, b: bytes)
    requires Lt(a, b)
    ensures !Lt(b, a) && a != b
  {
  }

  lemma {:induction false} LtTotal(a: bytes, b: bytes)
    ensures Lt(a, b) || a == b || Lt(b, a)
  {
    if a != [] && b != [] && a[0] == b[0] {
      LtTotal(a[1..], b[1..]);
      assert a == [a[0]] + a[1..] && b == [b[0]] + b[1..];
    }
  }

  // ---------------------------------------------------------------- sorted key lists

  predicate Ascending(s: seq<bytes>) {
    forall i, j | 0 <= i < j < |s| :: Lt(s[i], s[j])
  }

  lemma {:induction false} LeastExists(keys: set<bytes>)
    requires keys != {}
    ensures exists m :: m in keys && forall k | k in keys :: Le(m, k)
  {
    var x :| x in keys;
    var rest := keys - {x};
    if rest == {} {
      assert keys == {x};
    } else {
      LeastExists(rest);
      var m :| m in rest && forall k | k in rest :: Le(m, k);
      LtTotal(x, m);
      var least := if Lt(x, m) then x else m;
      forall k | k in keys
        ensures Le(least, k)
      {
        if k != x && Lt(x, m) && m != k {
          assert k in rest;
          LtTransitive(x, m, k);
        }
      }
    }
  }

  function Least(keys: set<bytes>): (m: bytes)
    requires keys != {}
    ensures m in keys
    ensures forall k | k in keys :: Le(m, k)
  {
    LeastExists(keys);
    assert forall a, b | Lt(a, b) :: !Lt(b, a) by {
      forall a, b | Lt(a, b)
        ensures !Lt(b, a)
      {
        LtAsymmetric(a, b);
      }
    }
    var m :| m in keys && forall k | k in keys :: Le(m, k);
    m
  }

  /** `ORDER BY` over a set of distinct keys. */
  function Sorted(keys: set<bytes>): (s: seq<bytes>)
    ensures Ascending(s)
    ensures forall k :: k in s <==> k in keys
    ensures |s| == |keys|
  {
    if keys == {} then
      []
    else
      var m := Least(keys);
      var rest := Sorted(keys - {m});
      assert forall i | 0 <= i < |rest| :: rest[i] in rest && rest[i] in keys && rest[i] != m && Le(m, rest[i]);
      [m] + rest
  }

  lemma EmptyOrInhabited(s: seq<bytes>)
    ensures s == [] || exists k :: k in s
  {
    if s != [] {
      assert s[0] in s;
    }
  }

  /** An ascending list is determined by its elements. */
  lemma {:induction false} AscendingUnique(s: seq<bytes>, t: seq<bytes>)
    requires Ascending(s) && Ascending(t)
    requires forall k :: k in s <==> k in t
    ensures s == t
  {
    EmptyOrInhabited(t);
    if s != [] {
      assert s[0] in t && t != [] && t[0] in s;
      if s[0] != t[0] {
        var i :| 0 <= i < |t| && t[i] == s[0];
        var j :| 0 <= j < |s| && s[j] == t[0];
        LtAsymmetric(t[0], t[i]);
      }
      forall k
        ensures k in s[1..] <==> k in t[1..]
      {
        LtIrreflexive(s[0]);
        if k in s[1..] {
          assert k in t;
        }
        if k in t[1..] {
          assert k in s;
        }
      }
      AscendingUnique(s[1..], t[1..]);
      assert s == [s[0]] + s[1..] && t == [t[0]] + t[1..];
    }
  }

  /** `ORDER BY` leaves no choice: there is one ordered list of a set of keys. */
  lemma SortedUnique(s: seq<bytes>, keys: set<bytes>)
    requires Ascending(s) && forall k :: k in s <==> k in keys
    ensures s == Sorted(keys)
  {
    AscendingUnique(s, Sorted(keys));
  }

  /** Index of the first key from `i` on that lies after the cursor. */
  function Start(s: seq<bytes>, cursor: bytes, i: nat): (k: nat)
    requires i <= |s|
    ensures i <= k <= |s|
    ensures forall j | i <= j < k :: !Lt(cursor, s[j])
    ensures k < |s| ==> Lt(cursor, s[k])
    decreases |s| - i
  {
    if i < |s| && !Lt(cursor, s[i]) then Start(s, cursor, i + 1) else i
  }

  /** `WHERE key > cursor` over an ordered list. */
  function After(s: seq<bytes>, cursor: bytes): (r: seq<bytes>) {
    s[Start(s, cursor, 0)..]
  }

  lemma AfterSelects(s: seq<bytes>, cursor: bytes)
    requires Ascending(s)
    ensures Ascending(After(s, cursor))
    ensures forall k :: k in After(s, cursor) <==> k in s && Lt(cursor, k)
  {
    var first := Start(s, cursor, 0);
    forall j | first < j < |s|
      ensures Lt(cursor, s[j])
    {
      LtTransitive(cursor, s[first], s[j]);
    }
  }

  /** Resuming after the i-th key of an ordered list drops exactly the first i + 1 keys. */
  lemma AfterIndex(s: seq<bytes>, i: nat)
    requires Ascending(s) && i < |s|
    ensures Start(s, s[i], 0) == i + 1
  {
    var k := Start(s, s[i], 0);
    assert i + 1 < |s| ==> Lt(s[i], s[i + 1]);
    if k <= i {
      if k < i {
        LtAsymmetric(s[k], s[i]);
      } else {
        LtIrreflexive(s[i]);
      }
    }
  }

  /** Follows a cursor through a fixed list until a page is the last one. */
  function Walk(s: seq<bytes>, cursor: bytes, limit: nat): (pages: seq<seq<bytes>>)
    requires limit > 0 && Ascending(s)
    decreases |s| - Start(s, cursor, 0)
  {
    var k := Start(s, cursor, 0);
    if k + limit < |s| then
      AfterIndex(s, k + limit - 1);
      [s[k..k + limit]] + Walk(s, s[k + limit - 1], limit)
    else
      [s[k..]]
  }

  function Flatten<T>(pages: seq<seq<T>>): (r: seq<T>) {
    if pages == [] then [] else pages[0] + Flatten(pages[1..])
  }

  lemma {:induction false} FlattenAppend<T>(a: seq<seq<T>>, b: seq<seq<T>>)
    ensures Flatten(a + b) == Flatten(a) + Flatten(b)
  {
    if a == [] {
      assert a + b == b;
    } else {
      assert (a + b)[1..] == a[1..] + b;
      FlattenAppend(a[1..], b);
    }
  }

  lemma FlattenCons<T>(head: seq<T>, tail: seq<seq<T>>)
    ensures Flatten([head] + tail) == head + Flatten(tail)
  {
  }

  lemma WalkStep(s: seq<bytes>, cursor: bytes, limit: nat, k: nat)
    requires limit > 0 && Ascending(s) && k == Start(s, cursor, 0) && k + limit < |s|
    ensures Walk(s, cursor, limit) == [s[k..k + limit]] + Walk(s, s[k + limit - 1], limit)
  {
  }

  lemma SliceJoin<T>(s: seq<T>, i: nat, j: nat)
    requires i <= j <= |s|
    ensures s[i..j] + s[j..] == s[i..]
  {
  }

  lemma AfterKey(s: seq<bytes>, i: nat)
    requires Ascending(s) && i < |s|
    ensures After(s, s[i]) == s[i + 1..]
  {
    AfterIndex(s, i);
  }

  lemma PageJoins(s: seq<bytes>, i: nat, j: nat, rest: seq<seq<bytes>>)
    requires i <= j <= |s| && Flatten(rest) == s[j..]
    ensures Flatten([s[i..j]] + rest) == s[i..]
  {
    FlattenCons(s[i..j], rest);
    SliceJoin(s, i, j);
  }

  lemma OnePage(page: seq<bytes>)
    ensures Flatten([page]) == page
  {
    FlattenCons(page, []);
    assert [page] + [] == [page];
  }

  /** Walking a fixed list yields every remaining key once, in order. */
  lemma {:induction false} WalkComplete(s: seq<bytes>, cursor: bytes, limit: nat)
    requires limit > 0 && Ascending(s)
    ensures Flatten(Walk(s, cursor, limit)) == After(s, cursor)
    decreases |s| - Start(s, cursor, 0)
  {
    var k := Start(s, cursor, 0);
    if k + limit < |s| {
      AfterIndex(s, k + limit - 1);
      WalkComplete(s, s[k + limit - 1], limit);
      WalkFrom(s, cursor, limit, k);
    } else {
      OnePage(s[k..]);
    }
  }

  lemma WalkFrom(s: seq<bytes>, cursor: bytes, limit: nat, k: nat)
    requires limit > 0 && Ascending(s) && k == Start(s, cursor, 0) && k + limit < |s|
    requires Flatten(Walk(s, s[k + limit - 1], limit)) == After(s, s[k + limit - 1])
    ensures Flatten(Walk(s, cursor, limit)) == After(s, cursor)
  {
    WalkStep(s, cursor, limit, k);
    AfterKey(s, k + limit - 1);
    PageJoins(s, k, k + limit, Walk(s, s[k + limit - 1], limit));
  }
}
