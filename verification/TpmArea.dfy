/** The parser for the one supported TPM signing template (TPMT_PUBLIC, TPM 2.0 Library Part 2, section 12.2.4). */
module TpmArea {
  import opened Bytes

  const MAX_ENCODED := 4096
  const MAX_COORDINATE := 32

  function Word16(n: nat): bytes
    requires n < 65536
  {
    [n / 256, n % 256]
  }

  /** TPM2B: a 16-bit length and the bytes. */
  function Sized(b: bytes): bytes
    requires |b| < 65536
  {
    Word16(|b|) + b
  }

  // ECC, SHA-256 name, attributes 0x00050072, empty policy, null symmetric,
  // ECDSA with SHA-256, P-256, null key derivation.
  const TYPE: bytes := [0x00, 0x23]
  const NAME_ALG: bytes := [0x00, 0x0b]
  const ATTRIBUTES: bytes := [0x00, 0x05, 0x00, 0x72]
  const POLICY: bytes := [0x00, 0x00]
  const PARAMETERS: bytes := [0x00, 0x10, 0x00, 0x18, 0x00, 0x0b, 0x00, 0x03, 0x00, 0x10]

  const HEADER: bytes := TYPE + NAME_ALG + ATTRIBUTES + POLICY + PARAMETERS

  predicate Coordinate(b: bytes) {
    1 <= |b| <= MAX_COORDINATE
  }

  /** The canonical encoding of a public area. */
  function Print(x: bytes, y: bytes): bytes
    requires Coordinate(x) && Coordinate(y)
  {
    HEADER + Sized(x) + Sized(y)
  }

  ghost predicate Canonical(b: bytes) {
    exists x, y :: Coordinate(x) && Coordinate(y) && b == Print(x, y)
  }

  // ---------------------------------------------------------------- the cursor

  class Cursor {
    var input: bytes

    constructor (input: bytes)
      ensures this.input == input
    {
      this.input := input;
    }

    method Take(n: nat) returns (r: Option<bytes>)
      modifies this
      ensures r == if n <= |old(input)| then Some(old(input)[..n]) else None
      ensures input == if n <= |old(input)| then old(input)[n..] else old(input)
    {
      if n > |input| {
        return None;
      }
      r := Some(input[..n]);
      input := input[n..];
    }

    method Word() returns (r: Option<nat>)
      modifies this
      ensures r == if 2 <= |old(input)| then Some(old(input)[0] as int * 256 + old(input)[1]) else None
      ensures input == if 2 <= |old(input)| then old(input)[2..] else old(input)
    {
      var taken := Take(2);
      if taken == None {
        return None;
      }
      r := Some(taken.value[0] as int * 256 + taken.value[1]);
    }

    /** Reads one 16-bit constant. */
    method Expect(n: nat) returns (ok: bool)
      requires n < 65536
      modifies this
      ensures ok <==> Word16(n) <= old(input)
      ensures ok ==> input == old(input)[2..]
    {
      var word := Word();
      ok := word == Some(n);
      if |old(input)| >= 2 {
        assert old(input)[..2] == [old(input)[0], old(input)[1]];
      }
    }

    method Buffer(max: nat) returns (r: Option<bytes>)
      requires max < 65536
      modifies this
      ensures r.Some? ==> |r.value| <= max && old(input) == Sized(r.value) + input
      ensures r == None ==> forall b | |b| <= max :: !(Sized(b) <= old(input))
    {
      var len := Word();
      if len == None || len.value > max {
        return None;
      }
      r := Take(len.value);
      assert old(input)[..2] == Word16(len.value);
      if r.Some? {
        assert old(input) == old(input)[..2] + r.value + input;
      }
    }
  }

  // ---------------------------------------------------------------- the parser

  lemma PrefixStep(a: bytes, c: bytes, rest: bytes, input: bytes)
    requires a + rest == input
    ensures a + c <= input <==> c <= rest
    ensures c <= rest ==> a + c + rest[|c|..] == input
  {
    if c <= rest {
      assert rest == c + rest[|c|..];
    }
    if a + c <= input {
      assert input[|a|..|a| + |c|] == c;
      assert input[|a|..] == rest;
    }
  }

  lemma Shorter(a: bytes, all: bytes, k: nat)
    requires k <= |a|
    ensures a <= all ==> a[..k] <= all
  {
  }

  /** The fixed fields, one after another. */
  method Header(cursor: Cursor) returns (ok: bool)
    modifies cursor
    ensures ok <==> HEADER <= old(cursor.input)
    ensures ok ==> cursor.input == old(cursor.input)[|HEADER|..]
  {
    ghost var all := cursor.input;
    ghost var done: bytes := [];
    var words := [0x23, 0x0b, 0x0005, 0x0072, 0x0000, 0x10, 0x18, 0x0b, 0x03, 0x10];
    var i := 0;
    while i < |words|
      invariant 0 <= i <= |words| && |done| == 2 * i
      invariant done == HEADER[..2 * i] && done + cursor.input == all
    {
      ghost var rest := cursor.input;
      ok := cursor.Expect(words[i]);
      assert HEADER[..2 * i] + Word16(words[i]) == HEADER[..2 * i + 2];
      PrefixStep(done, Word16(words[i]), rest, all);
      Shorter(HEADER, all, 2 * i + 2);
      if !ok {
        return;
      }
      done := done + Word16(words[i]);
      i := i + 1;
    }
    assert done == HEADER;
    ok := true;
  }

  /** Parses exactly the canonical encodings: undoes printing, and what it accepts is what printing gives. */
  method SigningArea(b: bytes) returns (r: Option<(bytes, bytes)>)
    ensures r.Some? ==> Coordinate(r.value.0) && Coordinate(r.value.1) && b == Print(r.value.0, r.value.1)
    ensures r == None ==> !Canonical(b)
  {
    var cursor := new Cursor(b);
    var ok := Header(cursor);
    if !ok {
      NeedsHeader(b);
      return None;
    }
    r := Coordinates(cursor, b);
  }

  /** What follows the fixed fields: two sized coordinates and nothing else. */
  ghost predicate Pair(rest: bytes) {
    exists x, y :: Coordinate(x) && Coordinate(y) && rest == Sized(x) + Sized(y)
  }

  method Coordinates(cursor: Cursor, ghost b: bytes) returns (r: Option<(bytes, bytes)>)
    requires b == HEADER + cursor.input
    modifies cursor
    ensures r.Some? ==> Coordinate(r.value.0) && Coordinate(r.value.1) && b == Print(r.value.0, r.value.1)
    ensures r == None ==> !Canonical(b)
  {
    CanonicalIsPair(b, cursor.input);
    ghost var rest := cursor.input;
    r := TakePair(cursor);
    if r.Some? {
      PrintJoins(b, rest, r.value.0, r.value.1);
    }
  }

  method TakePair(cursor: Cursor) returns (r: Option<(bytes, bytes)>)
    modifies cursor
    ensures r.Some? ==>
              && Coordinate(r.value.0) && Coordinate(r.value.1)
              && old(cursor.input) == Sized(r.value.0) + Sized(r.value.1)
    ensures r == None ==> !Pair(old(cursor.input))
  {
    var x := cursor.Buffer(MAX_COORDINATE);
    if x == None {
      return None;
    }
    ghost var after := cursor.input;
    var y := cursor.Buffer(MAX_COORDINATE);
    if y == None {
      NoSecond(old(cursor.input), x.value, after);
      return None;
    }
    if x.value == [] || y.value == [] || cursor.input != [] {
      NotExactly(old(cursor.input), x.value, y.value, cursor.input);
      return None;
    }
    assert Sized(y.value) + [] == Sized(y.value);
    r := Some((x.value, y.value));
  }

  lemma PrintJoins(b: bytes, rest: bytes, x: bytes, y: bytes)
    requires b == HEADER + rest && Coordinate(x) && Coordinate(y) && rest == Sized(x) + Sized(y)
    ensures b == Print(x, y)
  {
  }

  lemma CanonicalIsPair(b: bytes, rest: bytes)
    requires b == HEADER + rest
    ensures Canonical(b) ==> Pair(rest)
  {
    if x, y :| Coordinate(x) && Coordinate(y) && b == Print(x, y) {
      CanonicalRest(b, rest, x, y);
    }
  }

  lemma NeedsHeader(b: bytes)
    requires !(HEADER <= b)
    ensures !Canonical(b)
  {
  }

  /** A length prefix fixes what follows it. */
  lemma SizedInjective(a: bytes, b: bytes, x: bytes, y: bytes)
    requires |a| < 65536 && |b| < 65536 && Sized(a) + x == Sized(b) + y
    ensures a == b && x == y
  {
    var u, v := Sized(a) + x, Sized(b) + y;
    assert u[0] == |a| / 256 && u[1] == |a| % 256 && v[0] == |b| / 256 && v[1] == |b| % 256;
    assert |a| == |b|;
    assert u[2..2 + |a|] == a && v[2..2 + |a|] == b;
    assert u[2 + |a|..] == x && v[2 + |a|..] == y;
  }

  lemma CanonicalRest(b: bytes, rest: bytes, x: bytes, y: bytes)
    requires b == HEADER + rest && Coordinate(x) && Coordinate(y) && b == Print(x, y)
    ensures rest == Sized(x) + Sized(y) && Sized(x) <= rest
  {
    assert b[|HEADER|..] == rest && Print(x, y)[|HEADER|..] == Sized(x) + Sized(y);
  }

  lemma NoSecond(rest: bytes, x: bytes, after: bytes)
    requires |x| <= MAX_COORDINATE && rest == Sized(x) + after
    requires forall y | |y| <= MAX_COORDINATE :: !(Sized(y) <= after)
    ensures !Pair(rest)
  {
    forall p, q | Coordinate(p) && Coordinate(q) && rest == Sized(p) + Sized(q)
      ensures false
    {
      SizedInjective(p, x, Sized(q), after);
    }
  }

  lemma NotExactly(rest: bytes, x: bytes, y: bytes, left: bytes)
    requires |x| <= MAX_COORDINATE && |y| <= MAX_COORDINATE
    requires rest == Sized(x) + (Sized(y) + left) && (x == [] || y == [] || left != [])
    ensures !Pair(rest)
  {
    forall p, q | Coordinate(p) && Coordinate(q) && rest == Sized(p) + Sized(q)
      ensures false
    {
      SizedInjective(p, x, Sized(q), Sized(y) + left);
      assert Sized(q) + [] == Sized(q);
      SizedInjective(q, y, [], left);
    }
  }

  // ---------------------------------------------------------------- the encoding

  /** Different keys print differently. */
  lemma PrintInjective(x: bytes, y: bytes, p: bytes, q: bytes)
    requires Coordinate(x) && Coordinate(y) && Coordinate(p) && Coordinate(q) && Print(x, y) == Print(p, q)
    ensures x == p && y == q
  {
    CanonicalRest(Print(x, y), Sized(x) + Sized(y), x, y);
    assert Print(x, y) == HEADER + (Sized(x) + Sized(y));
    CanonicalRest(Print(x, y), Sized(x) + Sized(y), p, q);
    SizedInjective(x, p, Sized(y), Sized(q));
    assert Sized(y) + [] == Sized(q) + [];
    SizedInjective(y, q, [], []);
  }

  /** No truncation and no extension of an accepted area is accepted. */
  lemma CanonicalPrefixFree(b: bytes, tail: bytes)
    requires Canonical(b) && Canonical(b + tail)
    ensures tail == []
  {
    var x, y :| Coordinate(x) && Coordinate(y) && b == Print(x, y);
    var p, q :| Coordinate(p) && Coordinate(q) && b + tail == Print(p, q);
    var rest := Sized(x) + Sized(y) + tail;
    assert b + tail == HEADER + rest;
    CanonicalRest(b + tail, rest, p, q);
    assert rest == Sized(x) + (Sized(y) + tail);
    SizedInjective(x, p, Sized(y) + tail, Sized(q));
    assert Sized(q) + [] == Sized(q);
    SizedInjective(y, q, tail, []);
  }

  // ---------------------------------------------------------------- hexadecimal

  function Digit(c: byte): (d: Option<nat>)
    ensures d.Some? ==> d.value < 16
  {
    if 48 <= c <= 57 then Some(c - 48)
    else if 97 <= c <= 102 then Some(c - 87)
    else if 65 <= c <= 70 then Some(c - 55)
    else None
  }

  function Unhex(s: bytes): Option<bytes> {
    if s == [] then Some([])
    else if |s| == 1 || Digit(s[0]) == None || Digit(s[1]) == None then None
    else
      var rest := Unhex(s[2..]);
      if rest == None then None else Some([Digit(s[0]).value * 16 + Digit(s[1]).value] + rest.value)
  }

  /** The text form, as clients send it. */
  method ParseEncoded(encoded: bytes) returns (r: Option<(bytes, bytes)>)
    ensures r.Some? ==>
              && Coordinate(r.value.0) && Coordinate(r.value.1)
              && Unhex(encoded) == Some(Print(r.value.0, r.value.1))
    ensures r == None <==> !(Unhex(encoded).Some? && Canonical(Unhex(encoded).value))
  {
    if |encoded| > MAX_ENCODED {
      TooLong(encoded);
      return None;
    }
    var decoded := Unhex(encoded);
    if decoded == None {
      return None;
    }
    r := SigningArea(decoded.value);
  }

  lemma {:induction false} UnhexLength(s: bytes)
    ensures Unhex(s).Some? ==> |s| == 2 * |Unhex(s).value|
  {
    if |s| >= 2 {
      UnhexLength(s[2..]);
    }
  }

  lemma TooLong(s: bytes)
    requires |s| > MAX_ENCODED
    ensures !(Unhex(s).Some? && Canonical(Unhex(s).value))
  {
    UnhexLength(s);
  }

  // ---------------------------------------------------------------- printing in lower case

  function Nibble(n: nat): byte
    requires n < 16
  {
    if n < 10 then 48 + n else 87 + n
  }

  function Hex(b: bytes): (s: bytes)
    ensures |s| == 2 * |b|
  {
    if b == [] then [] else [Nibble(b[0] / 16), Nibble(b[0] % 16)] + Hex(b[1..])
  }

  predicate UpperCase(c: byte) {
    65 <= c <= 90
  }

  lemma {:induction false} UnhexHex(b: bytes)
    ensures Unhex(Hex(b)) == Some(b) && forall i | 0 <= i < |Hex(b)| :: !UpperCase(Hex(b)[i])
  {
    if b != [] {
      UnhexHex(b[1..]);
      var s := Hex(b);
      assert s[2..] == Hex(b[1..]);
      assert forall i | 2 <= i < |s| :: s[i] == s[2..][i - 2];
      assert b == [b[0]] + b[1..];
    }
  }

  /** A text without capitals that decodes is the one that its bytes print to. */
  lemma {:induction false} HexUnhex(s: bytes)
    requires Unhex(s).Some? && forall i | 0 <= i < |s| :: !UpperCase(s[i])
    ensures Hex(Unhex(s).value) == s
  {
    if s != [] {
      assert !UpperCase(s[0]) && !UpperCase(s[1]);
      assert forall i | 0 <= i < |s[2..]| :: s[2..][i] == s[i + 2];
      HexUnhex(s[2..]);
      assert s == [s[0], s[1]] + s[2..];
      assert Unhex(s).value[1..] == Unhex(s[2..]).value;
    }
  }

  /** A text decodes exactly if its length is even and all of it are digits. */
  lemma {:induction false} UnhexExactly(s: bytes)
    ensures Unhex(s).Some? <==> |s| % 2 == 0 && forall i | 0 <= i < |s| :: Digit(s[i]).Some?
  {
    if |s| >= 2 {
      UnhexExactly(s[2..]);
      assert forall i | 2 <= i < |s| :: s[i] == s[2..][i - 2];
      assert forall i | 0 <= i < |s[2..]| :: s[2..][i] == s[i + 2];
    }
  }
}
