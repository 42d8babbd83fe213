/** The folder fingerprint: a hash over length-prefixed paths and revisions. */
module Snapshot {
  import opened Bytes
  import opened Paths
  import opened Tables

  function Pow256(k: nat): nat {
    if k == 0 then 1 else 256 * Pow256(k - 1)
  }

  /** `to_be_bytes` on k bytes. */
  function BigEndian(n: nat, k: nat): (b: bytes)
    ensures |b| == k
  {
    if k == 0 then [] else BigEndian(n / 256, k - 1) + [n % 256]
  }

  lemma {:induction false} BigEndianInjective(n: nat, m: nat, k: nat)
    requires n < Pow256(k) && m < Pow256(k)
    requires BigEndian(n, k) == BigEndian(m, k)
    ensures n == m
  {
    if k > 0 {
      var a, b := BigEndian(n, k), BigEndian(m, k);
      assert a[..k - 1] == BigEndian(n / 256, k - 1) && b[..k - 1] == BigEndian(m / 256, k - 1);
      assert a[k - 1] == n % 256 && b[k - 1] == m % 256;
      BigEndianInjective(n / 256, m / 256, k - 1);
    }
  }

  /** What `fingerprint` feeds the hash for one file. */
  function Record(f: DirectoryFile): (b: bytes)
    ensures |b| == 16 + |f.path|
  {
    BigEndian(|f.path|, 8) + f.path + BigEndian(f.revision, 8)
  }

  function Encode(fs: seq<DirectoryFile>): (b: bytes) {
    if fs == [] then [] else Record(fs[0]) + Encode(fs[1..])
  }

  /** Lengths and revisions are 64-bit. */
  predicate Fits(f: DirectoryFile) {
    |f.path| < Pow256(8) && f.revision < Pow256(8)
  }

  /** A record ends where its own length prefix says, whatever follows. */
  lemma RecordInjective(f: DirectoryFile, g: DirectoryFile, x: bytes, y: bytes)
    requires Fits(f) && Fits(g) && Record(f) + x == Record(g) + y
    ensures f.path == g.path && f.revision == g.revision && x == y
  {
    var a, b := Record(f) + x, Record(g) + y;
    assert a[..8] == BigEndian(|f.path|, 8) && b[..8] == BigEndian(|g.path|, 8);
    BigEndianInjective(|f.path|, |g.path|, 8);
    var n := 8 + |f.path|;
    assert a[8..n] == f.path && b[8..n] == g.path;
    assert a[n..n + 8] == BigEndian(f.revision, 8) && b[n..n + 8] == BigEndian(g.revision, 8);
    BigEndianInjective(f.revision, g.revision, 8);
    assert a[n + 8..] == x && b[n + 8..] == y;
  }

  ghost predicate SameVersions(fs: seq<DirectoryFile>, gs: seq<DirectoryFile>) {
    |fs| == |gs| && forall i | 0 <= i < |fs| :: fs[i].path == gs[i].path && fs[i].revision == gs[i].revision
  }

  /** The encoding of a list of files determines every path and revision in it. */
  lemma {:induction false} EncodeInjective(fs: seq<DirectoryFile>, gs: seq<DirectoryFile>)
    requires forall i | 0 <= i < |fs| :: Fits(fs[i])
    requires forall i | 0 <= i < |gs| :: Fits(gs[i])
    requires Encode(fs) == Encode(gs)
    ensures SameVersions(fs, gs)
  {
    if fs != [] && gs != [] {
      RecordInjective(fs[0], gs[0], Encode(fs[1..]), Encode(gs[1..]));
      EncodeInjective(fs[1..], gs[1..]);
      forall i | 0 <= i < |fs|
        ensures fs[i].path == gs[i].path && fs[i].revision == gs[i].revision
      {
        if i > 0 {
          assert fs[i] == fs[1..][i - 1] && gs[i] == gs[1..][i - 1];
        }
      }
    }
  }

  /** What one iteration feeds to the hash. */
  lemma EncodeFrom(fed: bytes, fs: seq<DirectoryFile>, i: nat)
    requires i < |fs|
    ensures fed + BigEndian(|fs[i].path|, 8) + fs[i].path + BigEndian(fs[i].revision, 8) + Encode(fs[i + 1..])
         == fed + Encode(fs[i..])
  {
  }

  /** The fingerprint loop; `hash.finish` sees exactly the encoding. */
  method Fingerprint(hash: bytes -> Digest, fs: seq<DirectoryFile>) returns (digest: Digest)
    ensures digest == hash(Encode(fs))
  {
    var fed: bytes := [];
    for i := 0 to |fs|
      invariant fed + Encode(fs[i..]) == Encode(fs)
    {
      EncodeFrom(fed, fs, i);
      fed := fed + BigEndian(|fs[i].path|, 8);
      fed := fed + fs[i].path;
      fed := fed + BigEndian(fs[i].revision, 8);
    }
    assert fed == Encode(fs);
    digest := hash(fed);
  }

  predicate Collision(hash: bytes -> Digest, x: bytes, y: bytes) {
    x != y && hash(x) == hash(y)
  }

  ghost predicate FolderUnchanged(a: Db, b: Db, dir: Path) {
    && LiveBelow(a, dir) == LiveBelow(b, dir)
    && forall p | p in LiveBelow(a, dir) :: a.entries[p] == b.entries[p]
  }

  lemma FilesFit(db: Db, dir: Path)
    requires Good(db) && db.generation < Pow256(8)
    ensures forall i | 0 <= i < |Files(db, dir)| :: Fits(Files(db, dir)[i])
  {
    FilesSpec(db, dir);
    assert Pow256(8) > MAX_PATH;
  }

  lemma SameVersionsMember(a: Db, b: Db, dir: Path, p: Path)
    requires SameVersions(Files(a, dir), Files(b, dir)) && p in LiveBelow(a, dir)
    ensures p in LiveBelow(b, dir) && a.entries[p].revision == b.entries[p].revision
  {
    var fs, gs := Files(a, dir), Files(b, dir);
    FilesSpec(a, dir);
    var i :| 0 <= i < |fs| && fs[i].path == p;
    assert fs[i] == FileAt(a, p);
    FilesSpec(b, dir);
    assert gs[i] == FileAt(b, p);
  }

  lemma SameVersionsMembers(a: Db, b: Db, dir: Path)
    requires SameVersions(Files(a, dir), Files(b, dir))
    ensures forall p | p in LiveBelow(a, dir) ::
              p in LiveBelow(b, dir) && a.entries[p].revision == b.entries[p].revision
  {
    forall p | p in LiveBelow(a, dir)
      ensures p in LiveBelow(b, dir) && a.entries[p].revision == b.entries[p].revision
    {
      SameVersionsMember(a, b, dir, p);
    }
  }

  lemma SameEncodingMembers(a: Db, b: Db, dir: Path)
    requires Good(a) && Good(b) && a.generation < Pow256(8) && b.generation < Pow256(8)
    requires Encode(Files(a, dir)) == Encode(Files(b, dir))
    ensures forall p | p in LiveBelow(a, dir) ::
              p in LiveBelow(b, dir) && a.entries[p].revision == b.entries[p].revision
  {
    FilesFit(a, dir);
    FilesFit(b, dir);
    EncodeInjective(Files(a, dir), Files(b, dir));
    SameVersionsMembers(a, b, dir);
  }

  lemma SameMembersSameFolder(a: Db, b: Db, dir: Path)
    requires Good(a) && Later(a, b)
    requires forall p | p in LiveBelow(a, dir) ::
               p in LiveBelow(b, dir) && a.entries[p].revision == b.entries[p].revision
    requires forall p | p in LiveBelow(b, dir) :: p in LiveBelow(a, dir)
    ensures FolderUnchanged(a, b, dir)
  {
  }

  /**
   * A snapshot taken earlier in a run that still matches proves that no file below the folder was
   * added, removed or changed in between, unless two different encodings share a hash.
   */
  lemma SnapshotPinsFolder(hash: bytes -> Digest, a: Db, b: Db, dir: Path)
    requires Good(a) && Good(b) && Later(a, b) && b.generation < Pow256(8)
    requires hash(Encode(Files(a, dir))) == hash(Encode(Files(b, dir)))
    ensures FolderUnchanged(a, b, dir) || Collision(hash, Encode(Files(a, dir)), Encode(Files(b, dir)))
  {
    if Encode(Files(a, dir)) == Encode(Files(b, dir)) {
      SameEncodingMembers(a, b, dir);
      SameEncodingMembers(b, a, dir);
      SameMembersSameFolder(a, b, dir);
    }
  }

  /** Conversely an unchanged folder always matches its snapshot, so the check never refuses spuriously. */
  lemma UnchangedFolderMatches(a: Db, b: Db, dir: Path)
    requires FolderUnchanged(a, b, dir)
    ensures Files(a, dir) == Files(b, dir)
  {
  }
}
