/**
 * One upload whose chunk requests may be cancelled while a file operation is still on its way: the
 * guard is released with the request, and the operation lands whenever the file system gets to it.
 */
module LateWrites {
  import opened Bytes
  import Storage

  type Hash = Storage.Hash

  /** An operation that a cancelled request left behind. */
  datatype Late = Write(pos: nat, data: bytes) | Cut(len: nat)

  datatype State = State(
    content: bytes,
    size: nat,
    digest: bytes,
    received: nat,
    writer: Option<bytes>,  // the bytes written so far by the request that holds the guard
    late: multiset<Late>,
    acked: bytes,           // history: the acknowledged chunks
    published: Option<bytes>) // history: what the file held when it was found complete

  datatype Event =
    | Begin
    | BeginCancelled
    | Data(piece: bytes)
    | Ack
    | Abort
    | AbortCancelled
    | Cancel(piece: bytes)
    | Finish
    | Land(op: Late)

  /** A write at a position of a file; a gap before it reads as zeros. */
  function Overwrite(content: bytes, pos: nat, data: bytes): (r: bytes)
    ensures |r| == if pos + |data| < |content| then |content| else pos + |data|
  {
    var n := if pos + |data| < |content| then |content| else pos + |data|;
    seq(n, i requires 0 <= i < n =>
      if pos <= i < pos + |data| then data[i - pos] else if i < |content| then content[i] else 0)
  }

  function Landed(content: bytes, op: Late): bytes {
    match op
    case Write(pos, data) => Overwrite(content, pos, data)
    case Cut(len) => Storage.SetLen(content, len)
  }

  function Written(s: State): bytes {
    if s.writer.Some? then s.writer.value else []
  }

  /** Acknowledged bytes, and those whose acknowledgement is under way. */
  function Settled(s: State): bytes {
    s.acked + Written(s)
  }

  /** Where the guard's holder writes next. */
  function Position(s: State): nat {
    s.received + |Written(s)|
  }

  predicate Enabled(h: Hash, s: State, e: Event) {
    match e
    case Begin => s.writer.None? && s.published.None? && s.received < s.size
    case BeginCancelled => s.writer.None? && s.published.None? && s.received < s.size
    case Data(piece) => s.writer.Some? && Position(s) + |piece| <= s.size
    case Ack => s.writer.Some? && s.writer.value != []
    case Abort => s.writer.Some?
    case AbortCancelled => s.writer.Some?
    case Cancel(piece) => s.writer.Some? && Position(s) + |piece| <= s.size
    case Finish =>
      && s.writer.None? && s.published.None? && s.received == s.size
      && |s.content| == s.size && h(s.content) == s.digest
    case Land(op) => op in s.late
  }

  /** Publishing renames the file: what is still on its way lands on the blob. */
  function Next(h: Hash, s: State, e: Event): State
    requires Enabled(h, s, e)
  {
    match e
    case Begin => s.(content := Storage.SetLen(s.content, s.received), writer := Some([]))
    case BeginCancelled => s.(late := s.late + multiset{Cut(s.received)})
    case Data(piece) =>
      s.(content := Overwrite(s.content, Position(s), piece), writer := Some(s.writer.value + piece))
    case Ack =>
      s.(received := s.received + |s.writer.value|, acked := s.acked + s.writer.value, writer := None)
    case Abort => s.(content := Storage.SetLen(s.content, s.received), writer := None)
    case AbortCancelled => s.(late := s.late + multiset{Cut(s.received)}, writer := None)
    case Cancel(piece) => s.(late := s.late + multiset{Write(Position(s), piece)}, writer := None)
    case Finish => s.(published := Some(s.content))
    case Land(op) => s.(content := Landed(s.content, op), late := s.late - multiset{op})
  }

  ghost predicate Init(s: State) {
    s == State([], s.size, s.digest, 0, None, multiset{}, [], None)
  }

  ghost predicate StepAt(h: Hash, ss: seq<State>, es: seq<Event>, i: nat)
    requires |ss| == |es| + 1
  {
    i < |es| ==> Enabled(h, ss[i], es[i]) && ss[i + 1] == Next(h, ss[i], es[i])
  }

  ghost predicate Run(h: Hash, ss: seq<State>, es: seq<Event>) {
    && |ss| == |es| + 1 && Init(ss[0])
    && forall i: nat {:trigger StepAt(h, ss, es, i)} :: StepAt(h, ss, es, i)
  }

  /** `a <= b`, read byte by byte. */
  predicate IsHead(a: bytes, b: bytes) {
    |a| <= |b| && forall i | 0 <= i < |a| :: a[i] == b[i]
  }

  lemma HeadIsPrefix(a: bytes, b: bytes)
    ensures IsHead(a, b) <==> a <= b
  {
  }

  /** The file starts with what is settled. */
  predicate Holds(s: State) {
    IsHead(Settled(s), s.content)
  }

  predicate Counted(s: State) {
    s.received == |s.acked| && |Settled(s)| <= s.size && (s.writer.Some? ==> s.received < s.size)
  }

  /** A landing operation leaves the settled bytes as they are: it repeats them, or stays behind them. */
  predicate Harmless(s: State, op: Late) {
    match op
    case Write(pos, data) =>
      forall i | 0 <= i < |data| && pos + i < |Settled(s)| :: data[i] == Settled(s)[pos + i]
    case Cut(len) => |Settled(s)| <= len
  }

  // ---------------------------------------------------------------- one step

  lemma CountedStep(h: Hash, s: State, e: Event)
    requires Counted(s) && Enabled(h, s, e)
    ensures Counted(Next(h, s, e))
  {
  }

  lemma SettledAfter(h: Hash, s: State, e: Event)
    requires Enabled(h, s, e)
    ensures Settled(Next(h, s, e)) == match e
              case Data(piece) => Settled(s) + piece
              case Ack => Settled(s)
              case Land(_) => Settled(s)
              case _ => s.acked
  {
    if e.Data? {
      assert s.acked + (s.writer.value + e.piece) == s.acked + s.writer.value + e.piece;
    }
  }

  lemma OverwriteExtends(content: bytes, a: bytes, data: bytes)
    requires IsHead(a, content)
    ensures IsHead(a + data, Overwrite(content, |a|, data))
  {
  }

  lemma CutKeeps(content: bytes, a: bytes, b: bytes)
    requires IsHead(a + b, content)
    ensures IsHead(a, content) && IsHead(a, Storage.SetLen(content, |a|))
  {
    assert forall i | 0 <= i < |a| :: (a + b)[i] == a[i];
  }

  /** The guard's holder keeps what is settled, whatever it does. */
  lemma GuardedStep(h: Hash, s: State, e: Event)
    requires Counted(s) && Holds(s) && Enabled(h, s, e) && !e.Land?
    ensures Holds(Next(h, s, e))
  {
    var r := Next(h, s, e);
    SettledAfter(h, s, e);
    ContentAfter(h, s, e);
    if e.Data? {
      DataKeeps(s, e.piece, r);
    } else {
      ReleaseKeeps(s, r);
    }
  }

  lemma DataKeeps(s: State, piece: bytes, r: State)
    requires Counted(s) && Holds(s) && Settled(r) == Settled(s) + piece
    requires r.content == Overwrite(s.content, Position(s), piece)
    ensures Holds(r)
  {
    OverwriteExtends(s.content, Settled(s), piece);
  }

  lemma ReleaseKeeps(s: State, r: State)
    requires Counted(s) && Holds(s) && (Settled(r) == Settled(s) || Settled(r) == s.acked)
    requires r.content == s.content || (Settled(r) == s.acked && r.content == Storage.SetLen(s.content, s.received))
    ensures Holds(r)
  {
    CutKeeps(s.content, s.acked, Written(s));
  }

  /** What a step of the guard's holder does to the file. */
  lemma ContentAfter(h: Hash, s: State, e: Event)
    requires Enabled(h, s, e)
    ensures Next(h, s, e).content == match e
              case Begin => Storage.SetLen(s.content, s.received)
              case Abort => Storage.SetLen(s.content, s.received)
              case Data(piece) => Overwrite(s.content, Position(s), piece)
              case Land(op) => Landed(s.content, op)
              case _ => s.content
  {
  }

  /** A write keeps a prefix exactly when it repeats the bytes that it meets there. */
  lemma WriteKeeps(a: bytes, content: bytes, pos: nat, data: bytes)
    requires IsHead(a, content)
    ensures IsHead(a, Overwrite(content, pos, data))
       <==> forall i | 0 <= i < |data| && pos + i < |a| :: data[i] == a[pos + i]
  {
    var r := Overwrite(content, pos, data);
    if IsHead(a, r) {
      forall i | 0 <= i < |data| && pos + i < |a|
        ensures data[i] == a[pos + i]
      {
        assert r[pos + i] == a[pos + i];
      }
    }
  }

  /** A landing operation keeps what is settled exactly when it is harmless. */
  lemma LandingStep(h: Hash, s: State, op: Late)
    requires Holds(s) && op in s.late
    ensures Holds(Next(h, s, Land(op))) <==> Harmless(s, op)
  {
    if op.Write? {
      WriteKeeps(Settled(s), s.content, op.pos, op.data);
    }
  }

  // ---------------------------------------------------------------- whole runs

  lemma {:induction false} RunCounted(h: Hash, ss: seq<State>, es: seq<Event>, i: nat)
    requires Run(h, ss, es) && i < |ss|
    ensures Counted(ss[i])
  {
    if i > 0 {
      RunCounted(h, ss, es, i - 1);
      assert StepAt(h, ss, es, i - 1);
      CountedStep(h, ss[i - 1], es[i - 1]);
    }
  }

  ghost predicate LandsHarmlessly(ss: seq<State>, es: seq<Event>, i: nat)
    requires |ss| == |es| + 1
  {
    i < |es| && es[i].Land? ==> Harmless(ss[i], es[i].op)
  }

  lemma {:induction false} HarmlessRunHolds(h: Hash, ss: seq<State>, es: seq<Event>, i: nat)
    requires Run(h, ss, es) && i < |ss| && forall k: nat | k < i :: LandsHarmlessly(ss, es, k)
    ensures Holds(ss[i])
  {
    if i > 0 {
      var k := i - 1;
      HarmlessRunHolds(h, ss, es, k);
      RunCounted(h, ss, es, k);
      assert StepAt(h, ss, es, k) && LandsHarmlessly(ss, es, k);
      if es[k].Land? {
        LandingStep(h, ss[k], es[k].op);
      } else {
        GuardedStep(h, ss[k], es[k]);
      }
    }
  }

  /**
   * The file holds the settled bytes in every state of a run if and only if every operation that lands
   * late in it is harmless at that moment; in particular whenever none lands after its guard is free.
   */
  lemma HoldsExactlyWhenHarmless(h: Hash, ss: seq<State>, es: seq<Event>)
    requires Run(h, ss, es)
    ensures (forall i: nat | i < |ss| :: Holds(ss[i])) <==> (forall k: nat | k < |es| :: LandsHarmlessly(ss, es, k))
  {
    if forall k: nat | k < |es| :: LandsHarmlessly(ss, es, k) {
      forall i: nat | i < |ss|
        ensures Holds(ss[i])
      {
        HarmlessRunHolds(h, ss, es, i);
      }
    }
    if forall i: nat | i < |ss| :: Holds(ss[i]) {
      forall k: nat | k < |es|
        ensures LandsHarmlessly(ss, es, k)
      {
        assert StepAt(h, ss, es, k) && Holds(ss[k]) && Holds(ss[k + 1]);
        if es[k].Land? {
          LandingStep(h, ss[k], es[k].op);
        }
      }
    }
  }

  // ---------------------------------------------------------------- a run that loses an acknowledged byte

  /** A cancelled request's byte lands after another request's byte was acknowledged at its place. */
  ghost function LostEvents(): seq<Event> {
    [Begin, Cancel([1]), Begin, Data([2]), Ack, Land(Write(0, [1]))]
  }

  ghost function LostStates(h: Hash): seq<State> {
    var d, late := h([2]), multiset{Write(0, [1])};
    [State([], 1, d, 0, None, multiset{}, [], None), State([], 1, d, 0, Some([]), multiset{}, [], None),
     State([], 1, d, 0, None, late, [], None), State([], 1, d, 0, Some([]), late, [], None),
     State([2], 1, d, 0, Some([2]), late, [], None), State([2], 1, d, 1, None, late, [2], None),
     State([1], 1, d, 1, None, multiset{}, [2], None)]
  }

  lemma LostStep(h: Hash, i: nat)
    requires i < 6
    ensures StepAt(h, LostStates(h), LostEvents(), i)
  {
    var one: bytes, two: bytes := [1], [2];
    assert Storage.SetLen([], 0) == [] && [] + two == two;
    if i == 3 {
      assert Overwrite([], 0, two) == two;
    } else if i == 5 {
      assert Overwrite(two, 0, one) == one;
    }
  }

  lemma LateWriteLosesAcknowledged(h: Hash)
    ensures Run(h, LostStates(h), LostEvents())
    ensures var s := LostStates(h)[6];
            s.writer.None? && s.received == s.size == 1 && !(s.acked <= s.content) && !Holds(s)
  {
    forall i: nat
      ensures StepAt(h, LostStates(h), LostEvents(), i)
    {
      if i < 6 {
        LostStep(h, i);
      }
    }
    var s := LostStates(h)[6];
    assert s.acked[0] == 2 && s.content[0] == 1 && Settled(s)[0] == 2;
    HeadIsPrefix(s.acked, s.content);
  }

  // ---------------------------------------------------------------- a client that retries one file

  predicate Slice(file: bytes, pos: nat, data: bytes) {
    pos + |data| <= |file| && data == file[pos..pos + |data|]
  }

  /** Every piece that the client sends is the part of one file that belongs at its position. */
  ghost predicate SendsFile(ss: seq<State>, es: seq<Event>, file: bytes, i: nat)
    requires |ss| == |es| + 1
  {
    i < |es| && (es[i].Data? || es[i].Cancel?) ==> Slice(file, Position(ss[i]), es[i].piece)
  }

  /** No truncation lands after bytes beyond it were written again. */
  ghost predicate CutsInTime(ss: seq<State>, es: seq<Event>, i: nat)
    requires |ss| == |es| + 1
  {
    i < |es| && es[i].Land? && es[i].op.Cut? ==> Harmless(ss[i], es[i].op)
  }

  predicate FromFile(s: State, file: bytes) {
    IsHead(Settled(s), file) && forall op | op in s.late && op.Write? :: Slice(file, op.pos, op.data)
  }

  lemma FromFileStep(h: Hash, s: State, e: Event, file: bytes)
    requires Counted(s) && FromFile(s, file) && Enabled(h, s, e)
    requires e.Data? || e.Cancel? ==> Slice(file, Position(s), e.piece)
    ensures FromFile(Next(h, s, e), file)
  {
    SettledAfter(h, s, e);
    if e.Data? {
      PrefixSlice(file, Settled(s), e.piece);
    } else {
      CutKeeps(file, s.acked, Written(s));
    }
    LateSlices(h, s, e, file);
  }

  lemma LateSlices(h: Hash, s: State, e: Event, file: bytes)
    requires Enabled(h, s, e) && (e.Cancel? ==> Slice(file, Position(s), e.piece))
    requires forall op | op in s.late && op.Write? :: Slice(file, op.pos, op.data)
    ensures forall op | op in Next(h, s, e).late && op.Write? :: Slice(file, op.pos, op.data)
  {
  }

  lemma PrefixSlice(file: bytes, a: bytes, b: bytes)
    requires IsHead(a, file) && Slice(file, |a|, b)
    ensures IsHead(a + b, file)
  {
  }

  lemma {:induction false} RunFromFile(h: Hash, ss: seq<State>, es: seq<Event>, file: bytes, i: nat)
    requires Run(h, ss, es) && i < |ss| && forall k: nat | k < |es| :: SendsFile(ss, es, file, k)
    ensures FromFile(ss[i], file)
  {
    if i > 0 {
      RunFromFile(h, ss, es, file, i - 1);
      RunCounted(h, ss, es, i - 1);
      assert StepAt(h, ss, es, i - 1) && SendsFile(ss, es, file, i - 1);
      FromFileStep(h, ss[i - 1], es[i - 1], file);
    }
  }

  lemma SliceIsHarmless(s: State, op: Late, file: bytes)
    requires FromFile(s, file) && op in s.late && op.Write?
    ensures Harmless(s, op)
  {
    forall i | 0 <= i < |op.data| && op.pos + i < |Settled(s)|
      ensures op.data[i] == Settled(s)[op.pos + i]
    {
      assert Settled(s)[op.pos + i] == file[op.pos + i];
    }
  }

  /**
   * However many of its requests are cancelled, a client that sends one file never has an acknowledged
   * byte changed by a late write: only a late truncation can hurt, and it does so exactly when bytes
   * beyond it were written again. Until then the file starts with what is settled, a prefix of its own.
   */
  lemma RetriesOfOneFileAreSafe(h: Hash, ss: seq<State>, es: seq<Event>, file: bytes)
    requires Run(h, ss, es) && forall k: nat | k < |es| :: SendsFile(ss, es, file, k)
    ensures (forall i: nat | i < |ss| :: Holds(ss[i])) <==> (forall k: nat | k < |es| :: CutsInTime(ss, es, k))
    ensures forall i: nat | i < |ss| :: Settled(ss[i]) <= file
  {
    HoldsExactlyWhenHarmless(h, ss, es);
    forall k: nat | k < |es|
      ensures LandsHarmlessly(ss, es, k) <==> CutsInTime(ss, es, k)
    {
      assert StepAt(h, ss, es, k);
      RunFromFile(h, ss, es, file, k);
      if es[k].Land? && es[k].op.Write? {
        SliceIsHarmless(ss[k], es[k].op, file);
      }
    }
    forall i: nat | i < |ss|
      ensures Settled(ss[i]) <= file
    {
      RunFromFile(h, ss, es, file, i);
      HeadIsPrefix(Settled(ss[i]), file);
    }
  }

  // ---------------------------------------------------------------- what can still land

  /** An operation of a request that kept within the declared size; a truncation always cuts something off. */
  predicate Fits(op: Late, size: nat) {
    match op
    case Write(pos, data) => pos + |data| <= size
    case Cut(len) => len < size
  }

  predicate Fitting(s: State) {
    (forall op | op in s.late :: Fits(op, s.size)) && (s.published.Some? ==> s.writer.None?)
  }

  lemma FittingStep(h: Hash, s: State, e: Event)
    requires Counted(s) && Fitting(s) && Enabled(h, s, e)
    ensures Fitting(Next(h, s, e)) && Next(h, s, e).size == s.size && Next(h, s, e).digest == s.digest
  {
  }

  lemma {:induction false} RunFitting(h: Hash, ss: seq<State>, es: seq<Event>, i: nat)
    requires Run(h, ss, es) && i < |ss|
    ensures Fitting(ss[i]) && ss[i].size == ss[0].size && ss[i].digest == ss[0].digest
  {
    if i > 0 {
      RunFitting(h, ss, es, i - 1);
      RunCounted(h, ss, es, i - 1);
      assert StepAt(h, ss, es, i - 1);
      FittingStep(h, ss[i - 1], es[i - 1]);
    }
  }

  /** Steps that go on from a state. */
  ghost predicate Follows(h: Hash, s: State, rs: seq<State>, vs: seq<Event>) {
    && |rs| == |vs| + 1 && rs[0] == s
    && forall i: nat {:trigger StepAt(h, rs, vs, i)} :: StepAt(h, rs, vs, i)
  }

  lemma LandFollows(h: Hash, s: State, op: Late)
    requires op in s.late
    ensures Follows(h, s, [s, Next(h, s, Land(op))], [Land(op)])
  {
    var rs, vs := [s, Next(h, s, Land(op))], [Land(op)];
    forall i: nat
      ensures StepAt(h, rs, vs, i)
    {
    }
  }

  // ---------------------------------------------------------------- acknowledged bytes at a quiet moment

  /** However what is on its way lands, before any further request, the file holds what is settled. */
  ghost predicate Safe(h: Hash, s: State) {
    forall rs: seq<State>, vs: seq<Event> | Follows(h, s, rs, vs) && OnlyLandings(vs) :: Holds(rs[|vs|])
  }

  ghost predicate OnlyLandings(vs: seq<Event>) {
    forall i | 0 <= i < |vs| :: vs[i].Land?
  }

  lemma {:induction false} HarmlessLandings(h: Hash, s: State, rs: seq<State>, vs: seq<Event>, k: nat)
    requires Holds(s) && (forall op | op in s.late :: Harmless(s, op))
    requires Follows(h, s, rs, vs) && OnlyLandings(vs) && k < |rs|
    ensures Holds(rs[k]) && Settled(rs[k]) == Settled(s) && forall op | op in rs[k].late :: op in s.late
  {
    if k > 0 {
      HarmlessLandings(h, s, rs, vs, k - 1);
      assert StepAt(h, rs, vs, k - 1);
      LandingStep(h, rs[k - 1], vs[k - 1].op);
    }
  }

  /** The settled bytes survive every order of landings if and only if each operation on its way is harmless now. */
  lemma SafeExactlyWhenHarmless(h: Hash, s: State)
    requires Holds(s)
    ensures Safe(h, s) <==> forall op | op in s.late :: Harmless(s, op)
  {
    if forall op | op in s.late :: Harmless(s, op) {
      forall rs: seq<State>, vs: seq<Event> | Follows(h, s, rs, vs) && OnlyLandings(vs)
        ensures Holds(rs[|vs|])
      {
        HarmlessLandings(h, s, rs, vs, |vs|);
      }
    }
    if Safe(h, s) {
      forall op | op in s.late
        ensures Harmless(s, op)
      {
        LandFollows(h, s, op);
        var rs, vs := [s, Next(h, s, Land(op))], [Land(op)];
        assert Follows(h, s, rs, vs) && OnlyLandings(vs) && Holds(rs[|vs|]);
        LandingStep(h, s, op);
      }
    }
  }

  // ---------------------------------------------------------------- published content

  /** A write of the bytes that are there already. */
  predicate Repeats(content: bytes, op: Late) {
    op.Write? && Slice(content, op.pos, op.data)
  }

  lemma LandingRepeats(content: bytes, op: Late)
    requires Fits(op, |content|)
    ensures Landed(content, op) == content <==> Repeats(content, op)
  {
    var r := Landed(content, op);
    if op.Write? {
      if r == content {
        forall i | 0 <= i < |op.data|
          ensures op.data[i] == content[op.pos + i]
        {
          assert r[op.pos + i] == op.data[i];
        }
      }
      if Repeats(content, op) {
        assert r == content;
      }
    }
  }

  /** Nothing that is on its way would change the file. */
  ghost predicate Clean(s: State) {
    forall op | op in s.late :: Repeats(s.content, op)
  }

  /** Whatever happens from here on, the file keeps this content. */
  ghost predicate Stays(h: Hash, s: State, content: bytes) {
    forall rs: seq<State>, vs: seq<Event> | Follows(h, s, rs, vs) :: rs[|vs|].content == content
  }

  /** After publication nothing but landings happens to the file, and clean ones change nothing. */
  lemma {:induction false} CleanStays(h: Hash, s: State, rs: seq<State>, vs: seq<Event>, k: nat)
    requires s.published.Some? && s.writer.None? && |s.content| == s.size && Fitting(s) && Clean(s)
    requires Follows(h, s, rs, vs) && k < |rs|
    ensures rs[k].published.Some? && rs[k].writer.None? && rs[k].content == s.content
    ensures forall op | op in rs[k].late :: op in s.late
  {
    if k > 0 {
      CleanStays(h, s, rs, vs, k - 1);
      assert StepAt(h, rs, vs, k - 1);
      assert vs[k - 1].Land?;
      LandingRepeats(s.content, vs[k - 1].op);
    }
  }

  lemma StaysExactlyWhenClean(h: Hash, s: State)
    requires s.published.Some? && s.writer.None? && |s.content| == s.size && Fitting(s)
    ensures Stays(h, s, s.content) <==> Clean(s)
  {
    if Clean(s) {
      forall rs: seq<State>, vs: seq<Event> | Follows(h, s, rs, vs)
        ensures rs[|vs|].content == s.content
      {
        CleanStays(h, s, rs, vs, |vs|);
      }
    }
    if Stays(h, s, s.content) {
      forall op | op in s.late
        ensures Repeats(s.content, op)
      {
        LandFollows(h, s, op);
        var rs, vs := [s, Next(h, s, Land(op))], [Land(op)];
        assert Follows(h, s, rs, vs) && rs[|vs|].content == s.content;
        LandingRepeats(s.content, op);
      }
    }
  }

  /**
   * What `finish_upload` publishes keeps its content through every order of landings if and only if, at
   * the moment of its hash check, no truncation is on its way and every write on its way repeats what
   * is there.
   */
  lemma PublishedSurvivesExactlyWhenClean(h: Hash, ss: seq<State>, es: seq<Event>, i: nat)
    requires Run(h, ss, es) && i < |es| && es[i].Finish?
    ensures ss[i + 1].published == Some(ss[i].content) && h(ss[i].content) == ss[i].digest
    ensures Stays(h, ss[i + 1], ss[i].content) <==> Clean(ss[i])
  {
    assert StepAt(h, ss, es, i);
    RunFitting(h, ss, es, i + 1);
    StaysExactlyWhenClean(h, ss[i + 1]);
  }

  /**
   * For a client that only sends one file, whose hash it declared: unless the hash collides, what is
   * published is that file, and it survives if and only if no truncation is on its way.
   */
  lemma PublishedFileSurvivesExactlyWithoutCuts(h: Hash, ss: seq<State>, es: seq<Event>, file: bytes, i: nat)
    requires Run(h, ss, es) && i < |es| && es[i].Finish? && forall k: nat | k < |es| :: SendsFile(ss, es, file, k)
    requires ss[0].digest == h(file)
    ensures ss[i].content != file ==> h(ss[i].content) == h(file)
    ensures ss[i].content == file ==>
              (Stays(h, ss[i + 1], file) <==> forall op | op in ss[i].late :: !op.Cut?)
  {
    assert StepAt(h, ss, es, i);
    RunFitting(h, ss, es, i);
    RunFromFile(h, ss, es, file, i);
    PublishedSurvivesExactlyWhenClean(h, ss, es, i);
  }

  // ---------------------------------------------------------------- a run that loses a published byte

  /** A client that only ever sends one file, and a truncation of its first request that lands too late. */
  ghost function CutEvents(): seq<Event> {
    [BeginCancelled, Begin, Data([2]), Ack, Finish, Land(Cut(0))]
  }

  ghost function CutStates(h: Hash): seq<State> {
    var d, late := h([2]), multiset{Cut(0)};
    [State([], 1, d, 0, None, multiset{}, [], None), State([], 1, d, 0, None, late, [], None),
     State([], 1, d, 0, Some([]), late, [], None), State([2], 1, d, 0, Some([2]), late, [], None),
     State([2], 1, d, 1, None, late, [2], None), State([2], 1, d, 1, None, late, [2], Some([2])),
     State([], 1, d, 1, None, multiset{}, [2], Some([2]))]
  }

  lemma CutStep(h: Hash, i: nat)
    requires i < 6
    ensures StepAt(h, CutStates(h), CutEvents(), i)
  {
    var two: bytes := [2];
    assert [] + two == two;
    if i == 1 {
      assert Storage.SetLen([], 0) == [];
    } else if i == 2 {
      assert Overwrite([], 0, two) == two;
    } else if i == 5 {
      assert Storage.SetLen(two, 0) == [];
    }
  }

  lemma CutSends(h: Hash, i: nat)
    ensures SendsFile(CutStates(h), CutEvents(), [2], i)
  {
    var two: bytes := [2];
    assert two[0..1] == two;
  }

  /** The published file of size one ends up empty, whatever the hash. */
  lemma LateCutEmptiesPublishedFile(h: Hash)
    ensures Run(h, CutStates(h), CutEvents())
    ensures forall i: nat | i < 6 :: SendsFile(CutStates(h), CutEvents(), [2], i)
    ensures var s := CutStates(h)[6]; s.published == Some([2]) && s.digest == h([2]) && s.size == 1 && s.content == []
  {
    forall i: nat
      ensures StepAt(h, CutStates(h), CutEvents(), i)
      ensures SendsFile(CutStates(h), CutEvents(), [2], i)
    {
      if i < 6 {
        CutStep(h, i);
      }
      CutSends(h, i);
    }
  }
}
