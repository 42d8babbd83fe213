/** Device enrollment: invitation, key binding, activation, approval, against a clock that never goes back. */
module Enrollment {
  import opened Bytes

  const INVITATION_SECONDS := 900
  const APPROVAL_SECONDS := 86400
  const MAX_NAME := 255

  type Digest = bytes
  type Id = nat          // enrollment UUIDs
  type DeviceName = string // unique, so it stands for the device row

  datatype Key = Key(public: bytes, fingerprint: Digest, endorsement: Digest)

  datatype Row = Row(
    device: DeviceName, invitation: Digest, expiresAt: int, key: Option<Key>, activation: Option<Digest>,
    challenge: Option<bytes>, verifiedAt: Option<int>, approvedAt: Option<int>)

  /** `invited` is history: when each enrollment was created. */
  datatype State = State(revoked: map<DeviceName, bool>, rows: map<Id, Row>, invited: map<Id, int>)

  datatype Event =
    | Invite(id: Id, name: DeviceName, invitation: Digest)
    | Bind(id: Id, key: Key, activation: Digest, challenge: bytes)
    | Finish(id: Id, activation: Digest)
    | Approve(id: Id, fingerprint: Digest)
    | Cancel(id: Id)
    | Revoke(name: DeviceName)

  /** Approved, or not yet expired. */
  predicate Open(row: Row, now: int) {
    row.approvedAt.Some? || row.expiresAt > now
  }

  predicate IsRevoked(s: State, name: DeviceName) {
    name in s.revoked && s.revoked[name]
  }

  predicate Active(s: State, id: Id, now: int) {
    id in s.rows && s.rows[id].expiresAt > now && !IsRevoked(s, s.rows[id].device)
  }

  /** The Unicode property White_Space, which `trim` removes. */
  predicate WhiteSpace(c: char) {
    var n := c as int;
    || 0x9 <= n <= 0xd || n == 0x20 || n == 0x85 || n == 0xa0 || n == 0x1680 || 0x2000 <= n <= 0x200a
    || n == 0x2028 || n == 0x2029 || n == 0x202f || n == 0x205f || n == 0x3000
  }

  /** Nothing is left of the name after trimming. */
  predicate Blank(name: DeviceName) {
    forall i | 0 <= i < |name| :: WhiteSpace(name[i])
  }

  /** `str::len`: the number of bytes in UTF-8. */
  function Utf8Length(name: string): nat {
    if name == [] then 0
    else
      var n := name[0] as int;
      (if n < 0x80 then 1 else if n < 0x800 then 2 else if n < 0x10000 then 3 else 4) + Utf8Length(name[1..])
  }

  predicate Enabled(s: State, e: Event, now: int) {
    match e
    case Invite(id, name, invitation) =>
      && !Blank(name) && Utf8Length(name) <= MAX_NAME && !IsRevoked(s, name)
      && (forall k | k in s.rows :: s.rows[k].device == name ==> !Open(s.rows[k], now))
      && id !in s.rows && (forall k | k in s.rows :: s.rows[k].invitation != invitation)
    case Bind(id, _, _, _) => Active(s, id, now) && s.rows[id].verifiedAt.None? && s.rows[id].key.None?
    case Finish(id, activation) =>
      Active(s, id, now) && s.rows[id].approvedAt.None? && s.rows[id].activation == Some(activation)
    case Approve(id, fingerprint) =>
      && Active(s, id, now) && s.rows[id].verifiedAt.Some?
      && s.rows[id].key.Some? && s.rows[id].key.value.fingerprint == fingerprint
    case Cancel(id) => id in s.rows && s.rows[id].approvedAt.None? && s.rows[id].expiresAt > 0
    case Revoke(name) => name in s.revoked && !s.revoked[name]
  }

  function Next(s: State, e: Event, now: int): State
    requires Enabled(s, e, now)
  {
    match e
    case Invite(id, name, invitation) =>
      State(s.revoked[name := false],
            s.rows[id := Row(name, invitation, now + INVITATION_SECONDS, None, None, None, None, None)],
            s.invited[id := now])
    case Bind(id, key, activation, challenge) =>
      s.(rows := s.rows[id := s.rows[id].(
        key := Some(key), activation := Some(activation), challenge := Some(challenge))])
    case Finish(id, _) =>
      var row := s.rows[id];
      s.(rows := s.rows[id := row.(
        verifiedAt := if row.verifiedAt.None? then Some(now) else row.verifiedAt,
        expiresAt := if row.verifiedAt.None? then now + APPROVAL_SECONDS else row.expiresAt,
        challenge := None)])
    case Approve(id, _) =>
      s.(rows := s.rows[id := s.rows[id].(approvedAt := Some(now), activation := None, challenge := None)])
    case Cancel(id) =>
      s.(rows := s.rows[id := s.rows[id].(expiresAt := 0, activation := None, challenge := None)])
    case Revoke(name) => s.(revoked := s.revoked[name := true])
  }

  /** A code registered again for the same device while its enrollment is pending. */
  predicate Answers(row: Row, name: DeviceName, now: int) {
    row.device == name && row.approvedAt.None? && row.expiresAt > now
  }

  /** The invitation column is unique. */
  ghost predicate OneInvitation(s: State) {
    forall i, j | i in s.rows && j in s.rows && s.rows[i].invitation == s.rows[j].invitation :: i == j
  }

  // ---------------------------------------------------------------- invariant

  /** Approved implies verified implies bound; a bound, open, unverified row still has its challenge. */
  predicate RowOk(row: Row, invited: int, now: int) {
    && (row.approvedAt.Some? ==> row.verifiedAt.Some?)
    && (row.verifiedAt.Some? ==> row.key.Some?)
    && (row.activation.Some? || row.challenge.Some? ==> row.key.Some?)
    && (row.key.Some? && row.challenge.None? ==> row.verifiedAt.Some? || row.expiresAt == 0)
    && invited <= now
    && (row.verifiedAt.None? ==> row.expiresAt <= invited + INVITATION_SECONDS)
    && (row.verifiedAt.Some? ==>
          && row.verifiedAt.value < invited + INVITATION_SECONDS
          && row.expiresAt <= row.verifiedAt.value + APPROVAL_SECONDS)
  }

  ghost predicate Inv(s: State, now: int) {
    && now >= 0 && s.invited.Keys == s.rows.Keys && OneInvitation(s)
    && (forall id | id in s.rows :: RowOk(s.rows[id], s.invited[id], now))
    && (forall i, j | i in s.rows && j in s.rows && i != j && s.rows[i].device == s.rows[j].device ::
          !(Open(s.rows[i], now) && Open(s.rows[j], now)))
  }

  /** Time alone keeps the invariant. */
  lemma TimePasses(s: State, now: int, later: int)
    requires Inv(s, now) && now <= later
    ensures Inv(s, later)
  {
  }

  lemma StepRow(s: State, e: Event, now: int, id: Id)
    requires Inv(s, now) && Enabled(s, e, now) && id in Next(s, e, now).rows
    ensures var r := Next(s, e, now);
            && id in r.invited && RowOk(r.rows[id], r.invited[id], now)
            && (id in s.rows ==>
                  && r.rows[id].device == s.rows[id].device && r.rows[id].invitation == s.rows[id].invitation
                  && (Open(r.rows[id], now) ==> Open(s.rows[id], now)))
            && (id !in s.rows ==> e == Invite(id, r.rows[id].device, r.rows[id].invitation))
  {
  }

  lemma StepPair(s: State, e: Event, now: int, i: Id, j: Id)
    requires Inv(s, now) && Enabled(s, e, now) && i in Next(s, e, now).rows && j in Next(s, e, now).rows && i != j
    ensures var r := Next(s, e, now);
            && r.rows[i].invitation != r.rows[j].invitation
            && (r.rows[i].device == r.rows[j].device ==> !(Open(r.rows[i], now) && Open(r.rows[j], now)))
  {
    StepRow(s, e, now, i);
    StepRow(s, e, now, j);
  }

  lemma StepKeeps(s: State, e: Event, now: int)
    requires Inv(s, now) && Enabled(s, e, now)
    ensures Inv(Next(s, e, now), now)
  {
    var r := Next(s, e, now);
    forall id | id in r.rows
      ensures id in r.invited && RowOk(r.rows[id], r.invited[id], now)
    {
      StepRow(s, e, now, id);
    }
    forall i, j | i in r.rows && j in r.rows && i != j
      ensures r.rows[i].invitation != r.rows[j].invitation
      ensures r.rows[i].device == r.rows[j].device ==> !(Open(r.rows[i], now) && Open(r.rows[j], now))
    {
      StepPair(s, e, now, i, j);
    }
    assert OneInvitation(r);
  }

  // ---------------------------------------------------------------- what later states keep

  /** A key and a verification time, once set, never change; a challenge is kept or cleared; deadlines only shrink. */
  ghost predicate RowLater(a: Row, b: Row) {
    && a.device == b.device && a.invitation == b.invitation
    && (a.key.Some? ==> b.key == a.key)
    && (a.key.Some? ==> b.challenge == a.challenge || b.challenge.None?)
    && (a.verifiedAt.Some? ==> b.verifiedAt == a.verifiedAt && b.expiresAt <= a.expiresAt)
    && (a.approvedAt.Some? ==> b.approvedAt.Some?)
  }

  ghost predicate After(s: State, r: State) {
    && (forall id | id in s.rows :: id in r.rows && RowLater(s.rows[id], r.rows[id]))
    && (forall id | id in s.invited :: id in r.invited && r.invited[id] == s.invited[id])
    && (forall name | IsRevoked(s, name) :: IsRevoked(r, name))
  }

  lemma StepRowLater(s: State, e: Event, now: int, id: Id)
    requires Inv(s, now) && Enabled(s, e, now) && id in s.rows
    ensures id in Next(s, e, now).rows && RowLater(s.rows[id], Next(s, e, now).rows[id])
  {
  }

  lemma StepAfter(s: State, e: Event, now: int)
    requires Inv(s, now) && Enabled(s, e, now)
    ensures After(s, Next(s, e, now))
  {
    forall id | id in s.rows
      ensures id in Next(s, e, now).rows && RowLater(s.rows[id], Next(s, e, now).rows[id])
    {
      StepRowLater(s, e, now, id);
    }
  }

  lemma AfterTransitive(a: State, b: State, c: State)
    requires After(a, b) && After(b, c)
    ensures After(a, c)
  {
  }

  // ---------------------------------------------------------------- runs

  ghost predicate StepAt(ss: seq<State>, es: seq<Event>, times: seq<int>, i: nat)
    requires |ss| == |es| + 1 && |times| == |es|
  {
    i < |es| ==> Enabled(ss[i], es[i], times[i]) && ss[i + 1] == Next(ss[i], es[i], times[i])
  }

  ghost predicate Run(ss: seq<State>, es: seq<Event>, times: seq<int>) {
    && |ss| == |es| + 1 && |times| == |es| && ss[0] == State(map[], map[], map[])
    && (forall i: nat {:trigger StepAt(ss, es, times, i)} :: StepAt(ss, es, times, i))
    && (forall i, j | 0 <= i <= j < |times| :: 0 <= times[i] <= times[j])
  }

  /** The invariant holds at every moment between two steps. */
  lemma {:induction false} RunInv(ss: seq<State>, es: seq<Event>, times: seq<int>, i: nat, now: int)
    requires Run(ss, es, times) && i < |ss| && now >= 0 && (i > 0 ==> times[i - 1] <= now)
    ensures Inv(ss[i], now)
  {
    if i > 0 {
      RunInv(ss, es, times, i - 1, times[i - 1]);
      assert StepAt(ss, es, times, i - 1);
      StepKeeps(ss[i - 1], es[i - 1], times[i - 1]);
      TimePasses(ss[i], times[i - 1], now);
    }
  }

  lemma {:induction false} RunAfter(ss: seq<State>, es: seq<Event>, times: seq<int>, i: nat, j: nat)
    requires Run(ss, es, times) && i <= j < |ss|
    ensures After(ss[i], ss[j])
    decreases j
  {
    if i < j {
      RunAfter(ss, es, times, i, j - 1);
      RunInv(ss, es, times, j - 1, times[j - 1]);
      assert StepAt(ss, es, times, j - 1);
      StepAfter(ss[j - 1], es[j - 1], times[j - 1]);
      AfterTransitive(ss[i], ss[j - 1], ss[j]);
    }
  }

  /** Approved implies verified implies bound to a key, in every reachable state. */
  lemma ApprovedIsVerifiedIsBound(ss: seq<State>, es: seq<Event>, times: seq<int>, k: nat, id: Id)
    requires Run(ss, es, times) && k < |ss| && id in ss[k].rows
    ensures ss[k].rows[id].approvedAt.Some? ==> ss[k].rows[id].verifiedAt.Some?
    ensures ss[k].rows[id].verifiedAt.Some? ==> ss[k].rows[id].key.Some?
  {
    var now := if k > 0 then times[k - 1] else 0;
    RunInv(ss, es, times, k, now);
    assert RowOk(ss[k].rows[id], ss[k].invited[id], now);
  }

  /** A device never has two approved enrollments, in any reachable state. */
  lemma OneApprovedPerDevice(ss: seq<State>, es: seq<Event>, times: seq<int>, k: nat, i: Id, j: Id)
    requires Run(ss, es, times) && k < |ss| && i in ss[k].rows && j in ss[k].rows
    requires ss[k].rows[i].device == ss[k].rows[j].device
    requires ss[k].rows[i].approvedAt.Some? && ss[k].rows[j].approvedAt.Some?
    ensures i == j && ss[k].rows[i].verifiedAt.Some? && ss[k].rows[i].key.Some?
  {
    var now := if k > 0 then times[k - 1] else 0;
    RunInv(ss, es, times, k, now);
    assert Open(ss[k].rows[i], now) && Open(ss[k].rows[j], now);
  }

  /**
   * However often the client finishes, an approval comes less than 900 + 86400 seconds after the
   * invitation, and approves the key that was bound first.
   */
  lemma ApprovalIsTimely(ss: seq<State>, es: seq<Event>, times: seq<int>, i: nat, j: nat)
    requires Run(ss, es, times) && i < j < |es| && es[i].Invite? && es[j].Approve? && es[i].id == es[j].id
    ensures times[j] < times[i] + INVITATION_SECONDS + APPROVAL_SECONDS
  {
    var id := es[i].id;
    assert StepAt(ss, es, times, i) && StepAt(ss, es, times, j);
    RunAfter(ss, es, times, i + 1, j);
    RunInv(ss, es, times, j, times[j]);
    assert ss[i + 1].invited[id] == times[i] && ss[j].invited[id] == times[i];
    assert RowOk(ss[j].rows[id], ss[j].invited[id], times[j]);
  }

  /** The key an enrollment is bound to, and its challenge while it lasts, are the same in every later state. */
  lemma KeyNeverChanges(ss: seq<State>, es: seq<Event>, times: seq<int>, i: nat, j: nat, id: Id)
    requires Run(ss, es, times) && i <= j < |ss| && id in ss[i].rows && ss[i].rows[id].key.Some?
    ensures id in ss[j].rows && ss[j].rows[id].key == ss[i].rows[id].key
    ensures ss[j].rows[id].challenge.Some? ==> ss[j].rows[id].challenge == ss[i].rows[id].challenge
  {
    RunAfter(ss, es, times, i, j);
    assert RowLater(ss[i].rows[id], ss[j].rows[id]);
  }

  // ---------------------------------------------------------------- the handlers

  datatype Reply<T> = Ok(value: T) | Refused

  class Registry {
    var revoked: map<DeviceName, bool>
    var rows: map<Id, Row>
    ghost var invited: map<Id, int>

    ghost function Value(): State
      reads this
    {
      State(revoked, rows, invited)
    }

    constructor ()
      ensures Value() == State(map[], map[], map[])
    {
      revoked, rows, invited := map[], map[], map[];
    }

    /** `insert_invitation`; the key authorities must be configured. */
    method InsertInvitation(id: Id, name: DeviceName, invitation: Digest, configured: bool, now: int) returns (ok: bool)
      requires id !in rows
      modifies this
      ensures ok <==> configured && Enabled(old(Value()), Invite(id, name, invitation), now)
      ensures ok <==>
                && configured && (exists i :: 0 <= i < |name| && !WhiteSpace(name[i])) && Utf8Length(name) <= 255
                && !(name in old(revoked) && old(revoked)[name])
                && (forall k | k in old(rows) && old(rows)[k].device == name ::
                      old(rows)[k].approvedAt == None && old(rows)[k].expiresAt <= now)
                && forall k | k in old(rows) :: old(rows)[k].invitation != invitation
      ensures Value() == if ok then Next(old(Value()), Invite(id, name, invitation), now) else old(Value())
    {
      if Blank(name) || Utf8Length(name) > MAX_NAME || !configured {
        return false;
      }
      if name in revoked && revoked[name] {
        return false;
      }
      if exists k :: k in rows && rows[k].device == name && Open(rows[k], now) {
        return false;
      }
      if exists k :: k in rows && rows[k].invitation == invitation {
        return false;
      }
      revoked := revoked[name := false];
      rows := rows[id := Row(name, invitation, now + INVITATION_SECONDS, None, None, None, None, None)];
      invited := invited[id := now];
      ok := true;
    }

    /** The pairing code may be registered again while its invitation is pending. */
    method RegisterPair(id: Id, name: DeviceName, invitation: Digest, configured: bool, now: int) returns (r: Reply<Id>)
      requires id !in rows && OneInvitation(Value())
      modifies this
      ensures (forall k | k in old(rows) :: old(rows)[k].invitation != invitation) ==>
                && (r == Ok(id) <==> configured && Enabled(old(Value()), Invite(id, name, invitation), now))
                && (r.Ok? ==> r == Ok(id))
                && Value() == if r.Ok? then Next(old(Value()), Invite(id, name, invitation), now) else old(Value())
      ensures forall k | k in old(rows) && old(rows)[k].invitation == invitation ::
                && Value() == old(Value())
                && (r == Ok(k) <==> Answers(rows[k], name, now)) && (r == Refused <==> !Answers(rows[k], name, now))
                && (r == Ok(k) <==> rows[k].device == name && rows[k].approvedAt == None && now < rows[k].expiresAt)
    {
      if k :| k in rows && rows[k].invitation == invitation {
        var row := rows[k];
        return if row.device == name && row.approvedAt.None? && row.expiresAt > now then Ok(k) else Refused;
      }
      var ok := InsertInvitation(id, name, invitation, configured, now);
      r := if ok then Ok(id) else Refused;
    }

    /**
     * The second half of `enroll_start`, after the credential was made for the key: binds a free
     * invitation, or returns the stored challenge to the same key. That challenge is always there.
     */
    method BindKey(id: Id, key: Key, activation: Digest, challenge: bytes, now: int) returns (r: Reply<bytes>)
      requires Inv(Value(), now)
      modifies this
      ensures var s, e := old(Value()), Bind(id, key, activation, challenge);
              Value() == if Enabled(s, e, now) then Next(s, e, now) else s
      ensures r.Ok? <==>
                && Active(old(Value()), id, now) && old(rows)[id].verifiedAt.None?
                && (old(rows)[id].key.None? || old(rows)[id].key.value.public == key.public)
      ensures r.Ok? ==>
                && rows[id].key.Some? && rows[id].key.value.public == key.public && rows[id].challenge == Some(r.value)
    {
      if id !in rows || rows[id].expiresAt <= now || rows[id].verifiedAt.Some? {
        return Refused;
      }
      var row := rows[id];
      if row.device in revoked && revoked[row.device] {
        return Refused;
      }
      if row.key.Some? {
        assert RowOk(row, invited[id], now);
        return if row.key.value.public != key.public then Refused else Ok(row.challenge.value);
      }
      rows := rows[id := row.(key := Some(key), activation := Some(activation), challenge := Some(challenge))];
      r := Ok(challenge);
    }

    /** `enroll_finish`: repeated finishes keep the first verification time and deadline. */
    method FinishEnrollment(id: Id, activation: Digest, now: int) returns (ok: bool)
      modifies this`rows
      ensures ok <==> Enabled(old(Value()), Finish(id, activation), now)
      ensures ok <==>
                && id in old(rows) && now < old(rows)[id].expiresAt && old(rows)[id].approvedAt == None
                && !IsRevoked(old(Value()), old(rows)[id].device) && old(rows)[id].activation == Some(activation)
      ensures Value() == if ok then Next(old(Value()), Finish(id, activation), now) else old(Value())
    {
      if id !in rows || rows[id].expiresAt <= now || rows[id].approvedAt.Some? {
        return false;
      }
      var row := rows[id];
      if (row.device in revoked && revoked[row.device]) || row.activation != Some(activation) {
        return false;
      }
      if row.verifiedAt.None? {
        row := row.(verifiedAt := Some(now), expiresAt := now + APPROVAL_SECONDS);
      }
      rows := rows[id := row.(challenge := None)];
      ok := true;
    }

    method ApproveEnrollment(id: Id, fingerprint: Digest, now: int) returns (ok: bool)
      modifies this`rows
      ensures ok <==> Enabled(old(Value()), Approve(id, fingerprint), now)
      ensures ok <==>
                && id in old(rows) && now < old(rows)[id].expiresAt && old(rows)[id].verifiedAt.Some?
                && !IsRevoked(old(Value()), old(rows)[id].device)
                && old(rows)[id].key.Some? && old(rows)[id].key.value.fingerprint == fingerprint
      ensures Value() == if ok then Next(old(Value()), Approve(id, fingerprint), now) else old(Value())
    {
      if id !in rows || rows[id].expiresAt <= now || rows[id].verifiedAt.None? {
        return false;
      }
      var row := rows[id];
      if (row.device in revoked && revoked[row.device]) || row.key.None? || row.key.value.fingerprint != fingerprint {
        return false;
      }
      rows := rows[id := row.(approvedAt := Some(now), activation := None, challenge := None)];
      ok := true;
    }

    /** Cancels only an unapproved invitation. */
    method CancelInvitation(id: Id, now: int) returns (ok: bool)
      modifies this`rows
      ensures ok <==> Enabled(old(Value()), Cancel(id), now)
      ensures ok <==> id in old(rows) && old(rows)[id].approvedAt == None && 0 < old(rows)[id].expiresAt
      ensures Value() == if ok then Next(old(Value()), Cancel(id), now) else old(Value())
    {
      ok := id in rows && rows[id].approvedAt.None? && rows[id].expiresAt > 0;
      if ok {
        rows := rows[id := rows[id].(expiresAt := 0, activation := None, challenge := None)];
      }
    }
  }
}
