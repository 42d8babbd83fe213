/** Browser sessions, one-use challenges, and the grants, uploads and runner tickets that hang on them. */
module Grants {
  import opened Bytes
  import opened Paths
  import Tables

  const SESSION_SECONDS := 300
  const FILES_SESSION_SECONDS := 30 * 60
  const CHALLENGE_SECONDS := 60
  const PRESENCE_SECONDS := 120
  const TICKET_SECONDS := 15

  // Hashes of random secrets, and UUIDs.
  type Token = nat
  type ChallengeId = nat
  type UploadId = nat
  type TicketId = nat

  datatype Scope = StatusRead | FilesRead | FilesWrite | FilesManage | FilesEdit | CodeRun

  datatype Session = Session(binding: nat, expiresAt: int)
  /** Who consumed a challenge, and how long that counts as presence. */
  datatype Presence = Presence(device: nat, enrollment: nat, until: int)

  datatype Challenge = Challenge(
    session: Token, ticket: nat, scope: Scope, expiresAt: int, expected: Option<nat>, result: Option<Presence>)
  datatype ReadGrant = ReadGrant(challenge: ChallengeId, device: nat, enrollment: nat, expiresAt: int)
  datatype SubGrant = SubGrant(challenge: ChallengeId, instance: nat, expiresAt: int)
  datatype WebUpload = WebUpload(session: Token, grant: ChallengeId)
  datatype Operation =
    | Start(path: Path, revision: nat, sha256: bytes, job: nat)
    | Tools
    | Poll(job: nat)
    | Stop(job: nat)
  datatype Ticket = Ticket(session: Token, grant: ChallengeId, operation: Operation, expiresAt: int)

  /** `sub` holds the write, manage, edit and run grants by session and scope. */
  datatype State = State(
    sessions: map<Token, Session>,
    challenges: map<ChallengeId, Challenge>,
    read: map<Token, ReadGrant>,
    sub: map<(Token, Scope), SubGrant>,
    uploads: map<UploadId, WebUpload>,
    tickets: map<TicketId, Ticket>,
    trusted: set<(nat, nat)>,    // device and enrollment: approved, verified, not revoked
    issued: set<ChallengeId>,    // history
    consumed: set<ChallengeId>,  // history
    begun: set<UploadId>,        // history
    drawn: set<TicketId>)        // history

  /**
   * What a proof submission carries: the signed claims, the ticket's hash, and who proves. The claims
   * also name the expected device; the ticket's hash ties them to the challenge row that records it.
   */
  datatype Submission = Submission(
    id: ChallengeId, binding: nat, scope: Scope, ticket: nat, device: nat, enrollment: nat, instance: nat)

  datatype Event =
    | NewSession(token: Token, binding: nat)
    | Purge
    | Logout(token: Token)
    | Issue(id: ChallengeId, token: Token, ticket: nat, scope: Scope, previous: Option<ChallengeId>)
    | Accept(p: Submission)
    | BeginUpload(upload: UploadId, token: Token)
    | EndUpload(upload: UploadId)
    | DrawTicket(ticket: TicketId, token: Token, operation: Operation)
    | UseTicket(ticket: TicketId, device: nat, enrollment: nat, instance: nat)
    | Trust(device: nat, enrollment: nat)
    | Distrust(device: nat)

  predicate Subordinate(scope: Scope) {
    scope.FilesWrite? || scope.FilesManage? || scope.FilesEdit? || scope.CodeRun?
  }

  predicate LiveSession(s: State, token: Token, now: int) {
    token in s.sessions && s.sessions[token].expiresAt > now
  }

  /** `authorize`: a live session with a live read grant of a device that is still trusted. */
  predicate Authorized(s: State, token: Token, now: int) {
    && LiveSession(s, token, now) && token in s.read && s.read[token].expiresAt > now
    && (s.read[token].device, s.read[token].enrollment) in s.trusted
  }

  /** `grant` of each scope: authorized, and the scope's own grant is live. */
  predicate Granted(s: State, token: Token, scope: Scope, now: int) {
    Authorized(s, token, now) && (token, scope) in s.sub && s.sub[(token, scope)].expiresAt > now
  }

  /** `owned`: the upload belongs to this session and to its current write proof. */
  predicate Owned(s: State, upload: UploadId, token: Token, now: int) {
    && Granted(s, token, FilesWrite, now) && upload in s.uploads
    && s.uploads[upload] == WebUpload(token, s.sub[(token, FilesWrite)].challenge)
  }

  /** The join of `runner_authorize`. */
  predicate Redeemable(s: State, ticket: TicketId, device: nat, enrollment: nat, instance: nat, now: int) {
    && ticket in s.tickets && s.tickets[ticket].expiresAt > now
    && var t := s.tickets[ticket];
    && LiveSession(s, t.session, now)
    && (t.session, CodeRun) in s.sub && s.sub[(t.session, CodeRun)].challenge == t.grant
    && s.sub[(t.session, CodeRun)].expiresAt > now && s.sub[(t.session, CodeRun)].instance == instance
    && t.session in s.read && s.read[t.session].expiresAt > now
    && s.read[t.session].device == device && s.read[t.session].enrollment == enrollment
    && (device, enrollment) in s.trusted
  }

  /** A start operation names the live revision and digest of its file, and the file can be read as source. */
  predicate Unchanged(db: Tables.Db, readable: set<Path>, operation: Operation) {
    operation.Start? ==>
      var path := operation.path;
      && path in readable && Tables.IsLive(db, path)
      && db.entries[path].revision == operation.revision && db.entries[path].file.digest == operation.sha256
  }

  /** A submission matches a pending challenge of a live session. */
  predicate Pending(s: State, p: Submission, now: int) {
    && p.id in s.challenges
    && var c := s.challenges[p.id];
    && c.result.None? && c.expiresAt > now && c.ticket == p.ticket && c.scope == p.scope
    && LiveSession(s, c.session, now) && s.sessions[c.session].binding == p.binding
  }

  /** `verified_result`: a consumed challenge of the session whose presence lasts and whose device is trusted. */
  predicate Verified(s: State, token: Token, id: ChallengeId, now: int) {
    && id in s.challenges && s.challenges[id].session == token && s.challenges[id].result.Some?
    && s.challenges[id].result.value.until > now
    && (s.challenges[id].result.value.device, s.challenges[id].result.value.enrollment) in s.trusted
  }

  /** The device a new challenge is meant for: the open read grant's, or the one that proved before. */
  function Expected(s: State, token: Token, scope: Scope, previous: Option<ChallengeId>): Option<nat>
    requires Subordinate(scope) ==> token in s.read
    requires previous.Some? ==> previous.value in s.challenges && s.challenges[previous.value].result.Some?
  {
    if Subordinate(scope) then Some(s.read[token].device)
    else if previous.Some? then Some(s.challenges[previous.value].result.value.device)
    else None
  }

  predicate Acceptable(s: State, p: Submission, now: int) {
    && (p.device, p.enrollment) in s.trusted && Pending(s, p, now)
    && (s.challenges[p.id].expected.Some? ==> s.challenges[p.id].expected.value == p.device)
    && (Subordinate(p.scope) ==>
          var t := s.challenges[p.id].session;
          && t in s.read && s.read[t].device == p.device && s.read[t].enrollment == p.enrollment
          && s.read[t].expiresAt > now)
  }

  predicate Enabled(s: State, e: Event, now: int) {
    match e
    case NewSession(token, binding) =>
      token !in s.sessions && forall t | t in s.sessions :: s.sessions[t].binding != binding
    case Purge => true
    case Logout(token) => true
    case Issue(id, token, ticket, scope, previous) =>
      && id !in s.issued && LiveSession(s, token, now)
      && (previous.Some? ==> Verified(s, token, previous.value, now))
      && (Subordinate(scope) ==> token in s.read && s.read[token].expiresAt > now)
    case Accept(p) => Acceptable(s, p, now)
    case BeginUpload(upload, token) => upload !in s.begun && Granted(s, token, FilesWrite, now)
    case EndUpload(upload) => upload in s.uploads
    case DrawTicket(ticket, token, _) => ticket !in s.drawn && Granted(s, token, CodeRun, now)
    case UseTicket(ticket, device, enrollment, instance) => Redeemable(s, ticket, device, enrollment, instance, now)
    case Trust(device, enrollment) => true
    case Distrust(device) => true
  }

  /** Deleting sessions cascades to everything but the ownership rows of uploads. */
  function Without(s: State, dead: set<Token>): State {
    s.(sessions := s.sessions - dead,
       challenges := map c | c in s.challenges && s.challenges[c].session !in dead :: s.challenges[c],
       read := s.read - dead,
       sub := map k | k in s.sub && k.0 !in dead :: s.sub[k],
       tickets := map t | t in s.tickets && s.tickets[t].session !in dead :: s.tickets[t])
  }

  function Expired(s: State, now: int): set<Token> {
    set t | t in s.sessions && s.sessions[t].expiresAt <= now
  }

  function PresenceOf(s: State, p: Submission, now: int): Presence
    requires p.id in s.challenges && s.challenges[p.id].session in s.sessions
  {
    Presence(p.device, p.enrollment, Min(now + PRESENCE_SECONDS, s.sessions[s.challenges[p.id].session].expiresAt))
  }

  function Consumed(s: State, p: Submission, now: int): State
    requires p.id in s.challenges && s.challenges[p.id].session in s.sessions
  {
    s.(challenges := s.challenges[p.id := s.challenges[p.id].(result := Some(PresenceOf(s, p, now)))],
       consumed := s.consumed + {p.id})
  }

  /** A read proof drops all other grants of its session, and renews the session and the read grant together. */
  function ReadProof(s: State, p: Submission, now: int): State
    requires p.id in s.challenges && s.challenges[p.id].session in s.sessions
  {
    var t := s.challenges[p.id].session;
    var expires := now + FILES_SESSION_SECONDS;
    s.(sub := map k | k in s.sub && k.0 != t :: s.sub[k],
       tickets := map k | k in s.tickets && s.tickets[k].session != t :: s.tickets[k],
       read := s.read[t := ReadGrant(p.id, p.device, p.enrollment, expires)],
       sessions := s.sessions[t := s.sessions[t].(expiresAt := expires)])
  }

  function SubProof(s: State, p: Submission): State
    requires p.id in s.challenges && s.challenges[p.id].session in s.read
  {
    var t := s.challenges[p.id].session;
    s.(sub := s.sub[(t, p.scope) := SubGrant(p.id, p.instance, s.read[t].expiresAt)])
  }

  function Min(a: int, b: int): int {
    if a < b then a else b
  }

  function Accepted(s: State, p: Submission, now: int): State
    requires Acceptable(s, p, now)
  {
    var c := Consumed(s, p, now);
    if p.scope.FilesRead? then ReadProof(c, p, now) else if Subordinate(p.scope) then SubProof(c, p) else c
  }

  function Next(s: State, e: Event, now: int): State
    requires Enabled(s, e, now)
  {
    match e
    case NewSession(token, binding) => s.(sessions := s.sessions[token := Session(binding, now + SESSION_SECONDS)])
    case Purge => Without(s, Expired(s, now))
    case Logout(token) => Without(s, {token})
    case Issue(id, token, ticket, scope, previous) =>
      s.(challenges := s.challenges[id := Challenge(
           token, ticket, scope, Min(now + CHALLENGE_SECONDS, s.sessions[token].expiresAt),
           Expected(s, token, scope, previous), None)],
         issued := s.issued + {id})
    case Accept(p) => Accepted(s, p, now)
    case BeginUpload(upload, token) =>
      s.(uploads := s.uploads[upload := WebUpload(token, s.sub[(token, FilesWrite)].challenge)],
         begun := s.begun + {upload})
    case EndUpload(upload) => s.(uploads := s.uploads - {upload})
    case DrawTicket(ticket, token, operation) =>
      var kept := map k | k in s.tickets && s.tickets[k].expiresAt > now :: s.tickets[k];
      s.(tickets := kept[ticket := Ticket(token, s.sub[(token, CodeRun)].challenge, operation, now + TICKET_SECONDS)],
         drawn := s.drawn + {ticket})
    case UseTicket(ticket, _, _, _) => s.(tickets := s.tickets - {ticket})
    case Trust(device, enrollment) => s.(trusted := s.trusted + {(device, enrollment)})
    case Distrust(device) => s.(trusted := set k | k in s.trusted && k.0 != device)
  }

  // ---------------------------------------------------------------- invariant

  ghost predicate Rows(s: State) {
    && (forall a, b | a in s.sessions && b in s.sessions && a != b :: s.sessions[a].binding != s.sessions[b].binding)
    && (forall c | c in s.challenges ::
          s.challenges[c].session in s.sessions && c in s.issued && (s.challenges[c].result.Some? <==> c in s.consumed))
    && s.consumed <= s.issued
  }

  /** Every grant stands on a read grant of its session, with that grant's and the session's expiry. */
  ghost predicate Shared(s: State) {
    && (forall t | t in s.read :: t in s.sessions && s.read[t].expiresAt == s.sessions[t].expiresAt)
    && (forall k | k in s.sub ::
          && k.0 in s.read && Subordinate(k.1) && s.sub[k].expiresAt == s.read[k.0].expiresAt
          && s.sub[k].challenge in s.consumed)
    && (forall k | k in s.tickets :: s.tickets[k].session in s.read && s.tickets[k].grant in s.consumed && k in s.drawn)
    && (forall u | u in s.uploads :: s.uploads[u].grant in s.consumed && u in s.begun)
  }

  ghost predicate Inv(s: State) {
    Rows(s) && Shared(s)
  }

  lemma WithoutKeeps(s: State, dead: set<Token>)
    requires Inv(s)
    ensures Inv(Without(s, dead))
  {
  }

  lemma ConsumedKeeps(s: State, p: Submission, now: int)
    requires Inv(s) && p.id in s.challenges
    ensures Inv(Consumed(s, p, now)) && p.id in Consumed(s, p, now).consumed
  {
  }

  lemma ReadProofKeeps(s: State, p: Submission, now: int)
    requires Inv(s) && p.id in s.challenges && s.challenges[p.id].session in s.sessions
    ensures Inv(ReadProof(s, p, now))
  {
  }

  lemma SubProofKeeps(s: State, p: Submission)
    requires Inv(s) && p.id in s.challenges && s.challenges[p.id].session in s.read
    requires Subordinate(p.scope) && p.id in s.consumed
    ensures Inv(SubProof(s, p))
  {
  }

  lemma AcceptKeeps(s: State, p: Submission, now: int)
    requires Inv(s) && Acceptable(s, p, now)
    ensures Inv(Accepted(s, p, now))
  {
    ConsumedKeeps(s, p, now);
    var c := Consumed(s, p, now);
    if p.scope.FilesRead? {
      ReadProofKeeps(c, p, now);
    } else if Subordinate(p.scope) {
      SubProofKeeps(c, p);
    }
  }

  predicate SessionEvent(e: Event) {
    e.NewSession? || e.Issue? || e.Trust? || e.Distrust?
  }

  predicate TicketEvent(e: Event) {
    e.DrawTicket? || e.UseTicket?
  }

  lemma TicketKeeps(s: State, e: Event, now: int)
    requires Inv(s) && Enabled(s, e, now) && TicketEvent(e)
    ensures Inv(Next(s, e, now))
  {
  }

  lemma UploadKeeps(s: State, e: Event, now: int)
    requires Inv(s) && Enabled(s, e, now) && (e.BeginUpload? || e.EndUpload?)
    ensures Inv(Next(s, e, now))
  {
  }

  lemma SessionKeeps(s: State, e: Event, now: int)
    requires Inv(s) && Enabled(s, e, now) && SessionEvent(e)
    ensures Inv(Next(s, e, now))
  {
  }

  lemma StepKeeps(s: State, e: Event, now: int)
    requires Inv(s) && Enabled(s, e, now)
    ensures Inv(Next(s, e, now))
  {
    match e
    case Purge => WithoutKeeps(s, Expired(s, now));
    case Logout(token) => WithoutKeeps(s, {token});
    case Accept(p) => AcceptKeeps(s, p, now);
    case _ =>
      if SessionEvent(e) {
        SessionKeeps(s, e, now);
      } else if TicketEvent(e) {
        TicketKeeps(s, e, now);
      } else {
        UploadKeeps(s, e, now);
      }
  }

  // ---------------------------------------------------------------- what removes grants

  ghost predicate NoSubGrants(s: State, token: Token) {
    && (forall k | k in s.sub :: k.0 != token)
    && (forall k | k in s.tickets :: s.tickets[k].session != token)
  }

  /** A fresh read proof leaves its session with the read grant alone, renewed together with the session. */
  lemma ReadProofRemovesGrants(s: State, p: Submission, now: int)
    requires Inv(s) && Enabled(s, Accept(p), now) && p.scope.FilesRead?
    ensures var r, t := Next(s, Accept(p), now), s.challenges[p.id].session;
            && NoSubGrants(r, t) && t in r.read && r.read[t].challenge == p.id
            && r.read[t].expiresAt == r.sessions[t].expiresAt == now + FILES_SESSION_SECONDS
  {
  }

  /** Logout and purge leave nothing of a removed session, and touch no other session. */
  lemma RemovalIsComplete(s: State, dead: set<Token>, token: Token)
    requires Inv(s)
    ensures var r := Without(s, dead);
            && (token in dead ==>
                  token !in r.sessions && token !in r.read && NoSubGrants(r, token)
                  && forall c | c in r.challenges :: r.challenges[c].session != token)
            && (token !in dead ==>
                  && (token in r.sessions <==> token in s.sessions) && (token in r.read <==> token in s.read)
                  && (forall k | k in s.sub && k.0 == token :: k in r.sub && r.sub[k] == s.sub[k])
                  && (forall k | k in s.tickets && s.tickets[k].session == token ::
                        k in r.tickets && r.tickets[k] == s.tickets[k])
                  && (forall c | c in s.challenges && s.challenges[c].session == token ::
                        c in r.challenges && r.challenges[c] == s.challenges[c]))
  {
  }

  // ---------------------------------------------------------------- runs

  ghost predicate StepAt(ss: seq<State>, es: seq<Event>, times: seq<int>, i: nat)
    requires |ss| == |es| + 1 && |times| == |es|
  {
    i < |es| ==> Enabled(ss[i], es[i], times[i]) && ss[i + 1] == Next(ss[i], es[i], times[i])
  }

  const EMPTY := State(map[], map[], map[], map[], map[], map[], {}, {}, {}, {}, {})

  ghost predicate Run(ss: seq<State>, es: seq<Event>, times: seq<int>) {
    && |ss| == |es| + 1 && |times| == |es| && ss[0] == EMPTY
    && forall i: nat {:trigger StepAt(ss, es, times, i)} :: StepAt(ss, es, times, i)
  }

  lemma {:induction false} RunInv(ss: seq<State>, es: seq<Event>, times: seq<int>, i: nat)
    requires Run(ss, es, times) && i < |ss|
    ensures Inv(ss[i])
  {
    if i > 0 {
      RunInv(ss, es, times, i - 1);
      assert StepAt(ss, es, times, i - 1);
      StepKeeps(ss[i - 1], es[i - 1], times[i - 1]);
    }
  }

  /** In every reachable state, under any clock. */
  lemma GrantsStandOnReadGrants(ss: seq<State>, es: seq<Event>, times: seq<int>, i: nat, token: Token, scope: Scope)
    requires Run(ss, es, times) && i < |ss| && (token, scope) in ss[i].sub
    ensures token in ss[i].read && token in ss[i].sessions
    ensures ss[i].sub[(token, scope)].expiresAt == ss[i].read[token].expiresAt == ss[i].sessions[token].expiresAt
  {
    RunInv(ss, es, times, i);
  }

  /** The proof that a session's grant of this scope rests on. */
  predicate Current(s: State, token: Token, scope: Scope, grant: ChallengeId) {
    (token, scope) in s.sub && s.sub[(token, scope)].challenge == grant
  }

  /** A consumed proof whose grant is no longer the current one. */
  predicate Superseded(s: State, token: Token, scope: Scope, grant: ChallengeId) {
    grant in s.consumed && !Current(s, token, scope, grant)
  }

  ghost predicate After(s: State, r: State) {
    && s.issued <= r.issued && s.consumed <= r.consumed && s.drawn <= r.drawn && s.begun <= r.begun
    && (forall t, sc, g | Superseded(s, t, sc, g) :: Superseded(r, t, sc, g))
    && (forall k | k in s.drawn && k in r.tickets :: k in s.tickets && s.tickets[k] == r.tickets[k])
    && (forall u | u in s.begun && u in r.uploads :: u in s.uploads && s.uploads[u] == r.uploads[u])
    && (forall c | c in s.issued && c in r.challenges :: c in s.challenges && Same(s.challenges[c], r.challenges[c]))
  }

  /** What a challenge row keeps: whom it is for, and who consumed it. */
  predicate Same(a: Challenge, b: Challenge) {
    && a.session == b.session && a.scope == b.scope && a.expected == b.expected
    && (a.result.Some? ==> b.result == a.result)
  }

  lemma AcceptAfter(s: State, e: Event, now: int)
    requires Inv(s) && Enabled(s, e, now) && e.Accept?
    ensures After(s, Next(s, e, now))
  {
    AcceptKeepsRows(s, e.p, now);
    AcceptKeepsSuperseded(s, e.p, now);
  }

  /** Nothing but grants and tickets may change, and tickets may only go. */
  ghost predicate GrantsOnly(s: State, r: State) {
    && r.issued == s.issued && r.consumed == s.consumed && r.drawn == s.drawn && r.begun == s.begun
    && r.uploads == s.uploads && r.challenges == s.challenges
    && (forall k | k in r.tickets :: k in s.tickets && r.tickets[k] == s.tickets[k])
  }

  lemma ReadProofRows(s: State, p: Submission, now: int)
    requires p.id in s.challenges && s.challenges[p.id].session in s.sessions
    ensures GrantsOnly(s, ReadProof(s, p, now))
  {
  }

  lemma AcceptKeepsRows(s: State, p: Submission, now: int)
    requires Acceptable(s, p, now)
    ensures GrantsOnly(Consumed(s, p, now), Accepted(s, p, now))
  {
    if p.scope.FilesRead? {
      ReadProofRows(Consumed(s, p, now), p, now);
    }
  }

  lemma AcceptKeepsSuperseded(s: State, p: Submission, now: int)
    requires Inv(s) && Acceptable(s, p, now)
    ensures forall t, sc, g | Superseded(s, t, sc, g) :: !Current(Accepted(s, p, now), t, sc, g)
  {
    forall t, sc, g | Superseded(s, t, sc, g)
      ensures !Current(Accepted(s, p, now), t, sc, g)
    {
      assert g != p.id;
    }
  }

  lemma WithoutAfter(s: State, dead: set<Token>)
    ensures After(s, Without(s, dead))
  {
  }

  lemma IssueAfter(s: State, e: Event, now: int)
    requires Inv(s) && Enabled(s, e, now) && e.Issue?
    ensures After(s, Next(s, e, now))
  {
  }

  lemma SessionAfter(s: State, e: Event, now: int)
    requires Enabled(s, e, now) && (e.NewSession? || e.Trust? || e.Distrust?)
    ensures After(s, Next(s, e, now))
  {
  }

  lemma TicketAfter(s: State, e: Event, now: int)
    requires Inv(s) && Enabled(s, e, now) && TicketEvent(e)
    ensures After(s, Next(s, e, now))
  {
  }

  lemma UploadAfter(s: State, e: Event, now: int)
    requires Inv(s) && Enabled(s, e, now) && (e.BeginUpload? || e.EndUpload?)
    ensures After(s, Next(s, e, now))
  {
  }

  lemma StepAfter(s: State, e: Event, now: int)
    requires Inv(s) && Enabled(s, e, now)
    ensures After(s, Next(s, e, now))
  {
    match e
    case Purge => WithoutAfter(s, Expired(s, now));
    case Logout(token) => WithoutAfter(s, {token});
    case Accept(_) => AcceptAfter(s, e, now);
    case Issue(_, _, _, _, _) => IssueAfter(s, e, now);
    case _ =>
      if SessionEvent(e) {
        SessionAfter(s, e, now);
      } else if TicketEvent(e) {
        TicketAfter(s, e, now);
      } else {
        UploadAfter(s, e, now);
      }
  }

  lemma AfterTransitive(a: State, b: State, c: State)
    requires After(a, b) && After(b, c)
    ensures After(a, c)
  {
  }

  lemma {:induction false} RunAfter(ss: seq<State>, es: seq<Event>, times: seq<int>, i: nat, j: nat)
    requires Run(ss, es, times) && i <= j < |ss|
    ensures After(ss[i], ss[j])
    decreases j
  {
    if i < j {
      RunAfter(ss, es, times, i, j - 1);
      RunInv(ss, es, times, j - 1);
      assert StepAt(ss, es, times, j - 1);
      StepAfter(ss[j - 1], es[j - 1], times[j - 1]);
      AfterTransitive(ss[i], ss[j - 1], ss[j]);
    }
  }

  /** A challenge is consumed at most once in a whole run. */
  lemma ConsumedAtMostOnce(ss: seq<State>, es: seq<Event>, times: seq<int>, i: nat, j: nat)
    requires Run(ss, es, times) && i < |es| && j < |es| && es[i].Accept? && es[j].Accept? && es[i].p.id == es[j].p.id
    ensures i == j
  {
    if i < j {
      ConsumedStays(ss, es, times, i, j);
    } else if j < i {
      ConsumedStays(ss, es, times, j, i);
    }
  }

  lemma ConsumedStays(ss: seq<State>, es: seq<Event>, times: seq<int>, i: nat, j: nat)
    requires Run(ss, es, times) && i < j < |es| && es[i].Accept?
    ensures !(es[j].Accept? && es[j].p.id == es[i].p.id)
  {
    assert StepAt(ss, es, times, i) && StepAt(ss, es, times, j);
    AcceptConsumes(ss[i], es[i].p, times[i]);
    RunAfter(ss, es, times, i + 1, j);
    RunInv(ss, es, times, j);
  }

  lemma AcceptConsumes(s: State, p: Submission, now: int)
    requires Acceptable(s, p, now)
    ensures p.id in Accepted(s, p, now).consumed
  {
  }

  /** A challenge issued as a renewal, or for a scope below a read grant, is consumed by no other device. */
  lemma RenewalPinsDevice(ss: seq<State>, es: seq<Event>, times: seq<int>, i: nat, j: nat)
    requires Run(ss, es, times) && i < |es| && j < |es| && es[i].Issue? && es[j].Accept? && es[j].p.id == es[i].id
    ensures i < j
    ensures Subordinate(es[i].scope) ==>
              es[i].token in ss[i].read && es[j].p.device == ss[i].read[es[i].token].device
    ensures !Subordinate(es[i].scope) && es[i].previous.Some? ==>
              && es[i].previous.value in ss[i].challenges && ss[i].challenges[es[i].previous.value].result.Some?
              && es[j].p.device == ss[i].challenges[es[i].previous.value].result.value.device
  {
    assert StepAt(ss, es, times, i) && StepAt(ss, es, times, j);
    RunInv(ss, es, times, j);
    if j <= i {
      RunAfter(ss, es, times, j, i);
    } else {
      RunAfter(ss, es, times, i + 1, j);
      assert Same(ss[i + 1].challenges[es[i].id], ss[j].challenges[es[i].id]);
    }
  }

  /**
   * An upload begun under one write proof is usable only while that proof's grant is current; once
   * the grant is superseded or gone, no later state lets any session use the upload.
   */
  lemma SupersededUploadStaysUnusable(
    ss: seq<State>, es: seq<Event>, times: seq<int>, i: nat, j: nat, u: UploadId, token: Token, now: int)
    requires Run(ss, es, times) && i <= j < |ss| && u in ss[i].uploads
    requires !Current(ss[i], ss[i].uploads[u].session, FilesWrite, ss[i].uploads[u].grant)
    ensures !Owned(ss[j], u, token, now)
  {
    RunInv(ss, es, times, i);
    RunAfter(ss, es, times, i, j);
    var w := ss[i].uploads[u];
    assert Superseded(ss[i], w.session, FilesWrite, w.grant);
    assert Superseded(ss[j], w.session, FilesWrite, w.grant);
  }

  /** Likewise for a runner ticket and the run proof it was drawn under. */
  lemma SupersededTicketStaysUnusable(
    ss: seq<State>, es: seq<Event>, times: seq<int>, i: nat, j: nat, k: TicketId,
    device: nat, enrollment: nat, instance: nat, now: int)
    requires Run(ss, es, times) && i <= j < |ss| && k in ss[i].tickets
    requires !Current(ss[i], ss[i].tickets[k].session, CodeRun, ss[i].tickets[k].grant)
    ensures !Redeemable(ss[j], k, device, enrollment, instance, now)
  {
    RunInv(ss, es, times, i);
    RunAfter(ss, es, times, i, j);
    var t := ss[i].tickets[k];
    assert Superseded(ss[i], t.session, CodeRun, t.grant);
    assert Superseded(ss[j], t.session, CodeRun, t.grant);
  }

  /** A ticket yields at most one authorization in a whole run. */
  lemma TicketUsedAtMostOnce(ss: seq<State>, es: seq<Event>, times: seq<int>, i: nat, j: nat)
    requires Run(ss, es, times) && i < |es| && j < |es|
    requires es[i].UseTicket? && es[j].UseTicket? && es[i].ticket == es[j].ticket
    ensures i == j
  {
    if i < j {
      TicketGone(ss, es, times, i, j);
    } else if j < i {
      TicketGone(ss, es, times, j, i);
    }
  }

  lemma TicketGone(ss: seq<State>, es: seq<Event>, times: seq<int>, i: nat, j: nat)
    requires Run(ss, es, times) && i < j < |es| && es[i].UseTicket?
    ensures !(es[j].UseTicket? && es[j].ticket == es[i].ticket)
  {
    assert StepAt(ss, es, times, i) && StepAt(ss, es, times, j);
    RunInv(ss, es, times, i);
    var k := es[i].ticket;
    assert k in ss[i + 1].drawn && k !in ss[i + 1].tickets;
    RunAfter(ss, es, times, i + 1, j);
  }

  // ---------------------------------------------------------------- the handlers

  class BrowserAuth {
    var sessions: map<Token, Session>
    var challenges: map<ChallengeId, Challenge>
    var read: map<Token, ReadGrant>
    var sub: map<(Token, Scope), SubGrant>
    var uploads: map<UploadId, WebUpload>
    var tickets: map<TicketId, Ticket>
    var trusted: set<(nat, nat)>
    ghost var issued: set<ChallengeId>
    ghost var consumed: set<ChallengeId>
    ghost var begun: set<UploadId>
    ghost var drawn: set<TicketId>

    ghost function Value(): State
      reads this
    {
      State(sessions, challenges, read, sub, uploads, tickets, trusted, issued, consumed, begun, drawn)
    }

    constructor ()
      ensures Value() == EMPTY
    {
      sessions, challenges, read, sub, uploads, tickets := map[], map[], map[], map[], map[], map[];
      trusted, issued, consumed, begun, drawn := {}, {}, {}, {}, {};
    }

    /** Deletes session rows; the foreign keys cascade. */
    method DeleteSessions(dead: set<Token>)
      modifies this`sessions, this`challenges, this`read, this`sub, this`tickets
      ensures Value() == Without(old(Value()), dead)
    {
      sessions := sessions - dead;
      challenges := map c | c in challenges && challenges[c].session !in dead :: challenges[c];
      read := read - dead;
      sub := map k | k in sub && k.0 !in dead :: sub[k];
      tickets := map t | t in tickets && tickets[t].session !in dead :: tickets[t];
    }

    method PurgeSessions(now: int)
      modifies this`sessions, this`challenges, this`read, this`sub, this`tickets
      ensures Value() == Next(old(Value()), Purge, now)
    {
      DeleteSessions(set t | t in sessions && sessions[t].expiresAt <= now);
    }

    method LogoutSession(token: Token, now: int)
      modifies this`sessions, this`challenges, this`read, this`sub, this`tickets
      ensures Value() == Next(old(Value()), Logout(token), now)
    {
      DeleteSessions({token});
    }

    /** `issue_challenge`: purges, then issues for a live session; a failure rolls the purge back too. */
    method IssueChallenge(
      id: ChallengeId, token: Token, ticket: nat, scope: Scope, previous: Option<ChallengeId>, now: int)
      returns (ok: bool)
      requires id !in issued
      modifies this
      ensures var s, e := Next(old(Value()), Purge, now), Issue(id, token, ticket, scope, previous);
              ok == Enabled(s, e, now) && Value() == if ok then Next(s, e, now) else old(Value())
    {
      if token !in sessions || sessions[token].expiresAt <= now {
        return false;
      }
      var expected: Option<nat> := None;
      if previous.Some? {
        expected := VerifiedDevice(token, previous.value, now);
        if expected.None? {
          return false;
        }
      }
      if Subordinate(scope) {
        if token !in read || read[token].expiresAt <= now {
          return false;
        }
        expected := Some(read[token].device);
      }
      PurgeSessions(now);
      var expires := Min(now + CHALLENGE_SECONDS, sessions[token].expiresAt);
      challenges := challenges[id := Challenge(token, ticket, scope, expires, expected, None)];
      issued := issued + {id};
      ok := true;
    }

    /** The device behind a challenge of this session that was consumed a short while ago. */
    method VerifiedDevice(token: Token, id: ChallengeId, now: int) returns (device: Option<nat>)
      ensures device.Some? <==> Verified(Value(), token, id, now)
      ensures device.Some? ==> device.value == challenges[id].result.value.device
    {
      if id !in challenges || challenges[id].session != token || challenges[id].result.None? {
        return None;
      }
      var presence := challenges[id].result.value;
      return if presence.until > now && (presence.device, presence.enrollment) in trusted
        then Some(presence.device) else None;
    }

    /** The checks of `accept_proof` before it consumes the challenge. */
    method CheckProof(p: Submission, now: int) returns (ok: bool)
      ensures ok == Acceptable(Value(), p, now)
    {
      if (p.device, p.enrollment) !in trusted || p.id !in challenges {
        return false;
      }
      var c := challenges[p.id];
      if c.session !in sessions || sessions[c.session].binding != p.binding || sessions[c.session].expiresAt <= now {
        return false;
      }
      if c.expiresAt <= now || c.result.Some? || c.ticket != p.ticket || c.scope != p.scope {
        return false;
      }
      if c.expected.Some? && c.expected.value != p.device {
        return false;
      }
      ok := !Subordinate(p.scope) ||
        (c.session in read && read[c.session].device == p.device && read[c.session].enrollment == p.enrollment
         && read[c.session].expiresAt > now);
    }

    /** `accept_proof`: one transaction that consumes the challenge and writes the grants of its scope. */
    method AcceptProof(p: Submission, now: int) returns (ok: bool)
      requires Inv(Value())
      modifies this
      ensures ok == Enabled(old(Value()), Accept(p), now)
      ensures Value() == if ok then Next(old(Value()), Accept(p), now) else old(Value())
    {
      ok := CheckProof(p, now);
      if ok {
        var t := challenges[p.id].session;
        var until := Min(now + PRESENCE_SECONDS, sessions[t].expiresAt);
        challenges := challenges[p.id := challenges[p.id].(result := Some(Presence(p.device, p.enrollment, until)))];
        consumed := consumed + {p.id};
        if p.scope.FilesRead? {
          RenewRead(p, now);
        } else if Subordinate(p.scope) {
          sub := sub[(t, p.scope) := SubGrant(p.id, p.instance, read[t].expiresAt)];
        }
      }
    }

    /** The statements of a consumed read proof; the session is found by its unique binding. */
    method RenewRead(p: Submission, now: int)
      requires p.id in challenges && challenges[p.id].session in sessions
      requires sessions[challenges[p.id].session].binding == p.binding
      requires forall a, b | a in sessions && b in sessions && a != b :: sessions[a].binding != sessions[b].binding
      modifies this`sub, this`tickets, this`read, this`sessions
      ensures Value() == ReadProof(old(Value()), p, now)
    {
      var t := challenges[p.id].session;
      var expires := now + FILES_SESSION_SECONDS;
      sub := map k | k in sub && k.0 != t :: sub[k];
      tickets := map k | k in tickets && tickets[k].session != t :: tickets[k];
      read := read[t := ReadGrant(p.id, p.device, p.enrollment, expires)];
      var renewed := map k | k in sessions ::
        if sessions[k].binding == p.binding then sessions[k].(expiresAt := expires) else sessions[k];
      assert renewed == sessions[t := sessions[t].(expiresAt := expires)];
      sessions := renewed;
    }

    /**
     * `runner_authorize`: the ticket is deleted in the transaction that honours it, after a start
     * operation's file was found unchanged. `readable` holds the paths whose content is usable source.
     */
    method RunnerAuthorize(
      ticket: TicketId, device: nat, enrollment: nat, instance: nat, db: Tables.Db, readable: set<Path>, now: int)
      returns (operation: Option<Operation>)
      modifies this`tickets
      ensures operation.Some? <==>
                && Enabled(old(Value()), UseTicket(ticket, device, enrollment, instance), now)
                && Unchanged(db, readable, old(tickets)[ticket].operation)
      ensures operation.Some? ==>
                && operation.value == old(tickets)[ticket].operation
                && Value() == Next(old(Value()), UseTicket(ticket, device, enrollment, instance), now)
      ensures operation == None ==> Value() == old(Value())
    {
      if ticket !in tickets || tickets[ticket].expiresAt <= now {
        return None;
      }
      var t := tickets[ticket];
      if t.session !in sessions || sessions[t.session].expiresAt <= now || (t.session, CodeRun) !in sub {
        return None;
      }
      var g := sub[(t.session, CodeRun)];
      if g.challenge != t.grant || g.expiresAt <= now || g.instance != instance || t.session !in read {
        return None;
      }
      var r := read[t.session];
      if r.expiresAt <= now || r.device != device || r.enrollment != enrollment || (device, enrollment) !in trusted {
        return None;
      }
      if t.operation.Start? {
        var path := t.operation.path;
        if path !in readable || path !in db.entries || db.entries[path].Tombstone? {
          return None;
        }
        if db.entries[path].revision != t.operation.revision || db.entries[path].file.digest != t.operation.sha256 {
          return None;
        }
      }
      tickets := tickets - {ticket};
      operation := Some(t.operation);
    }
  }
}
