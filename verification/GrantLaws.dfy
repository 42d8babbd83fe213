/** Where grants, uploads and tickets come from: every one rests on steps earlier in the run. */
module GrantLaws {
  import opened Bytes
  import opened Grants

  // ---------------------------------------------------------------- what one proof does

  /** A proof is accepted exactly for a pending challenge of a live session, by a device it is meant for. */
  lemma AcceptableExactly(s: State, p: Submission, now: int)
    ensures Enabled(s, Accept(p), now) <==>
              && (p.device, p.enrollment) in s.trusted && p.id in s.challenges
              && var c := s.challenges[p.id];
              && c.result == None && now < c.expiresAt && c.ticket == p.ticket && c.scope == p.scope
              && (c.expected == None || c.expected == Some(p.device))
              && c.session in s.sessions && now < s.sessions[c.session].expiresAt
              && s.sessions[c.session].binding == p.binding
              && (p.scope != StatusRead && p.scope != FilesRead ==>
                    && c.session in s.read && now < s.read[c.session].expiresAt
                    && s.read[c.session].device == p.device && s.read[c.session].enrollment == p.enrollment)
  {
  }

  /** Only the consumed challenge changes, and records who proved. */
  lemma AcceptRecords(s: State, p: Submission, now: int)
    requires Enabled(s, Accept(p), now)
    ensures p.id in s.challenges
    ensures var r, c := Next(s, Accept(p), now), s.challenges[p.id];
            && c.session in s.sessions && r.challenges.Keys == s.challenges.Keys
            && (forall k | k in r.challenges && k != p.id :: r.challenges[k] == s.challenges[k])
            && r.challenges[p.id].result == Some(Presence(
                 p.device, p.enrollment, Min(now + 120, s.sessions[c.session].expiresAt)))
            && r.challenges[p.id] == c.(result := r.challenges[p.id].result)
            && r.trusted == s.trusted && r.uploads == s.uploads
  {
  }

  /** A status proof grants nothing. */
  lemma StatusProofGrantsNothing(s: State, p: Submission, now: int)
    requires Enabled(s, Accept(p), now) && p.scope == StatusRead
    ensures var r := Next(s, Accept(p), now);
            r.sub == s.sub && r.read == s.read && r.sessions == s.sessions && r.tickets == s.tickets
  {
  }

  /** A write, manage, edit or run proof grants exactly that scope to its session, until its read grant ends. */
  lemma ScopeProofGrantsItsScope(s: State, p: Submission, now: int)
    requires Enabled(s, Accept(p), now) && p.scope != StatusRead && p.scope != FilesRead
    ensures var r, t := Next(s, Accept(p), now), s.challenges[p.id].session;
            && t in s.read
            && r.sub == s.sub[(t, p.scope) := SubGrant(p.id, p.instance, s.read[t].expiresAt)]
            && r.read == s.read && r.sessions == s.sessions && r.tickets == s.tickets
  {
  }

  /** A read proof opens half an hour for its session, and leaves every other session alone. */
  lemma ReadProofOpensSession(s: State, p: Submission, now: int)
    requires Enabled(s, Accept(p), now) && p.scope == FilesRead
    ensures var r, t := Next(s, Accept(p), now), s.challenges[p.id].session;
            && t in s.sessions
            && r.read == s.read[t := ReadGrant(p.id, p.device, p.enrollment, now + 1800)]
            && r.sessions == s.sessions[t := Session(s.sessions[t].binding, now + 1800)]
            && (forall k :: k in r.sub <==> k in s.sub && k.0 != t)
            && (forall k | k in r.sub :: r.sub[k] == s.sub[k])
            && (forall k :: k in r.tickets <==> k in s.tickets && s.tickets[k].session != t)
            && (forall k | k in r.tickets :: r.tickets[k] == s.tickets[k])
  {
  }

  // ---------------------------------------------------------------- what the other steps do

  /** A challenge is issued beside all others, for a minute at most, and never outlives its session. */
  lemma IssueAddsOneChallenge(s: State, e: Event, now: int)
    requires Enabled(s, e, now) && e.Issue?
    ensures e.token in s.sessions
    ensures var r, c := Next(s, e, now), Next(s, e, now).challenges[e.id];
            && r == s.(challenges := s.challenges[e.id := c], issued := s.issued + {e.id})
            && c.session == e.token && c.ticket == e.ticket && c.scope == e.scope && c.result == None
            && c.expiresAt == Min(now + 60, s.sessions[e.token].expiresAt)
            && (e.previous.Some? && (e.scope == StatusRead || e.scope == FilesRead) ==>
                  && e.previous.value in s.challenges && s.challenges[e.previous.value].session == e.token
                  && s.challenges[e.previous.value].result.Some?
                  && now < s.challenges[e.previous.value].result.value.until
                  && (s.challenges[e.previous.value].result.value.device,
                      s.challenges[e.previous.value].result.value.enrollment) in s.trusted
                  && c.expected == Some(s.challenges[e.previous.value].result.value.device))
  {
  }

  /** Drawing a ticket adds it, and takes only expired ones away. */
  lemma DrawAddsOneTicket(s: State, e: Event, now: int)
    requires Enabled(s, e, now) && e.DrawTicket?
    ensures var r := Next(s, e, now);
            && r == s.(tickets := r.tickets, drawn := s.drawn + {e.ticket}) && e.ticket in r.tickets
            && r.tickets[e.ticket].session == e.token && r.tickets[e.ticket].operation == e.operation
            && (forall k | k != e.ticket :: k in r.tickets <==> k in s.tickets && now < s.tickets[k].expiresAt)
            && (forall k | k in r.tickets && k != e.ticket :: r.tickets[k] == s.tickets[k])
  {
  }

  /** Using a ticket takes that ticket, and nothing else. */
  lemma UseTakesOneTicket(s: State, e: Event, now: int)
    requires Enabled(s, e, now) && e.UseTicket?
    ensures var r := Next(s, e, now);
            && r == s.(tickets := r.tickets)
            && (forall k :: k in r.tickets <==> k in s.tickets && k != e.ticket)
            && (forall k | k in r.tickets :: r.tickets[k] == s.tickets[k])
  {
  }

  lemma BeginAddsOneUpload(s: State, e: Event, now: int)
    requires Enabled(s, e, now) && e.BeginUpload?
    ensures (e.token, FilesWrite) in s.sub
    ensures Next(s, e, now) == s.(
              uploads := s.uploads[e.upload := WebUpload(e.token, s.sub[(e.token, FilesWrite)].challenge)],
              begun := s.begun + {e.upload})
  {
  }

  /** A new session lasts five minutes and starts with no grant of any kind. */
  lemma SessionStarts(s: State, e: Event, now: int)
    requires Inv(s) && Enabled(s, e, now) && e.NewSession?
    ensures var r := Next(s, e, now);
            && r == s.(sessions := s.sessions[e.token := Session(e.binding, now + 300)])
            && e.token !in r.read && (forall scope :: (e.token, scope) !in r.sub)
            && (forall c | c in r.challenges :: r.challenges[c].session != e.token)
  {
  }

  /** A device that is not trusted any more cannot prove, be renewed, or use what it opened. */
  lemma DistrustEndsUse(s: State, device: nat, now: int, t: Token, scope: Scope, p: Submission)
    ensures var r := Next(s, Distrust(device), now);
            && r == s.(trusted := r.trusted) && (forall k :: k in r.trusted <==> k in s.trusted && k.0 != device)
            && (t in r.read && r.read[t].device == device ==> !MayUse(r, t, scope, now))
            && (p.device == device ==> !Enabled(r, Accept(p), now))
  {
  }

  /** Expired sessions go, and only those. */
  lemma PurgeTakesExpired(s: State, now: int)
    ensures var r := Next(s, Purge, now);
            && (forall t :: t in r.sessions <==> t in s.sessions && now < s.sessions[t].expiresAt)
            && (forall t | t in r.sessions :: r.sessions[t] == s.sessions[t])
            && (forall c :: c in r.challenges <==>
                  c in s.challenges && !(s.challenges[c].session in s.sessions
                                         && s.sessions[s.challenges[c].session].expiresAt <= now))
            && (forall c | c in r.challenges :: r.challenges[c] == s.challenges[c])
            && r.uploads == s.uploads
  {
  }

  // ---------------------------------------------------------------- where rows come from

  lemma Before(ss: seq<State>, es: seq<Event>, times: seq<int>, j: nat)
    requires Run(ss, es, times) && 0 < j < |ss|
    ensures Inv(ss[j - 1]) && Enabled(ss[j - 1], es[j - 1], times[j - 1])
    ensures ss[j] == Next(ss[j - 1], es[j - 1], times[j - 1])
  {
    RunInv(ss, es, times, j - 1);
    assert StepAt(ss, es, times, j - 1);
  }

  /** A challenge as it was issued. */
  predicate Issued(c: Challenge, id: ChallengeId, s: State, e: Event, now: int) {
    && e.Issue? && e.id == id && c.session == e.token && c.ticket == e.ticket && c.scope == e.scope
    && c.expiresAt <= now + 60 && e.token in s.sessions && now < s.sessions[e.token].expiresAt
    && (e.scope != StatusRead && e.scope != FilesRead ==>
          e.token in s.read && now < s.read[e.token].expiresAt && c.expected == Some(s.read[e.token].device))
  }

  lemma NewChallenge(s: State, e: Event, now: int, id: ChallengeId)
    requires Inv(s) && Enabled(s, e, now) && id in Next(s, e, now).challenges
    ensures var c := Next(s, e, now).challenges[id];
            || (id in s.challenges && c == s.challenges[id].(result := c.result))
            || (id !in s.challenges && Issued(c, id, s, e, now))
  {
    if e.Accept? {
      AcceptRecords(s, e.p, now);
    } else if !e.Issue? {
      SameChallenge(s, e, now, id);
    }
  }

  lemma SameChallenge(s: State, e: Event, now: int, id: ChallengeId)
    requires Enabled(s, e, now) && !e.Accept? && !e.Issue? && id in Next(s, e, now).challenges
    ensures id in s.challenges && Next(s, e, now).challenges[id] == s.challenges[id]
  {
  }

  lemma {:induction false} ChallengeIssued(ss: seq<State>, es: seq<Event>, times: seq<int>, j: nat, id: ChallengeId)
    returns (i: nat)
    requires Run(ss, es, times) && j < |ss| && id in ss[j].challenges
    ensures i < j && Issued(ss[j].challenges[id], id, ss[i], es[i], times[i])
  {
    assert j > 0;
    Before(ss, es, times, j);
    NewChallenge(ss[j - 1], es[j - 1], times[j - 1], id);
    if id in ss[j - 1].challenges {
      i := ChallengeIssued(ss, es, times, j - 1, id);
    } else {
      i := j - 1;
    }
  }

  /** A grant as an accepted proof of its scope made it. */
  predicate Proved(g: SubGrant, t: Token, scope: Scope, s: State, e: Event) {
    && e.Accept? && e.p.scope == scope && e.p.id == g.challenge && e.p.instance == g.instance
    && e.p.id in s.challenges && s.challenges[e.p.id].session == t && s.challenges[e.p.id].scope == scope
    && t in s.read && s.read[t].device == e.p.device && s.read[t].enrollment == e.p.enrollment
    && (e.p.device, e.p.enrollment) in s.trusted
  }

  lemma SameGrants(s: State, e: Event, now: int)
    requires Enabled(s, e, now) && !e.Accept?
    ensures forall k | k in Next(s, e, now).sub :: k in s.sub && Next(s, e, now).sub[k] == s.sub[k]
    ensures forall t | t in Next(s, e, now).read :: t in s.read && Next(s, e, now).read[t] == s.read[t]
  {
  }

  lemma NewGrant(s: State, e: Event, now: int, t: Token, scope: Scope)
    requires Inv(s) && Enabled(s, e, now) && (t, scope) in Next(s, e, now).sub
    ensures var g := Next(s, e, now).sub[(t, scope)];
            ((t, scope) in s.sub && g == s.sub[(t, scope)]) || Proved(g, t, scope, s, e)
  {
    if !e.Accept? {
      SameGrants(s, e, now);
    } else if e.p.scope == StatusRead {
      StatusProofGrantsNothing(s, e.p, now);
    } else if e.p.scope == FilesRead {
      ReadProofOpensSession(s, e.p, now);
    } else {
      ScopeProofGrantsItsScope(s, e.p, now);
    }
  }

  /** Every grant rests on an earlier accepted proof of that same scope, of a challenge issued to that session. */
  lemma {:induction false} GrantsAreProved(
    ss: seq<State>, es: seq<Event>, times: seq<int>, j: nat, t: Token, scope: Scope) returns (k: nat, i: nat)
    requires Run(ss, es, times) && j < |ss| && (t, scope) in ss[j].sub
    ensures i < k < j && Proved(ss[j].sub[(t, scope)], t, scope, ss[k], es[k])
    ensures es[i].Issue? && es[i].id == es[k].p.id && es[i].token == t && es[i].scope == scope
    ensures times[k] < times[i] + 60
  {
    assert j > 0;
    Before(ss, es, times, j);
    NewGrant(ss[j - 1], es[j - 1], times[j - 1], t, scope);
    if (t, scope) in ss[j - 1].sub && ss[j].sub[(t, scope)] == ss[j - 1].sub[(t, scope)] {
      k, i := GrantsAreProved(ss, es, times, j - 1, t, scope);
    } else {
      k := j - 1;
      i := ChallengeIssued(ss, es, times, k, es[k].p.id);
    }
  }

  predicate ReadProved(g: ReadGrant, t: Token, s: State, e: Event, now: int) {
    && e.Accept? && e.p.scope == FilesRead && e.p.id in s.challenges && s.challenges[e.p.id].session == t
    && g == ReadGrant(e.p.id, e.p.device, e.p.enrollment, now + 1800) && (e.p.device, e.p.enrollment) in s.trusted
  }

  lemma NewRead(s: State, e: Event, now: int, t: Token)
    requires Inv(s) && Enabled(s, e, now) && t in Next(s, e, now).read
    ensures var g := Next(s, e, now).read[t]; (t in s.read && g == s.read[t]) || ReadProved(g, t, s, e, now)
  {
    if !e.Accept? {
      SameGrants(s, e, now);
    } else if e.p.scope == StatusRead {
      StatusProofGrantsNothing(s, e.p, now);
    } else if e.p.scope == FilesRead {
      ReadProofOpensSession(s, e.p, now);
    } else {
      ScopeProofGrantsItsScope(s, e.p, now);
    }
  }

  /** Every read grant rests on a read proof of its session, by its device, at most half an hour before it ends. */
  lemma {:induction false} ReadGrantsAreProved(ss: seq<State>, es: seq<Event>, times: seq<int>, j: nat, t: Token)
    returns (k: nat)
    requires Run(ss, es, times) && j < |ss| && t in ss[j].read
    ensures k < j && ReadProved(ss[j].read[t], t, ss[k], es[k], times[k])
  {
    assert j > 0;
    Before(ss, es, times, j);
    NewRead(ss[j - 1], es[j - 1], times[j - 1], t);
    if t in ss[j - 1].read && ss[j].read[t] == ss[j - 1].read[t] {
      k := ReadGrantsAreProved(ss, es, times, j - 1, t);
    } else {
      k := j - 1;
    }
  }

  /** Session, read grant and the scope's grant all last, and the device is trusted. */
  predicate MayUse(s: State, t: Token, scope: Scope, now: int) {
    && t in s.sessions && now < s.sessions[t].expiresAt
    && t in s.read && now < s.read[t].expiresAt && (s.read[t].device, s.read[t].enrollment) in s.trusted
    && (t, scope) in s.sub && now < s.sub[(t, scope)].expiresAt
  }

  /** Uploads and tickets are begun exactly by sessions that may write or run. */
  lemma UseNeedsGrants(s: State, t: Token, now: int, u: UploadId, k: TicketId, operation: Operation)
    requires u !in s.begun && k !in s.drawn
    ensures Enabled(s, BeginUpload(u, t), now) <==> MayUse(s, t, FilesWrite, now)
    ensures Enabled(s, DrawTicket(k, t, operation), now) <==> MayUse(s, t, CodeRun, now)
  {
  }

  /** A session may use a scope only after two proofs of one trusted device: to read, and for that scope. */
  lemma UseIsProved(ss: seq<State>, es: seq<Event>, times: seq<int>, j: nat, t: Token, scope: Scope, now: int)
    returns (a: nat, b: nat)
    requires Run(ss, es, times) && j < |ss| && MayUse(ss[j], t, scope, now)
    ensures a < j && ReadProved(ss[j].read[t], t, ss[a], es[a], times[a]) && now < times[a] + 1800
    ensures b < j && Proved(ss[j].sub[(t, scope)], t, scope, ss[b], es[b])
    ensures (es[a].p.device, es[a].p.enrollment) in ss[j].trusted
  {
    a := ReadGrantsAreProved(ss, es, times, j, t);
    var i;
    b, i := GrantsAreProved(ss, es, times, j, t, scope);
  }

  // ---------------------------------------------------------------- uploads and tickets

  lemma NewUse(s: State, e: Event, now: int)
    requires Inv(s) && Enabled(s, e, now)
    ensures var r := Next(s, e, now);
            && (forall u | u in r.uploads :: (u in s.uploads && r.uploads[u] == s.uploads[u])
                 || (e.BeginUpload? && e.upload == u && r.uploads[u].session == e.token
                     && MayUse(s, e.token, FilesWrite, now)
                     && r.uploads[u].grant == s.sub[(e.token, FilesWrite)].challenge))
            && (forall k | k in r.tickets :: (k in s.tickets && r.tickets[k] == s.tickets[k])
                 || (e.DrawTicket? && e.ticket == k && MayUse(s, e.token, CodeRun, now)
                     && r.tickets[k]
                     == Ticket(e.token, s.sub[(e.token, CodeRun)].challenge, e.operation, now + 15)))
  {
  }

  /** A web upload was begun by its session under the write grant that it names. */
  lemma {:induction false} UploadWasBegun(ss: seq<State>, es: seq<Event>, times: seq<int>, j: nat, u: UploadId)
    returns (i: nat)
    requires Run(ss, es, times) && j < |ss| && u in ss[j].uploads
    ensures i < j && es[i].BeginUpload? && es[i].upload == u && ss[j].uploads[u].session == es[i].token
    ensures MayUse(ss[i], es[i].token, FilesWrite, times[i])
    ensures ss[j].uploads[u].grant == ss[i].sub[(es[i].token, FilesWrite)].challenge
  {
    assert j > 0;
    Before(ss, es, times, j);
    NewUse(ss[j - 1], es[j - 1], times[j - 1]);
    if u in ss[j - 1].uploads && ss[j].uploads[u] == ss[j - 1].uploads[u] {
      i := UploadWasBegun(ss, es, times, j - 1, u);
    } else {
      i := j - 1;
    }
  }

  lemma {:induction false} TicketWasDrawn(ss: seq<State>, es: seq<Event>, times: seq<int>, j: nat, k: TicketId)
    returns (i: nat)
    requires Run(ss, es, times) && j < |ss| && k in ss[j].tickets
    ensures i < j && es[i].DrawTicket? && es[i].ticket == k && MayUse(ss[i], es[i].token, CodeRun, times[i])
    ensures ss[j].tickets[k]
         == Ticket(es[i].token, ss[i].sub[(es[i].token, CodeRun)].challenge, es[i].operation, times[i] + 15)
  {
    assert j > 0;
    Before(ss, es, times, j);
    NewUse(ss[j - 1], es[j - 1], times[j - 1]);
    if k in ss[j - 1].tickets && ss[j].tickets[k] == ss[j - 1].tickets[k] {
      i := TicketWasDrawn(ss, es, times, j - 1, k);
    } else {
      i := j - 1;
    }
  }

  /**
   * A ticket is honoured only within fifteen seconds of its drawing, for the trusted device that holds
   * the session's read grant, on the instance of the same run proof that it was drawn under.
   */
  lemma TicketIsHonouredForItsReader(ss: seq<State>, es: seq<Event>, times: seq<int>, j: nat) returns (i: nat)
    requires Run(ss, es, times) && j < |es| && es[j].UseTicket?
    ensures i < j && es[i].DrawTicket? && es[i].ticket == es[j].ticket && times[j] < times[i] + 15
    ensures MayUse(ss[i], es[i].token, CodeRun, times[i]) && MayUse(ss[j], es[i].token, CodeRun, times[j])
    ensures var t := es[i].token;
            && ss[j].read[t].device == es[j].device && ss[j].read[t].enrollment == es[j].enrollment
            && (es[j].device, es[j].enrollment) in ss[j].trusted
            && ss[j].sub[(t, CodeRun)].instance == es[j].instance
            && ss[j].sub[(t, CodeRun)].challenge == ss[i].sub[(t, CodeRun)].challenge
            && es[j].ticket in ss[j].tickets && ss[j].tickets[es[j].ticket].operation == es[i].operation
  {
    assert StepAt(ss, es, times, j);
    i := TicketWasDrawn(ss, es, times, j, es[j].ticket);
  }

  /** And it is honoured whenever all that holds. */
  lemma TicketIsHonoured(s: State, k: TicketId, device: nat, enrollment: nat, instance: nat, now: int)
    requires k in s.tickets && now < s.tickets[k].expiresAt && MayUse(s, s.tickets[k].session, CodeRun, now)
    requires var t := s.tickets[k].session;
             && s.read[t].device == device && s.read[t].enrollment == enrollment
             && s.sub[(t, CodeRun)].instance == instance && s.sub[(t, CodeRun)].challenge == s.tickets[k].grant
    ensures Enabled(s, UseTicket(k, device, enrollment, instance), now)
  {
  }

  /** An owner may use an upload exactly while it may write under the proof that the upload was begun under. */
  lemma OwnedExactly(s: State, u: UploadId, t: Token, now: int)
    ensures Owned(s, u, t, now) <==>
              && MayUse(s, t, FilesWrite, now) && u in s.uploads && s.uploads[u].session == t
              && s.uploads[u].grant == s.sub[(t, FilesWrite)].challenge
  {
  }
}
