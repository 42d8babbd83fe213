/** What an enrollment's fields prove about the steps that led to them. */
module EnrollmentLaws {
  import opened Bytes
  import opened Enrollment

  // ---------------------------------------------------------------- what one step changes

  /** A step on one enrollment leaves all others alone; only a revocation or an invitation touches the names. */
  lemma OtherEnrollments(s: State, e: Event, now: int, id: Id)
    requires Enabled(s, e, now) && !e.Revoke? && id != e.id
    ensures var r := Next(s, e, now);
            && (id in r.rows <==> id in s.rows) && (id in r.rows ==> r.rows[id] == s.rows[id])
            && (!e.Invite? ==> r.revoked == s.revoked)
  {
  }

  lemma RevokedName(s: State, e: Event, now: int)
    requires Enabled(s, e, now) && e.Revoke?
    ensures Next(s, e, now).rows == s.rows && Next(s, e, now).revoked == s.revoked[e.name := true]
  {
  }

  lemma InvitedRow(s: State, e: Event, now: int)
    requires Enabled(s, e, now) && e.Invite?
    ensures var r := Next(s, e, now);
            && r.revoked == s.revoked[e.name := false] && e.id in r.rows
            && r.rows[e.id] == Row(e.name, e.invitation, now + 900, None, None, None, None, None)
  {
  }

  lemma BoundRow(s: State, e: Event, now: int)
    requires Enabled(s, e, now) && e.Bind?
    ensures e.id in s.rows && Next(s, e, now).rows[e.id]
         == s.rows[e.id].(key := Some(e.key), activation := Some(e.activation), challenge := Some(e.challenge))
  {
  }

  /** The first finish sets time and deadline; later ones change neither. */
  lemma FinishedRow(s: State, e: Event, now: int)
    requires Enabled(s, e, now) && e.Finish?
    ensures e.id in s.rows
    ensures var a, b := s.rows[e.id], Next(s, e, now).rows[e.id];
            && b.challenge == None && b.key == a.key && b.activation == a.activation && b.approvedAt == a.approvedAt
            && b.device == a.device && b.invitation == a.invitation
            && (a.verifiedAt == None ==> b.verifiedAt == Some(now) && b.expiresAt == now + 86400)
            && (a.verifiedAt != None ==> b.verifiedAt == a.verifiedAt && b.expiresAt == a.expiresAt)
  {
  }

  lemma ApprovedRow(s: State, e: Event, now: int)
    requires Enabled(s, e, now) && e.Approve?
    ensures e.id in s.rows && Next(s, e, now).rows[e.id]
         == s.rows[e.id].(approvedAt := Some(now), activation := None, challenge := None)
  {
  }

  lemma CancelledRow(s: State, e: Event, now: int)
    requires Enabled(s, e, now) && e.Cancel?
    ensures e.id in s.rows && Next(s, e, now).rows[e.id]
         == s.rows[e.id].(expiresAt := 0, activation := None, challenge := None)
  {
  }

  // ---------------------------------------------------------------- where fields come from

  lemma Before(ss: seq<State>, es: seq<Event>, times: seq<int>, j: nat)
    requires Run(ss, es, times) && 0 < j < |ss|
    ensures Enabled(ss[j - 1], es[j - 1], times[j - 1]) && Inv(ss[j - 1], times[j - 1])
    ensures ss[j] == Next(ss[j - 1], es[j - 1], times[j - 1])
  {
    RunInv(ss, es, times, j - 1, times[j - 1]);
    assert StepAt(ss, es, times, j - 1);
  }

  /** Which step can give a row its key, its secret, its verification or its approval. */
  lemma FieldStep(s: State, e: Event, now: int, id: Id)
    requires Inv(s, now) && Enabled(s, e, now) && id in Next(s, e, now).rows
    ensures var b := Next(s, e, now).rows[id];
            var same := id in s.rows;
            && (b.key.Some? ==> (same && s.rows[id].key == b.key) || (e.Bind? && e.id == id && Some(e.key) == b.key))
            && (b.activation.Some? ==>
                  || (same && s.rows[id].activation == b.activation)
                  || (e.Bind? && e.id == id && Some(e.activation) == b.activation))
            && (b.verifiedAt.Some? ==>
                  || (same && s.rows[id].verifiedAt == b.verifiedAt)
                  || (e.Finish? && e.id == id && b.verifiedAt == Some(now) && same
                      && s.rows[id].activation == Some(e.activation)))
            && (b.approvedAt.Some? ==>
                  || (same && s.rows[id].approvedAt == b.approvedAt)
                  || (e.Approve? && e.id == id && same && s.rows[id].verifiedAt.Some? && s.rows[id].key.Some?
                      && s.rows[id].key.value.fingerprint == e.fingerprint && now < s.rows[id].expiresAt
                      && !IsRevoked(s, s.rows[id].device)))
  {
  }

  /** A key was bound by a step that named it. */
  lemma {:induction false} KeyWasBound(ss: seq<State>, es: seq<Event>, times: seq<int>, j: nat, id: Id) returns (i: nat)
    requires Run(ss, es, times) && j < |ss| && id in ss[j].rows && ss[j].rows[id].key.Some?
    ensures i < j && es[i].Bind? && es[i].id == id && Some(es[i].key) == ss[j].rows[id].key
  {
    assert j > 0;
    Before(ss, es, times, j);
    FieldStep(ss[j - 1], es[j - 1], times[j - 1], id);
    if id in ss[j - 1].rows && ss[j - 1].rows[id].key == ss[j].rows[id].key {
      i := KeyWasBound(ss, es, times, j - 1, id);
    } else {
      i := j - 1;
    }
  }

  lemma {:induction false} SecretWasBound(ss: seq<State>, es: seq<Event>, times: seq<int>, j: nat, id: Id)
    returns (i: nat)
    requires Run(ss, es, times) && j < |ss| && id in ss[j].rows && ss[j].rows[id].activation.Some?
    ensures i < j && es[i].Bind? && es[i].id == id && Some(es[i].activation) == ss[j].rows[id].activation
  {
    assert j > 0;
    Before(ss, es, times, j);
    FieldStep(ss[j - 1], es[j - 1], times[j - 1], id);
    if id in ss[j - 1].rows && ss[j - 1].rows[id].activation == ss[j].rows[id].activation {
      i := SecretWasBound(ss, es, times, j - 1, id);
    } else {
      i := j - 1;
    }
  }

  /** A verified enrollment was finished, at that time, with the very secret that its key binding made. */
  lemma {:induction false} VerifiedWithSecret(ss: seq<State>, es: seq<Event>, times: seq<int>, j: nat, id: Id)
    returns (i: nat, k: nat)
    requires Run(ss, es, times) && j < |ss| && id in ss[j].rows && ss[j].rows[id].verifiedAt.Some?
    ensures i < k < j && es[i].Bind? && es[i].id == id && es[k].Finish? && es[k].id == id
    ensures es[k].activation == es[i].activation && ss[j].rows[id].verifiedAt == Some(times[k])
  {
    assert j > 0;
    Before(ss, es, times, j);
    FieldStep(ss[j - 1], es[j - 1], times[j - 1], id);
    if id in ss[j - 1].rows && ss[j - 1].rows[id].verifiedAt == ss[j].rows[id].verifiedAt {
      i, k := VerifiedWithSecret(ss, es, times, j - 1, id);
    } else {
      k := j - 1;
      i := SecretWasBound(ss, es, times, k, id);
    }
  }

  /** An approved enrollment was approved under the fingerprint of its key, verified, in time and unrevoked. */
  lemma {:induction false} ApprovedUnderFingerprint(
    ss: seq<State>, es: seq<Event>, times: seq<int>, j: nat, id: Id) returns (i: nat, k: nat)
    requires Run(ss, es, times) && j < |ss| && id in ss[j].rows && ss[j].rows[id].approvedAt.Some?
    ensures i < k < j && es[i].Bind? && es[i].id == id && es[k].Approve? && es[k].id == id
    ensures es[k].fingerprint == es[i].key.fingerprint && ss[j].rows[id].key == Some(es[i].key)
    ensures id in ss[k].rows && ss[k].rows[id].verifiedAt.Some? && times[k] < ss[k].rows[id].expiresAt
    ensures !IsRevoked(ss[k], ss[k].rows[id].device)
  {
    assert j > 0;
    Before(ss, es, times, j);
    FieldStep(ss[j - 1], es[j - 1], times[j - 1], id);
    if id in ss[j - 1].rows && ss[j - 1].rows[id].approvedAt == ss[j].rows[id].approvedAt {
      i, k := ApprovedUnderFingerprint(ss, es, times, j - 1, id);
      KeyNeverChanges(ss, es, times, j - 1, j, id);
    } else {
      k := j - 1;
      i := KeyWasBound(ss, es, times, k, id);
      KeyNeverChanges(ss, es, times, k, j, id);
    }
  }

  // ---------------------------------------------------------------- what is final

  /** Cancelled: not approved, and its time is over for good. */
  predicate Dead(s: State, id: Id) {
    id in s.rows && s.rows[id].approvedAt == None && s.rows[id].expiresAt <= 0
  }

  lemma DeadStep(s: State, e: Event, now: int, id: Id)
    requires Inv(s, now) && Enabled(s, e, now) && Dead(s, id)
    ensures Dead(Next(s, e, now), id)
    ensures (e.Bind? || e.Finish? || e.Approve?) ==> e.id != id
  {
  }

  /** A cancelled enrollment is never bound, finished or approved afterwards. */
  lemma {:induction false} CancelledIsFinal(ss: seq<State>, es: seq<Event>, times: seq<int>, i: nat, j: nat)
    requires Run(ss, es, times) && i < j < |ss| && es[i].Cancel?
    ensures Dead(ss[j], es[i].id)
    ensures j < |es| && (es[j].Bind? || es[j].Finish? || es[j].Approve?) ==> es[j].id != es[i].id
    decreases j
  {
    if i < j - 1 {
      CancelledIsFinal(ss, es, times, i, j - 1);
      DeadNext(ss, es, times, j - 1, es[i].id);
    } else {
      Before(ss, es, times, j);
      CancelledRow(ss[i], es[i], times[i]);
      CancelledIsDead(ss[i], es[i], times[i]);
    }
    if j < |es| {
      DeadNext(ss, es, times, j, es[i].id);
    }
  }

  lemma CancelledIsDead(s: State, e: Event, now: int)
    requires Enabled(s, e, now) && e.Cancel?
    ensures Dead(Next(s, e, now), e.id)
  {
  }

  lemma DeadNext(ss: seq<State>, es: seq<Event>, times: seq<int>, j: nat, id: Id)
    requires Run(ss, es, times) && j < |es| && Dead(ss[j], id)
    ensures Dead(ss[j + 1], id)
    ensures (es[j].Bind? || es[j].Finish? || es[j].Approve?) ==> es[j].id != id
  {
    Before(ss, es, times, j + 1);
    DeadStep(ss[j], es[j], times[j], id);
  }

  /** After a revocation no enrollment of that name is invited, bound, finished or approved. */
  lemma RevokedIsFinal(ss: seq<State>, es: seq<Event>, times: seq<int>, i: nat, j: nat)
    requires Run(ss, es, times) && i < j < |es| && es[i].Revoke?
    ensures es[j].Invite? ==> es[j].name != es[i].name
    ensures es[j].Bind? || es[j].Finish? || es[j].Approve? ==>
              es[j].id in ss[j].rows && ss[j].rows[es[j].id].device != es[i].name
  {
    Before(ss, es, times, i + 1);
    RevokedName(ss[i], es[i], times[i]);
    RunAfter(ss, es, times, i + 1, j);
    Before(ss, es, times, j + 1);
    assert IsRevoked(ss[i + 1], es[i].name);
  }
}
