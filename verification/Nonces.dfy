/** Replay protection of signed requests: freshness check first, nonce recorded some time later. */
module Nonces {
  import opened Bytes
  import TpmArea

  const PAST := 60
  const FUTURE := 30
  const LIFETIME := 120

  datatype Proof = Proof(device: nat, nonce: bytes, issuedAt: int)

  type Key = (nat, bytes)
  type Table = map<Key, int>

  function KeyOf(p: Proof): Key {
    (p.device, p.nonce)
  }

  /** `verify_binding`: the window, and the form of the nonce. */
  predicate Fresh(p: Proof, now: int) {
    now - PAST <= p.issuedAt <= now + FUTURE && |p.nonce| == 64 && forall i | 0 <= i < 64 :: HexDigit(p.nonce[i])
  }

  predicate HexDigit(b: byte) {
    48 <= b <= 57 || 97 <= b <= 102 || 65 <= b <= 70
  }

  /** A proof is fresh from 30 seconds before its time to 60 seconds after, if its nonce encodes 32 bytes. */
  lemma FreshExactly(p: Proof, now: int)
    ensures Fresh(p, now) <==>
              && p.issuedAt - 30 <= now <= p.issuedAt + 60
              && TpmArea.Unhex(p.nonce).Some? && |TpmArea.Unhex(p.nonce).value| == 32
  {
    TpmArea.UnhexExactly(p.nonce);
    TpmArea.UnhexLength(p.nonce);
  }

  function Unexpired(t: Table, now: int): Table {
    map k | k in t && t[k] > now :: t[k]
  }

  /** A request that passed its freshness check: when it checked, and the two clock reads of its insertion. */
  datatype Attempt = Attempt(proof: Proof, checkedAt: int, purgedAt: int, insertedAt: int)

  function Accepts(t: Table, a: Attempt): bool {
    KeyOf(a.proof) !in Unexpired(t, a.purgedAt)
  }

  function Recorded(t: Table, a: Attempt): Table {
    var kept := Unexpired(t, a.purgedAt);
    if Accepts(t, a) then kept[KeyOf(a.proof) := a.insertedAt + LIFETIME] else kept
  }

  class NonceStore {
    var nonces: Table

    constructor ()
      ensures nonces == map[]
    {
      nonces := map[];
    }

    /** `record_proof_nonce`: purge, then insert or ignore. */
    method Record(a: Attempt) returns (accepted: bool)
      modifies this
      ensures nonces == Recorded(old(nonces), a) && accepted == Accepts(old(nonces), a)
    {
      nonces := map k | k in nonces && nonces[k] > a.purgedAt :: nonces[k];
      accepted := KeyOf(a.proof) !in nonces;
      if accepted {
        nonces := nonces[KeyOf(a.proof) := a.insertedAt + LIFETIME];
      }
    }
  }

  // ---------------------------------------------------------------- runs

  /** The table after the first k attempts. */
  ghost function TableAt(log: seq<Attempt>, k: nat): Table
    requires k <= |log|
  {
    if k == 0 then map[] else Recorded(TableAt(log, k - 1), log[k - 1])
  }

  ghost predicate Admitted(log: seq<Attempt>, k: nat)
    requires k < |log|
  {
    Accepts(TableAt(log, k), log[k])
  }

  /** Fresh proofs, a clock that never goes back, and a bound on the time from check to insertion. */
  ghost predicate Timed(log: seq<Attempt>, delay: int) {
    && (forall i | 0 <= i < |log| ::
          && Fresh(log[i].proof, log[i].checkedAt) && log[i].checkedAt <= log[i].purgedAt <= log[i].insertedAt
          && log[i].purgedAt < log[i].checkedAt + delay)
    && (forall i, j | 0 <= i < j < |log| :: log[i].insertedAt <= log[j].purgedAt)
  }

  /** A recorded nonce stays until its lifetime has passed. */
  lemma {:induction false} NonceStays(log: seq<Attempt>, i: nat, k: nat)
    requires i < k <= |log| && Admitted(log, i)
    requires forall m | i < m < k :: log[m].purgedAt < log[i].insertedAt + LIFETIME
    ensures var key := KeyOf(log[i].proof);
            key in TableAt(log, k) && TableAt(log, k)[key] == log[i].insertedAt + LIFETIME
  {
    if k > i + 1 {
      NonceStays(log, i, k - 1);
    }
  }

  /** One signed proof is admitted at most once in any run. */
  lemma AdmittedAtMostOnce(log: seq<Attempt>, i: nat, j: nat)
    requires Timed(log, 30) && i < j < |log| && log[i].proof == log[j].proof
    ensures !(Admitted(log, i) && Admitted(log, j))
  {
    if Admitted(log, i) {
      forall m | i < m <= j
        ensures log[m].purgedAt < log[i].insertedAt + LIFETIME
      {
        assert m < j ==> log[m].insertedAt <= log[j].purgedAt;
        assert Fresh(log[i].proof, log[i].checkedAt) && Fresh(log[j].proof, log[j].checkedAt);
      }
      NonceStays(log, i, j);
    }
  }

  /** A proof that was not presented before is admitted: protection refuses nothing else. */
  lemma {:induction false} UnseenNotRecorded(log: seq<Attempt>, k: nat, key: Key)
    requires k <= |log| && forall i | 0 <= i < k :: KeyOf(log[i].proof) != key
    ensures key !in TableAt(log, k)
  {
    if k > 0 {
      UnseenNotRecorded(log, k - 1, key);
    }
  }

  lemma FirstUseIsAdmitted(log: seq<Attempt>, k: nat)
    requires k < |log|
    requires forall i | 0 <= i < k ::
               log[i].proof.device != log[k].proof.device || log[i].proof.nonce != log[k].proof.nonce
    ensures Admitted(log, k)
  {
    UnseenNotRecorded(log, k, KeyOf(log[k].proof));
  }

  ghost predicate Replayed(log: seq<Attempt>) {
    exists i, j :: 0 <= i < j < |log| && log[i].proof == log[j].proof && Admitted(log, i) && Admitted(log, j)
  }

  /** A proof issued 30 seconds ahead, checked at once, and checked again after 90 seconds but inserted 30 later. */
  ghost function LateReplay(): seq<Attempt> {
    var p := Proof(1, seq(64, _ => 48), FUTURE);
    [Attempt(p, 0, 0, 0), Attempt(p, FUTURE + PAST, LIFETIME, LIFETIME)]
  }

  lemma LateReplayIsReplayed()
    ensures Timed(LateReplay(), 31) && Replayed(LateReplay())
  {
    var log := LateReplay();
    var t0: Table := map[];
    assert TableAt(log, 0) == t0;
    assert Admitted(log, 0);
    var t1 := TableAt(log, 1);
    assert t1 == Recorded(t0, log[0]);
    assert forall k | k in t1 :: t1[k] == LIFETIME;
    assert Admitted(log, 1);
  }

  /** The bound of 30 seconds is exact: with any larger one some run admits a proof twice. */
  lemma DelayBoundIsExact(delay: int)
    ensures delay <= 30 <==> forall log | Timed(log, delay) :: !Replayed(log)
  {
    if delay <= 30 {
      forall log: seq<Attempt> | Timed(log, delay)
        ensures !Replayed(log)
      {
        forall i, j | 0 <= i < j < |log| && log[i].proof == log[j].proof
          ensures !(Admitted(log, i) && Admitted(log, j))
        {
          AdmittedAtMostOnce(log, i, j);
        }
      }
    } else {
      LateReplayIsReplayed();
      assert Timed(LateReplay(), delay);
    }
  }
}
