/** When the leases granted on one grant exclude each other, over whole runs. */
module Leases {
  import opened Base
  import opened Schema
  import opened Transactions
  import opened Lifecycle
  import opened Runs

  // ---- Without releases -------------------------------------------------------------------------

  /** The service asks for leases of positive length: leaseEnd = now + claimLifetime. */
  predicate PositiveLeases(reqs: seq<Request>) {
    forall i | 0 <= i < |reqs| && reqs[i].Claim? :: reqs[i].now < reqs[i].leaseEnd
  }

  ghost predicate NoReleases(db: Db, reqs: seq<Request>, d: Digest, i: nat, j: nat)
    requires i <= j <= |reqs|
  {
    forall m | i <= m < j :: !ReleasesAt(db, reqs, d, m)
  }

  lemma {:induction false} LeaseHeld(db: Db, reqs: seq<Request>, d: Digest, end: Time, i: nat, j: nat)
    requires Valid(db) && PositiveLeases(reqs) && i <= j <= |reqs| && NoReleases(db, reqs, d, i, j)
    requires GrantExists(db, reqs, d, i) && GrantAt(db, reqs, d, i).status != Active
    requires GrantAt(db, reqs, d, i).status == Claimed ==>
      GrantAt(db, reqs, d, i).claimExpiresAt.Some? && GrantAt(db, reqs, d, i).claimExpiresAt.value >= end
    ensures GrantExists(db, reqs, d, j) && GrantAt(db, reqs, d, j).status != Active
    ensures GrantAt(db, reqs, d, j).status == Claimed ==>
      GrantAt(db, reqs, d, j).claimExpiresAt.Some? && GrantAt(db, reqs, d, j).claimExpiresAt.value >= end
    decreases j - i
  {
    hide StateAt, Valid;
    if i < j {
      GrantStep(db, reqs, d, i);
      assert !ReleasesAt(db, reqs, d, i);
      LeaseHeld(db, reqs, d, end, i + 1, j);
    }
  }

  /** In a release-free stretch of a run the leases granted on one grant are pairwise disjoint
      and increasing, although the clock readings that bound them need not be. */
  lemma LeasesDisjoint(db: Db, reqs: seq<Request>, d: Digest, i: nat, j: nat)
    requires Valid(db) && PositiveLeases(reqs) && i < j < |reqs|
    requires ClaimsAt(db, reqs, d, i) && ClaimsAt(db, reqs, d, j) && NoReleases(db, reqs, d, i, j)
    ensures reqs[i].now < reqs[i].leaseEnd <= reqs[j].now < reqs[j].leaseEnd
  {
    hide StateAt, Valid;
    LeaseHeld(db, reqs, d, reqs[i].leaseEnd, i + 1, j);
  }

  // ---- With releases: exactly when --------------------------------------------------------------

  ghost predicate NoClaims(db: Db, reqs: seq<Request>, d: Digest, i: nat, j: nat)
    requires i <= j <= |reqs|
  {
    forall m | i <= m < j :: !ClaimsAt(db, reqs, d, m)
  }

  /** Two claims of the run with no third between them. */
  ghost predicate Consecutive(db: Db, reqs: seq<Request>, d: Digest, i: nat, j: nat)
    requires i < j < |reqs|
  {
    ClaimsAt(db, reqs, d, i) && ClaimsAt(db, reqs, d, j) && NoClaims(db, reqs, d, i + 1, j)
  }

  /** The lease of one claim begins no earlier than that of another ends. */
  predicate Follows(req: Request, earlier: Request) {
    req.Claim? && earlier.Claim? && earlier.leaseEnd <= req.now
  }

  /** The leases granted on d are pairwise disjoint and increasing. */
  ghost predicate Exclusive(db: Db, reqs: seq<Request>, d: Digest) {
    forall i, j | 0 <= i < j < |reqs| && ClaimsAt(db, reqs, d, i) && ClaimsAt(db, reqs, d, j) ::
      Follows(reqs[j], reqs[i])
  }

  /** Whoever claims the grant after a release reads its clock no earlier than the end of the last
      lease. A caller could check this before its call; ClaimGrant does not, since the release
      has cleared the column. */
  ghost predicate WaitsForLease(db: Db, reqs: seq<Request>, d: Digest) {
    forall i, j | 0 <= i < j < |reqs| && Consecutive(db, reqs, d, i, j) ::
      !NoReleases(db, reqs, d, i, j) ==> Follows(reqs[j], reqs[i])
  }

  ghost predicate NotClaimed(db: Db, reqs: seq<Request>, d: Digest, i: nat)
    requires i <= |reqs|
  {
    GrantExists(db, reqs, d, i) && GrantAt(db, reqs, d, i).status != Claimed
  }

  lemma {:induction false} StaysUnclaimed(db: Db, reqs: seq<Request>, d: Digest, i: nat, j: nat)
    requires Valid(db) && i <= j <= |reqs| && NoClaims(db, reqs, d, i, j) && NotClaimed(db, reqs, d, i)
    ensures NotClaimed(db, reqs, d, j)
    decreases j - i
  {
    hide StateAt, Valid;
    if i < j {
      GrantStep(db, reqs, d, i);
      assert !ClaimsAt(db, reqs, d, i);
      StaysUnclaimed(db, reqs, d, i + 1, j);
    }
  }

  /** Of two consecutive claims the later takes the branch for active grants iff a release lies
      between them; otherwise it takes over a lease that has ended. */
  lemma FoundActive(db: Db, reqs: seq<Request>, d: Digest, i: nat, j: nat)
    requires Valid(db) && PositiveLeases(reqs) && i < j < |reqs| && Consecutive(db, reqs, d, i, j)
    ensures GrantAt(db, reqs, d, j).status == Active <==> !NoReleases(db, reqs, d, i, j)
  {
    hide StateAt, Valid;
    if NoReleases(db, reqs, d, i, j) {
      LeaseHeld(db, reqs, d, reqs[i].leaseEnd, i + 1, j);
    } else {
      var m :| i <= m < j && ReleasesAt(db, reqs, d, m);
      assert m != i;
      StaysUnclaimed(db, reqs, d, m + 1, j);
    }
  }

  lemma {:induction false} LastClaim(db: Db, reqs: seq<Request>, d: Digest, i: nat, j: nat) returns (k: nat)
    requires i < j < |reqs| && ClaimsAt(db, reqs, d, i) && ClaimsAt(db, reqs, d, j)
    ensures i <= k < j && Consecutive(db, reqs, d, k, j)
    decreases j - i
  {
    hide ClaimsAt;
    if m :| i < m < j && ClaimsAt(db, reqs, d, m) {
      k := LastClaim(db, reqs, d, m, j);
    } else {
      k := i;
    }
  }

  lemma FollowsNext(db: Db, reqs: seq<Request>, d: Digest, k: nat, j: nat)
    requires Valid(db) && PositiveLeases(reqs) && WaitsForLease(db, reqs, d) && k < j < |reqs|
    requires Consecutive(db, reqs, d, k, j)
    ensures Follows(reqs[j], reqs[k])
  {
    hide Valid, StateAt;
    if NoReleases(db, reqs, d, k, j) {
      LeasesDisjoint(db, reqs, d, k, j);
      assert ClaimsAt(db, reqs, d, k) && ClaimsAt(db, reqs, d, j);
    }
  }

  lemma FollowsOn(reqs: seq<Request>, i: nat, k: nat, j: nat)
    requires PositiveLeases(reqs) && i < |reqs| && k < |reqs| && j < |reqs|
    requires Follows(reqs[k], reqs[i]) && Follows(reqs[j], reqs[k])
    ensures Follows(reqs[j], reqs[i])
  {
  }

  lemma {:induction false} WaitingExcludes(db: Db, reqs: seq<Request>, d: Digest, i: nat, j: nat)
    requires Valid(db) && PositiveLeases(reqs) && WaitsForLease(db, reqs, d) && i < j < |reqs|
    requires ClaimsAt(db, reqs, d, i) && ClaimsAt(db, reqs, d, j)
    ensures Follows(reqs[j], reqs[i])
    decreases j
  {
    hide Valid, Follows, ClaimsAt, WaitsForLease, PositiveLeases, NoClaims;
    var k := LastClaim(db, reqs, d, i, j);
    FollowsNext(db, reqs, d, k, j);
    if i < k {
      WaitingExcludes(db, reqs, d, i, k);
      FollowsOn(reqs, i, k, j);
    }
  }

  /** Leases exclude each other over the whole run, releases included, iff every claim after a
      release waits for the end of the lease that was given up. */
  lemma ExclusiveIff(db: Db, reqs: seq<Request>, d: Digest)
    requires Valid(db) && PositiveLeases(reqs)
    ensures Exclusive(db, reqs, d) <==> WaitsForLease(db, reqs, d)
  {
    hide Valid, ClaimsAt, NoReleases, NoClaims, Follows;
    if WaitsForLease(db, reqs, d) {
      forall i, j | 0 <= i < j < |reqs| && ClaimsAt(db, reqs, d, i) && ClaimsAt(db, reqs, d, j)
        ensures Follows(reqs[j], reqs[i])
      {
        WaitingExcludes(db, reqs, d, i, j);
      }
    }
  }

  /** The code asks for no such waiting. Claim, release, claim succeeds on an active grant for any
      two digests and whatever three clock readings before the expiry, so that the leases overlap
      whenever these readings say so. */
  lemma LeasesMayOverlapAfterRelease(db: Db, d: Digest, a: Digest, b: Digest, first: Time, firstEnd: Time,
      back: Time, second: Time, secondEnd: Time)
    requires Valid(db) && d in db.grants && db.grants[d].status == Active
    requires |a.bytes| == DIGEST_LENGTH && |b.bytes| == DIGEST_LENGTH
    requires first < firstEnd && second < secondEnd
    requires first < db.grants[d].expiresAt && back < db.grants[d].expiresAt && second < db.grants[d].expiresAt
    ensures var email := db.grants[d].email;
      var reqs := [Claim(d, email, a, first, firstEnd), Release(d, email, a, back),
                   Claim(d, email, b, second, secondEnd)];
      && PositiveLeases(reqs)
      && ClaimsAt(db, reqs, d, 0) && ReleasesAt(db, reqs, d, 1) && ClaimsAt(db, reqs, d, 2)
      && (Exclusive(db, reqs, d) <==> firstEnd <= second)
      && (HandsOver(db, reqs, d) <==> firstEnd <= second || back <= second)
  {
    hide Valid, Exec;
    var email := db.grants[d].email;
    var reqs := [Claim(d, email, a, first, firstEnd), Release(d, email, a, back),
                 Claim(d, email, b, second, secondEnd)];
    var s0, s1, s2, s3 := StateAt(db, reqs, 0), StateAt(db, reqs, 1), StateAt(db, reqs, 2), StateAt(db, reqs, 3);
    assert s1 == Exec(s0, reqs[0]).0 && s2 == Exec(s1, reqs[1]).0 && s3 == Exec(s2, reqs[2]).0;
    RunValid(db, reqs, 1);
    RunValid(db, reqs, 2);
    hide StateAt;
    ClaimDecides(s0, d, email, a, first, firstEnd);
    ReleaseDecides(s1, d, email, a, back);
    ClaimDecides(s2, d, email, b, second, secondEnd);
  }

  // ---- With releases: the time a lease is really held -------------------------------------------

  /** The claim at k gives its lease up at m. */
  ghost predicate GivesUp(db: Db, reqs: seq<Request>, d: Digest, k: nat, m: nat)
    requires k < |reqs| && m < |reqs|
  {
    k < m && ReleasesAt(db, reqs, d, m) && Unchanged(db, reqs, d, k + 1, m)
  }

  /** The claim at k holds the grant at time t: inside its lease, which it has not given up. */
  ghost predicate Holds(db: Db, reqs: seq<Request>, d: Digest, k: nat, t: Time)
    requires k < |reqs|
  {
    && ClaimsAt(db, reqs, d, k) && reqs[k].now <= t < reqs[k].leaseEnd
    && forall m | 0 <= m < |reqs| && GivesUp(db, reqs, d, k, m) :: t < reqs[m].now
  }

  /** The last claim before a state in which the grant is claimed put the row there. */
  lemma {:induction false} HeldSince(db: Db, reqs: seq<Request>, d: Digest, i: nat, j: nat) returns (k: nat)
    requires Valid(db) && i < j <= |reqs| && ClaimsAt(db, reqs, d, i)
    requires GrantExists(db, reqs, d, j) && GrantAt(db, reqs, d, j).status == Claimed
    ensures i <= k < j && ClaimsAt(db, reqs, d, k) && Unchanged(db, reqs, d, k + 1, j)
    decreases j
  {
    hide Valid, StateAt;
    if j == i + 1 {
      k := i;
    } else {
      ExistsSince(db, reqs, d, i, j - 1);
      GrantStep(db, reqs, d, j - 1);
      if GrantAt(db, reqs, d, j - 1) == GrantAt(db, reqs, d, j) {
        k := HeldSince(db, reqs, d, i, j - 1);
      } else {
        k := j - 1;
      }
    }
  }

  lemma {:induction false} ExistsSince(db: Db, reqs: seq<Request>, d: Digest, i: nat, j: nat)
    requires Valid(db) && i <= j <= |reqs| && GrantExists(db, reqs, d, i)
    ensures GrantExists(db, reqs, d, j)
    decreases j - i
  {
    hide Valid, StateAt;
    if i < j {
      GrantStep(db, reqs, d, i);
      ExistsSince(db, reqs, d, i + 1, j);
    }
  }

  /** By time s the lease of the claim at k has ended or been given up. */
  ghost predicate OverBy(db: Db, reqs: seq<Request>, d: Digest, k: nat, s: Time)
    requires k < |reqs|
  {
    && reqs[k].Claim?
    && (reqs[k].leaseEnd <= s || exists m :: 0 <= m < |reqs| && GivesUp(db, reqs, d, k, m) && reqs[m].now <= s)
  }

  /** By the clock of each claim every earlier one is over. */
  ghost predicate HandsOver(db: Db, reqs: seq<Request>, d: Digest) {
    forall i, j | 0 <= i < j < |reqs| && ClaimsAt(db, reqs, d, i) && ClaimsAt(db, reqs, d, j) ::
      OverBy(db, reqs, d, i, reqs[j].now)
  }

  /** Each claim after a release reads its clock no earlier than that release or the lease's end. */
  ghost predicate ReadsAfterRelease(db: Db, reqs: seq<Request>, d: Digest) {
    forall i, j | 0 <= i < j < |reqs| && Consecutive(db, reqs, d, i, j) ::
      !NoReleases(db, reqs, d, i, j) ==> reqs[j].Claim? && OverBy(db, reqs, d, i, reqs[j].now)
  }

  /** No worker's clock goes back between its claim and its release. */
  ghost predicate OwnClocks(db: Db, reqs: seq<Request>, d: Digest) {
    forall k, m | 0 <= k < |reqs| && 0 <= m < |reqs| && ClaimsAt(db, reqs, d, k) && GivesUp(db, reqs, d, k, m) ::
      reqs[k].now <= reqs[m].now
  }

  lemma OverByNext(db: Db, reqs: seq<Request>, d: Digest, i: nat, j: nat)
    requires Valid(db) && PositiveLeases(reqs) && OwnClocks(db, reqs, d) && ReadsAfterRelease(db, reqs, d)
    requires i < j < |reqs| && Consecutive(db, reqs, d, i, j)
    ensures reqs[i].Claim? && reqs[j].Claim?
    ensures OverBy(db, reqs, d, i, reqs[j].now) && reqs[i].now <= reqs[j].now
  {
    hide Valid, StateAt, GivesUp;
    assert ClaimsAt(db, reqs, d, i) && ClaimsAt(db, reqs, d, j);
    if NoReleases(db, reqs, d, i, j) { LeasesDisjoint(db, reqs, d, i, j); }
  }

  lemma OverByLater(db: Db, reqs: seq<Request>, d: Digest, k: nat, s: Time, t: Time)
    requires k < |reqs| && OverBy(db, reqs, d, k, s) && s <= t
    ensures OverBy(db, reqs, d, k, t)
  {
    hide GivesUp;
  }

  lemma {:induction false} OverBefore(db: Db, reqs: seq<Request>, d: Digest, i: nat, j: nat)
    requires Valid(db) && PositiveLeases(reqs) && OwnClocks(db, reqs, d) && ReadsAfterRelease(db, reqs, d)
    requires i < j < |reqs| && ClaimsAt(db, reqs, d, i) && ClaimsAt(db, reqs, d, j)
    ensures reqs[j].Claim? && OverBy(db, reqs, d, i, reqs[j].now)
    decreases j
  {
    hide Valid, PositiveLeases, OwnClocks, ReadsAfterRelease, ClaimsAt, NoClaims, OverBy;
    var k := LastClaim(db, reqs, d, i, j);
    OverByNext(db, reqs, d, k, j);
    if i < k {
      OverBefore(db, reqs, d, i, k);
      OverByLater(db, reqs, d, i, reqs[k].now, reqs[j].now);
    }
  }

  /** Each claim finds all earlier ones over iff each claim that follows a release does. */
  lemma HandsOverIff(db: Db, reqs: seq<Request>, d: Digest)
    requires Valid(db) && PositiveLeases(reqs) && OwnClocks(db, reqs, d)
    ensures HandsOver(db, reqs, d) <==> ReadsAfterRelease(db, reqs, d)
  {
    hide Valid, PositiveLeases, OwnClocks, NoReleases, NoClaims, OverBy;
    if ReadsAfterRelease(db, reqs, d) {
      forall i, j | 0 <= i < j < |reqs| && ClaimsAt(db, reqs, d, i) && ClaimsAt(db, reqs, d, j)
        ensures OverBy(db, reqs, d, i, reqs[j].now)
      {
        OverBefore(db, reqs, d, i, j);
      }
    }
  }

  lemma NotHeld(db: Db, reqs: seq<Request>, d: Digest, k: nat, s: Time, t: Time)
    requires k < |reqs| && OverBy(db, reqs, d, k, s) && s <= t
    ensures !Holds(db, reqs, d, k, t)
  {
    hide GivesUp;
  }

  /** Then a grant has one holder at a time, over any run and with any releases. */
  lemma OneHolder(db: Db, reqs: seq<Request>, d: Digest, i: nat, j: nat, t: Time)
    requires HandsOver(db, reqs, d) && i < |reqs| && j < |reqs|
    requires Holds(db, reqs, d, i, t) && Holds(db, reqs, d, j, t)
    ensures i == j
  {
    hide GivesUp, OverBy;
    if i < j { NotHeld(db, reqs, d, i, reqs[j].now, t); }
    else if j < i { NotHeld(db, reqs, d, j, reqs[i].now, t); }
  }

  predicate Timed(req: Request) {
    req.Claim? || req.Consume? || req.Release?
  }

  /** The workers' readings never decrease in the order in which their transactions take effect. */
  ghost predicate Monotone(reqs: seq<Request>) {
    forall i, j | 0 <= i < j < |reqs| && Timed(reqs[i]) && Timed(reqs[j]) :: reqs[i].now <= reqs[j].now
  }

  lemma ReleasedOwn(db: Db, reqs: seq<Request>, d: Digest, i: nat, j: nat) returns (m: nat)
    requires Valid(db) && PositiveLeases(reqs) && i < j < |reqs| && Consecutive(db, reqs, d, i, j)
    requires !NoReleases(db, reqs, d, i, j)
    ensures m < j && GivesUp(db, reqs, d, i, m)
  {
    hide Valid, StateAt;
    m :| i <= m < j && ReleasesAt(db, reqs, d, m);
    assert m != i;
    var k := HeldSince(db, reqs, d, i, m);
    assert k == i;
  }

  /** One clock for all workers is enough. */
  lemma MonotoneHandsOver(db: Db, reqs: seq<Request>, d: Digest)
    requires Valid(db) && PositiveLeases(reqs) && Monotone(reqs)
    ensures HandsOver(db, reqs, d)
  {
    hide Valid, StateAt, HandsOver;
    forall i, j | 0 <= i < j < |reqs| && Consecutive(db, reqs, d, i, j) && !NoReleases(db, reqs, d, i, j)
      ensures reqs[j].Claim? && OverBy(db, reqs, d, i, reqs[j].now)
    {
      var m := ReleasedOwn(db, reqs, d, i, j);
      assert ClaimsAt(db, reqs, d, j);
    }
    HandsOverIff(db, reqs, d);
  }

  /** A claim whose row is consumed is never given up. */
  lemma NotGivenUp(db: Db, reqs: seq<Request>, d: Digest, k: nat, i: nat, m: nat)
    requires Valid(db) && k < i < |reqs| && m < |reqs| && ConsumeMoveAt(db, reqs, d, i)
    requires Unchanged(db, reqs, d, k + 1, i)
    ensures !GivesUp(db, reqs, d, k, m)
  {
    hide Valid, StateAt;
  }

  /** And whoever consumes is that one holder, at the moment of consuming. */
  lemma ConsumerHolds(db: Db, reqs: seq<Request>, d: Digest, i: nat, j: nat) returns (k: nat)
    requires Valid(db) && d !in db.grants && PositiveLeases(reqs) && Monotone(reqs) && i < |reqs| && j < |reqs|
    requires ConsumeMoveAt(db, reqs, d, i)
    ensures k < i && Holds(db, reqs, d, k, reqs[i].now) && reqs[k].claim == reqs[i].claim
    ensures Holds(db, reqs, d, j, reqs[i].now) ==> j == k
  {
    hide Valid, StateAt, Exec;
    k := Fencing(db, reqs, d, i);
    assert reqs[i].Consume? && reqs[k].Claim?;
    forall m | 0 <= m < |reqs| ensures !GivesUp(db, reqs, d, k, m) {
      NotGivenUp(db, reqs, d, k, i, m);
    }
    hide Unchanged, ClaimsAt, GivesUp;
    if Holds(db, reqs, d, j, reqs[i].now) {
      MonotoneHandsOver(db, reqs, d);
      OneHolder(db, reqs, d, k, j, reqs[i].now);
    }
  }
}
