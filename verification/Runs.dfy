/** Safety over whole runs of transactions executed one after another, in any order and with
    any clock readings: nothing here assumes that `now` grows from one request to the next. */
module Runs {
  import opened Base
  import opened Schema
  import opened Transactions
  import opened Lifecycle

  /** The database after the first i requests. */
  ghost function StateAt(db: Db, reqs: seq<Request>, i: nat): Db
    requires i <= |reqs|
  {
    if i == 0 then db else Exec(StateAt(db, reqs, i - 1), reqs[i - 1]).0
  }

  ghost function AnswerAt(db: Db, reqs: seq<Request>, i: nat): Answer
    requires i < |reqs|
  {
    Exec(StateAt(db, reqs, i), reqs[i]).1
  }

  lemma {:induction false} RunValid(db: Db, reqs: seq<Request>, i: nat)
    requires Valid(db) && i <= |reqs|
    ensures Valid(StateAt(db, reqs, i))
  {
    hide Valid, Exec;
    if i > 0 {
      RunValid(db, reqs, i - 1);
      ExecValid(StateAt(db, reqs, i - 1), reqs[i - 1]);
    }
  }

  lemma StepMoves(db: Db, reqs: seq<Request>, i: nat)
    requires Valid(db) && i < |reqs|
    ensures RowsMove(StateAt(db, reqs, i), reqs[i], StateAt(db, reqs, i + 1))
  {
    hide Valid, Exec, RowsMove;
    RunValid(db, reqs, i);
    ExecMoves(StateAt(db, reqs, i), reqs[i]);
  }

  ghost predicate GrantExists(db: Db, reqs: seq<Request>, d: Digest, i: nat)
    requires i <= |reqs|
  {
    d in StateAt(db, reqs, i).grants
  }

  ghost function GrantAt(db: Db, reqs: seq<Request>, d: Digest, i: nat): Grant
    requires i <= |reqs| && GrantExists(db, reqs, d, i)
  {
    StateAt(db, reqs, i).grants[d]
  }

  lemma GrantStep(db: Db, reqs: seq<Request>, d: Digest, i: nat)
    requires Valid(db) && i < |reqs| && GrantExists(db, reqs, d, i)
    ensures GrantExists(db, reqs, d, i + 1)
    ensures GrantMove(reqs[i], d, GrantAt(db, reqs, d, i), GrantAt(db, reqs, d, i + 1))
  {
    hide GrantMove, Exec, Valid, StateAt;
    StepMoves(db, reqs, i);
  }

  // ---- Exactly-once consumption -----------------------------------------------------------------

  lemma {:induction false} ConsumedFrozen(db: Db, reqs: seq<Request>, d: Digest, i: nat, j: nat)
    requires Valid(db) && i <= j <= |reqs| && GrantExists(db, reqs, d, i)
    requires GrantAt(db, reqs, d, i).status == Consumed
    ensures GrantExists(db, reqs, d, j) && GrantAt(db, reqs, d, j) == GrantAt(db, reqs, d, i)
    decreases j - i
  {
    hide StateAt, Valid;
    if i < j {
      GrantStep(db, reqs, d, i);
      ConsumedFrozen(db, reqs, d, i + 1, j);
    }
  }

  ghost predicate ConsumesAt(db: Db, reqs: seq<Request>, d: Digest, i: nat)
    requires i < |reqs|
  {
    && GrantExists(db, reqs, d, i) && GrantExists(db, reqs, d, i + 1)
    && GrantAt(db, reqs, d, i).status != Consumed && GrantAt(db, reqs, d, i + 1).status == Consumed
  }

  /** A grant makes at most one transition to consumed, however many workers try. */
  lemma ConsumedOnce(db: Db, reqs: seq<Request>, d: Digest, i: nat, j: nat)
    requires Valid(db) && i <= j < |reqs| && ConsumesAt(db, reqs, d, i) && ConsumesAt(db, reqs, d, j)
    ensures i == j
  {
    hide StateAt, Valid;
    if i < j {
      ConsumedFrozen(db, reqs, d, i + 1, j);
    }
  }

  /** What a successful consume, first or replayed, leaves behind. */
  lemma ConsumeSucceeds(db: Db, d: Digest, email: string, claim: Digest, now: Time)
    requires Valid(db)
    ensures var (db', answer) := Exec(db, Consume(d, email, claim, now));
      answer.GrantIs? ==>
        d in db'.grants && db'.grants[d].status == Consumed && db'.grants[d].claimDigest == Some(claim)
  {
    hide Valid;
    GrantShape(db, d);
    ApplyOne(SetConsumed(d, now), db);
    OverlayOneRow(db);
  }

  /** All successful consumes of a grant carry one claim digest, and from the first of them on
      the whole row, consumed_at and the retained digest included, never changes. */
  lemma ConsumersAgree(db: Db, reqs: seq<Request>, d: Digest, i: nat, j: nat)
    requires Valid(db) && i < j < |reqs| && reqs[i].Consume? && reqs[i].grant == d && AnswerAt(db, reqs, i).GrantIs?
    ensures GrantExists(db, reqs, d, i + 1) && GrantExists(db, reqs, d, j + 1)
    ensures GrantAt(db, reqs, d, j + 1) == GrantAt(db, reqs, d, i + 1)
    ensures reqs[j].Consume? && reqs[j].grant == d && AnswerAt(db, reqs, j).GrantIs? ==> reqs[j].claim == reqs[i].claim
  {
    hide Valid, Exec;
    RunValid(db, reqs, i);
    RunValid(db, reqs, j);
    ConsumeSucceeds(StateAt(db, reqs, i), d, reqs[i].email, reqs[i].claim, reqs[i].now);
    assert GrantAt(db, reqs, d, i + 1).claimDigest == Some(reqs[i].claim);
    ConsumedFrozen(db, reqs, d, i + 1, j + 1);
    if reqs[j].Consume? && reqs[j].grant == d && AnswerAt(db, reqs, j).GrantIs? {
      ConsumeSucceeds(StateAt(db, reqs, j), d, reqs[j].email, reqs[j].claim, reqs[j].now);
    }
  }

  /** On a consumed grant claim and release always fail, consume succeeds exactly for the
      consuming claim, whatever the clock says, and nothing is written. */
  lemma ConsumedIsTerminal(db: Db, d: Digest, email: string, claim: Digest, now: Time, leaseEnd: Time)
    requires Valid(db) && d in db.grants && db.grants[d].status == Consumed
    ensures Exec(db, Claim(d, email, claim, now, leaseEnd)).1.Failed?
    ensures Exec(db, Release(d, email, claim, now)).1.Failed?
    ensures var (db', answer) := Exec(db, Consume(d, email, claim, now));
      && db' == db
      && (answer.GrantIs? <==> email == db.grants[d].email && db.grants[d].claimDigest == Some(claim))
  {
    hide Valid, Rows;
    GrantShape(db, d);
  }

  // ---- Fencing ----------------------------------------------------------------------------------

  ghost predicate ClaimsAt(db: Db, reqs: seq<Request>, d: Digest, i: nat)
    requires i < |reqs|
  {
    && GrantExists(db, reqs, d, i) && GrantExists(db, reqs, d, i + 1)
    && ClaimMove(reqs[i], d, GrantAt(db, reqs, d, i), GrantAt(db, reqs, d, i + 1))
  }

  ghost predicate ReleasesAt(db: Db, reqs: seq<Request>, d: Digest, i: nat)
    requires i < |reqs|
  {
    && GrantExists(db, reqs, d, i) && GrantExists(db, reqs, d, i + 1)
    && ReleaseMove(reqs[i], d, GrantAt(db, reqs, d, i), GrantAt(db, reqs, d, i + 1))
  }

  /** The row is the same in every state from i to j. */
  ghost predicate Unchanged(db: Db, reqs: seq<Request>, d: Digest, i: nat, j: nat)
    requires i <= j <= |reqs|
  {
    forall m | i <= m <= j ::
      GrantExists(db, reqs, d, m) && GrantExists(db, reqs, d, j) && GrantAt(db, reqs, d, m) == GrantAt(db, reqs, d, j)
  }

  lemma {:induction false} ClaimOrigin(db: Db, reqs: seq<Request>, d: Digest, i: nat) returns (k: nat)
    requires Valid(db) && d !in db.grants && i <= |reqs|
    requires GrantExists(db, reqs, d, i) && GrantAt(db, reqs, d, i).status == Claimed
    ensures k < i && ClaimsAt(db, reqs, d, k) && Unchanged(db, reqs, d, k + 1, i)
  {
    hide Valid, Exec;
    k := 0;
    if !GrantExists(db, reqs, d, i - 1) {
      BornActive(db, reqs, d, i - 1);
      assert false;
    } else {
      hide StateAt;
      GrantStep(db, reqs, d, i - 1);
      if GrantAt(db, reqs, d, i - 1) == GrantAt(db, reqs, d, i) {
        k := ClaimOrigin(db, reqs, d, i - 1);
      } else {
        k := i - 1;
      }
    }
  }

  /** A grant comes into being active, and only by approval. */
  lemma BornActive(db: Db, reqs: seq<Request>, d: Digest, i: nat)
    requires Valid(db) && i < |reqs| && !GrantExists(db, reqs, d, i) && GrantExists(db, reqs, d, i + 1)
    ensures GrantAt(db, reqs, d, i + 1).status == Active && reqs[i].Approve? && reqs[i].candidate.digest == d
  {
    hide Valid, Exec, Insertable, Storable, PlanApprove, PlanDecline;
    RunValid(db, reqs, i);
    var before := StateAt(db, reqs, i);
    match reqs[i]
    case Approve(review, c, now, start) => ApproveCases(before, review, c, now, start);
    case Decline(review, now) => DeclineCases(before, review, now);
    case Create(form, since, capability, id, start) => CreateCases(before, form, since, capability, id, start);
    case CloseReview(r, closing, now) => CloseReviewCases(before, r, closing, now);
    case _ => GrantCases(before, reqs[i]);
  }

  ghost predicate ConsumeMoveAt(db: Db, reqs: seq<Request>, d: Digest, i: nat)
    requires i < |reqs|
  {
    && GrantExists(db, reqs, d, i) && GrantExists(db, reqs, d, i + 1)
    && ConsumeMove(reqs[i], d, GrantAt(db, reqs, d, i), GrantAt(db, reqs, d, i + 1))
  }

  /** Fencing. Whoever moves a claimed grant on, by consuming or by releasing it, made the claim
      that put the row into the state it is found in: nobody has claimed, released or closed the
      grant since. A consumer is also within that lease and the grant's own lifetime. */
  lemma Fencing(db: Db, reqs: seq<Request>, d: Digest, i: nat) returns (k: nat)
    requires Valid(db) && d !in db.grants && i < |reqs|
    requires ConsumeMoveAt(db, reqs, d, i) || ReleasesAt(db, reqs, d, i)
    ensures k < i && ClaimsAt(db, reqs, d, k) && reqs[k].claim == reqs[i].claim
    ensures Unchanged(db, reqs, d, k + 1, i)
    ensures reqs[i].now < GrantAt(db, reqs, d, i).expiresAt
    ensures ConsumeMoveAt(db, reqs, d, i) ==> reqs[i].now < reqs[k].leaseEnd
  {
    hide StateAt, Valid;
    k := ClaimOrigin(db, reqs, d, i);
    assert GrantAt(db, reqs, d, k + 1) == GrantAt(db, reqs, d, i);
  }

  /** Every transition to consumed is a ConsumeMove: no other request consumes. */
  lemma OnlyConsumeConsumes(db: Db, reqs: seq<Request>, d: Digest, i: nat)
    requires Valid(db) && i < |reqs| && ConsumesAt(db, reqs, d, i)
    ensures ConsumeMoveAt(db, reqs, d, i)
  {
    hide StateAt, Valid;
    GrantStep(db, reqs, d, i);
  }

  /** A worker whose lease was taken over can neither consume nor release: from a claim by
      another digest until it claims again itself, every such call fails. */
  lemma TakenOverIsFenced(db: Db, reqs: seq<Request>, d: Digest, k: nat, i: nat)
    requires Valid(db) && k < i < |reqs| && ClaimsAt(db, reqs, d, k)
    requires (reqs[i].Consume? || reqs[i].Release?) && reqs[i].grant == d && reqs[i].claim != reqs[k].claim
    requires forall m | k < m < i :: ClaimsAt(db, reqs, d, m) ==> reqs[m].claim != reqs[i].claim
    ensures AnswerAt(db, reqs, i).Failed?
  {
    hide Valid;
    NotHeldBy(db, reqs, d, reqs[i].claim, k + 1, i);
    RunValid(db, reqs, i);
    MismatchFails(StateAt(db, reqs, i), reqs[i]);
  }

  lemma {:induction false} NotHeldBy(db: Db, reqs: seq<Request>, d: Digest, claim: Digest, i: nat, j: nat)
    requires Valid(db) && i <= j <= |reqs| && GrantExists(db, reqs, d, i)
    requires GrantAt(db, reqs, d, i).claimDigest != Some(claim)
    requires forall m | i <= m < j :: ClaimsAt(db, reqs, d, m) ==> reqs[m].claim != claim
    ensures GrantExists(db, reqs, d, j) && GrantAt(db, reqs, d, j).claimDigest != Some(claim)
    decreases j - i
  {
    hide StateAt, Valid;
    if i < j {
      GrantStep(db, reqs, d, i);
      assert !ClaimsAt(db, reqs, d, i) || reqs[i].claim != claim;
      NotHeldBy(db, reqs, d, claim, i + 1, j);
    }
  }

  lemma MismatchFails(db: Db, req: Request)
    requires Valid(db) && (req.Consume? || req.Release?)
    requires req.grant in db.grants && db.grants[req.grant].claimDigest != Some(req.claim)
    ensures Exec(db, req).1.Failed?
  {
    hide Valid, Rows;
    GrantShape(db, req.grant);
  }

  // ---- Bounded unavailability -------------------------------------------------------------------

  /** Exactly when a claim writes, and what it answers otherwise. */
  lemma ClaimDecides(db: Db, d: Digest, email: string, claim: Digest, now: Time, leaseEnd: Time)
    requires Valid(db) && d in db.grants && db.grants[d].email == email && |claim.bytes| == DIGEST_LENGTH
    requires now < db.grants[d].expiresAt
    ensures var g := db.grants[d];
      var (db', answer) := Exec(db, Claim(d, email, claim, now, leaseEnd));
      if g.status == Active || (g.status == Claimed && now >= g.claimExpiresAt.value) then
        answer.GrantIs? && db' == Db(db.submissions, db.reviews, db.grants[d := WithClaim(g, now, leaseEnd, claim)])
      else
        db' == db
        && (answer.GrantIs? <==> g.status == Claimed && g.claimDigest == Some(claim))
        && (answer == Failed(GrantTaken) <==> g.status == Claimed && g.claimDigest != Some(claim))
  {
    hide Valid;
    GrantShape(db, d);
    ApplyOne(SetClaimed(d, now, leaseEnd, claim), db);
    OverlayOneRow(db);
  }

  /** Every claim of the run asks for the configured lifetime. */
  predicate ServiceClaims(reqs: seq<Request>, life: Time) {
    forall i | 0 <= i < |reqs| && reqs[i].Claim? :: reqs[i].leaseEnd == reqs[i].now + life
  }

  /** One holder cannot block a grant longer than the claim lifetime without letting the lease
      lapse: in every reachable state the lease ends `life` after the reading of the clock with
      which it was claimed, a repeated claim by the holder inside the lease does not move that
      end, and from then until the grant expires any digest at all can claim it. */
  lemma BoundedUnavailability(db: Db, reqs: seq<Request>, life: Time, d: Digest, i: nat, email: string,
      claim: Digest, now: Time, leaseEnd: Time)
    returns (k: nat)
    requires Valid(db) && d !in db.grants && i <= |reqs| && ServiceClaims(reqs, life)
    requires GrantExists(db, reqs, d, i) && GrantAt(db, reqs, d, i).status == Claimed
    requires email == GrantAt(db, reqs, d, i).email && |claim.bytes| == DIGEST_LENGTH
    requires now < GrantAt(db, reqs, d, i).expiresAt
    ensures k < i && ClaimsAt(db, reqs, d, k) && Unchanged(db, reqs, d, k + 1, i)
    ensures GrantAt(db, reqs, d, i).claimedAt == Some(reqs[k].now)
    ensures GrantAt(db, reqs, d, i).claimExpiresAt == Some(reqs[k].now + life)
    ensures var (db', answer) := Exec(StateAt(db, reqs, i), Claim(d, email, claim, now, leaseEnd));
      if now < reqs[k].now + life then db' == StateAt(db, reqs, i) && (answer.GrantIs? <==> claim == reqs[k].claim)
      else
        answer.GrantIs? && d in db'.grants
        && db'.grants[d] == WithClaim(GrantAt(db, reqs, d, i), now, leaseEnd, claim)
  {
    hide Valid, Exec, StateAt;
    k := ClaimOrigin(db, reqs, d, i);
    assert GrantAt(db, reqs, d, k + 1) == GrantAt(db, reqs, d, i);
    RunValid(db, reqs, i);
    ClaimDecides(StateAt(db, reqs, i), d, email, claim, now, leaseEnd);
  }

  /** Exactly when a consume succeeds on a grant not yet consumed: for the digest that holds it,
      inside its lease and before its expiry. It then writes exactly this; it writes nothing else. */
  lemma ConsumeDecides(db: Db, d: Digest, email: string, claim: Digest, now: Time)
    requires Valid(db) && d in db.grants && db.grants[d].email == email && db.grants[d].status != Consumed
    ensures var g := db.grants[d];
      var (db', answer) := Exec(db, Consume(d, email, claim, now));
      if g.status == Claimed && g.claimDigest == Some(claim) && now < g.claimExpiresAt.value && now < g.expiresAt then
        answer.GrantIs? && db' == Db(db.submissions, db.reviews, db.grants[d := WithConsumed(g, now)])
      else answer == Failed(InvalidClaim) && db' == db
  {
    hide Valid;
    GrantShape(db, d);
    ApplyOne(SetConsumed(d, now), db);
    OverlayOneRow(db);
  }

  /** Exactly when a release writes. */
  lemma ReleaseDecides(db: Db, d: Digest, email: string, claim: Digest, now: Time)
    requires Valid(db) && d in db.grants && db.grants[d].email == email
    ensures var g := db.grants[d];
      var (db', answer) := Exec(db, Release(d, email, claim, now));
      if g.status == Claimed && g.claimDigest == Some(claim) && now < g.expiresAt then
        answer.GrantIs? && db' == Db(db.submissions, db.reviews, db.grants[d := WithReleased(g)])
      else answer.Failed? && db' == db
  {
    hide Valid;
    GrantShape(db, d);
    ApplyOne(SetReleased(d), db);
    OverlayOneRow(db);
  }
}
