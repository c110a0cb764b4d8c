/** The review decision over whole runs: the first decision wins, a repeated approval replays
    it, and a declined application never acquires a grant. */
module Decisions {
  import opened Base
  import opened Schema
  import opened Transactions
  import opened Lifecycle
  import opened Runs

  lemma {:induction false} DecisionFrozen(db: Db, reqs: seq<Request>, id: Id, i: nat, j: nat)
    requires Valid(db) && i <= j <= |reqs| && id in StateAt(db, reqs, i).submissions
    requires StateAt(db, reqs, i).submissions[id].approval != Some(Pending)
    ensures id in StateAt(db, reqs, j).submissions
    ensures StateAt(db, reqs, j).submissions[id] == StateAt(db, reqs, i).submissions[id]
    decreases j - i
  {
    hide StateAt, Valid;
    if i < j {
      StepMoves(db, reqs, i);
      DecisionFrozen(db, reqs, id, i + 1, j);
    }
  }

  lemma {:induction false} ReviewStable(db: Db, reqs: seq<Request>, d: Digest, i: nat, j: nat)
    requires Valid(db) && i <= j <= |reqs| && d in StateAt(db, reqs, i).reviews
    ensures d in StateAt(db, reqs, j).reviews
    ensures SameReview(StateAt(db, reqs, i).reviews[d], StateAt(db, reqs, j).reviews[d])
    decreases j - i
  {
    hide StateAt, Valid;
    if i < j {
      StepMoves(db, reqs, i);
      ReviewStable(db, reqs, d, i + 1, j);
    }
  }

  lemma {:induction false} GrantStable(db: Db, reqs: seq<Request>, d: Digest, i: nat, j: nat)
    requires Valid(db) && i <= j <= |reqs| && GrantExists(db, reqs, d, i)
    ensures GrantExists(db, reqs, d, j) && SameGrant(GrantAt(db, reqs, d, i), GrantAt(db, reqs, d, j))
    decreases j - i
  {
    hide StateAt, Valid;
    if i < j {
      GrantStep(db, reqs, d, i);
      GrantStable(db, reqs, d, i + 1, j);
    }
  }

  /** The application a review belongs to is approved, by grant g, on the terms of `a`. */
  ghost predicate StandsApproved(db: Db, review: Digest, a: Approval) {
    && review in db.reviews
    && var id := db.reviews[review].submissionId;
    && id in db.submissions && db.submissions[id].approval == Some(Approved)
    && a.digest in db.grants && db.grants[a.digest].submissionId == id
    && a == ApprovalFrom(db, id, a.digest)
  }

  ghost predicate StandsDeclined(db: Db, review: Digest) {
    && review in db.reviews
    && var id := db.reviews[review].submissionId;
    && id in db.submissions && db.submissions[id].approval == Some(Declined)
  }

  lemma RereadFinds(db: Db, review: Digest, id: Id)
    requires Valid(db) && review in db.reviews && id == db.reviews[review].submissionId
    requires id in db.submissions && db.submissions[id].approval == Some(Approved)
    ensures ApprovalOf(db, id).Some? && StandsApproved(db, review, ApprovalOf(db, id).value)
  {
    hide ReviewsOk, UniqueReviews, UniqueGrants, SubmissionCheck, GrantFits;
  }

  /** The approval a successful call reports is the one on record after it, and the candidate
      was used exactly when the call changed the database. */
  lemma ApproveSucceeds(db: Db, review: Digest, c: Candidate, now: Time, start: Time)
    requires Valid(db)
    ensures var (db', answer) := Exec(db, Approve(review, c, now, start));
      answer.ApprovedAs? ==>
        && StandsApproved(db', review, answer.approval)
        && (answer.usedCandidate ==> answer.approval.digest == c.digest && answer.approval.reference == c.reference
                                     && c.digest !in db.grants && answer.approval.expiresAt == c.expiresAt)
        && (!answer.usedCandidate ==> db' == db)
  {
    hide SubmissionsOk, ReviewsOk, GrantsOk, UniqueGrants, UniqueReviews;
    ApproveCases(db, review, c, now, start);
    if PlanApprove(db, review, c, now, start).Reread? {
      RereadFinds(db, review, PlanApprove(db, review, c, now, start).application);
    }
  }

  lemma DeclineSucceeds(db: Db, review: Digest, now: Time)
    requires Valid(db)
    ensures var (db', answer) := Exec(db, Decline(review, now));
      answer == DeclineRecorded ==> StandsDeclined(db', review)
  {
    hide SubmissionsOk, ReviewsOk, GrantsOk, UniqueGrants, UniqueReviews;
    DeclineCases(db, review, now);
  }

  /** A standing approval is one record: the grant on file is unique. */
  lemma OneApproval(db: Db, review: Digest, a: Approval, b: Approval)
    requires Valid(db) && StandsApproved(db, review, a) && StandsApproved(db, review, b)
    ensures a == b
  {
    hide SubmissionsOk, ReviewsOk, GrantsOk, UniqueReviews;
  }

  lemma ApprovalPersists(db: Db, reqs: seq<Request>, review: Digest, a: Approval, i: nat, j: nat)
    requires Valid(db) && i <= j <= |reqs| && StandsApproved(StateAt(db, reqs, i), review, a)
    ensures StandsApproved(StateAt(db, reqs, j), review, a)
  {
    hide StateAt, Valid;
    ReviewStable(db, reqs, review, i, j);
    DecisionFrozen(db, reqs, a.application, i, j);
    GrantStable(db, reqs, a.digest, i, j);
  }

  lemma DeclinePersists(db: Db, reqs: seq<Request>, review: Digest, i: nat, j: nat)
    requires Valid(db) && i <= j <= |reqs| && StandsDeclined(StateAt(db, reqs, i), review)
    ensures StandsDeclined(StateAt(db, reqs, j), review)
  {
    hide StateAt, Valid;
    ReviewStable(db, reqs, review, i, j);
    DecisionFrozen(db, reqs, StateAt(db, reqs, i).reviews[review].submissionId, i, j);
  }

  /** Exactly when a repeated or opposite call succeeds once the application is approved:
      a repeat replays the record, before the review expires and unless it was revoked, and
      writes nothing; a decline reports the expiry or else a conflict. */
  lemma ApprovedReplays(db: Db, review: Digest, a: Approval, c: Candidate, now: Time, start: Time)
    requires Valid(db) && StandsApproved(db, review, a)
    ensures var r := db.reviews[review];
      Exec(db, Approve(review, c, now, start)) ==
        (db, if now < r.expiresAt && r.status == Decided then ApprovedAs(a, false)
             else Failed(if now >= r.expiresAt then ReviewClosed else InvalidReview))
    ensures Exec(db, Decline(review, now)) ==
      (db, Failed(if now >= db.reviews[review].expiresAt then ReviewClosed else DecisionConflict))
  {
    hide SubmissionsOk, GrantsOk, UniqueReviews, UniqueGrants, Rows;
    if PlanApprove(db, review, c, now, start).Reread? {
      RereadFinds(db, review, a.application);
      OneApproval(db, review, a, ApprovalOf(db, a.application).value);
    }
  }

  /** And once it is declined: a repeat succeeds under the same condition, an approval never. */
  lemma DeclinedReplays(db: Db, review: Digest, c: Candidate, now: Time, start: Time)
    requires Valid(db) && StandsDeclined(db, review)
    ensures var r := db.reviews[review];
      Exec(db, Decline(review, now)) ==
        (db, if now >= r.expiresAt then Failed(ReviewClosed)
             else if r.status == Decided then DeclineRecorded else Failed(DecisionConflict))
    ensures var r := db.reviews[review];
      Exec(db, Approve(review, c, now, start)) ==
        (db, Failed(if now >= r.expiresAt then ReviewClosed
                    else if r.status == ReviewRevoked then InvalidReview else DecisionConflict))
  {
    hide SubmissionsOk, GrantsOk, UniqueReviews, UniqueGrants, Rows;
  }

  ghost predicate ApproveSucceedsAt(db: Db, reqs: seq<Request>, review: Digest, i: nat)
    requires i < |reqs|
  {
    reqs[i].Approve? && reqs[i].review == review && AnswerAt(db, reqs, i).ApprovedAs?
  }

  ghost predicate DeclineSucceedsAt(db: Db, reqs: seq<Request>, review: Digest, i: nat)
    requires i < |reqs|
  {
    reqs[i].Decline? && reqs[i].review == review && AnswerAt(db, reqs, i) == DeclineRecorded
  }

  /** Over any run the successful calls on one review are all approvals or all declines. */
  lemma FirstDecisionWins(db: Db, reqs: seq<Request>, review: Digest, i: nat, j: nat)
    requires Valid(db) && i < |reqs| && j < |reqs|
    requires ApproveSucceedsAt(db, reqs, review, i)
    ensures !DeclineSucceedsAt(db, reqs, review, j)
  {
    hide Valid, Exec, StandsApproved, StandsDeclined;
    var si, sj := StateAt(db, reqs, i), StateAt(db, reqs, j);
    RunValid(db, reqs, i);
    RunValid(db, reqs, j);
    ApproveSucceeds(si, review, reqs[i].candidate, reqs[i].now, reqs[i].start);
    if DeclineSucceedsAt(db, reqs, review, j) {
      DeclineSucceeds(sj, review, reqs[j].now);
      if i < j {
        ApprovalPersists(db, reqs, review, AnswerAt(db, reqs, i).approval, i + 1, j);
        ApprovedReplays(sj, review, AnswerAt(db, reqs, i).approval, reqs[i].candidate, reqs[j].now, 0);
      } else {
        DeclinePersists(db, reqs, review, j + 1, i);
        DeclinedReplays(si, review, reqs[i].candidate, reqs[i].now, reqs[i].start);
      }
    }
  }

  /** Every successful approval through one review reports the same approval, field for field,
      and only the first of them can have used its candidate or written anything. */
  lemma ApprovalsAgree(db: Db, reqs: seq<Request>, review: Digest, i: nat, j: nat)
    requires Valid(db) && i < j < |reqs|
    requires ApproveSucceedsAt(db, reqs, review, i) && ApproveSucceedsAt(db, reqs, review, j)
    ensures AnswerAt(db, reqs, j) == ApprovedAs(AnswerAt(db, reqs, i).approval, false)
    ensures StateAt(db, reqs, j + 1) == StateAt(db, reqs, j)
  {
    hide Valid, Exec, StandsApproved;
    RunValid(db, reqs, i);
    RunValid(db, reqs, j);
    var a := AnswerAt(db, reqs, i).approval;
    ApproveSucceeds(StateAt(db, reqs, i), review, reqs[i].candidate, reqs[i].now, reqs[i].start);
    ApprovalPersists(db, reqs, review, a, i + 1, j);
    ApprovedReplays(StateAt(db, reqs, j), review, a, reqs[j].candidate, reqs[j].now, reqs[j].start);
  }

  /** A declined application has no grant, then or ever after. */
  lemma DeclinedNeverGranted(db: Db, reqs: seq<Request>, id: Id, i: nat, j: nat)
    requires Valid(db) && i <= j <= |reqs| && id in StateAt(db, reqs, i).submissions
    requires StateAt(db, reqs, i).submissions[id].approval == Some(Declined)
    ensures id in StateAt(db, reqs, j).submissions && StateAt(db, reqs, j).submissions[id].approval == Some(Declined)
    ensures !HasGrant(StateAt(db, reqs, j), id)
  {
    hide Valid, Exec, StateAt, HasGrant;
    DecisionFrozen(db, reqs, id, i, j);
    RunValid(db, reqs, j);
    ApprovedIffOneGrant(StateAt(db, reqs, j), id);
  }

  /** What an operator's closing of a review does to both decisions. An expired review is
      reported expired by both; a revoked one is invalid to Approve, but Decline has no such
      branch and reports a conflict, unless the review's expiry comes first. */
  lemma ClosedReviewRefuses(db: Db, review: Digest, c: Candidate, now: Time, start: Time)
    requires Valid(db) && review in db.reviews
    requires db.reviews[review].status == ReviewRevoked || db.reviews[review].status == ReviewStatus.ReviewExpired
    ensures var r := db.reviews[review];
      var late := now >= r.expiresAt || r.status == ReviewStatus.ReviewExpired;
      && Exec(db, Approve(review, c, now, start)) == (db, Failed(if late then ReviewClosed else InvalidReview))
      && Exec(db, Decline(review, now)) == (db, Failed(if late then ReviewClosed else DecisionConflict))
  {
    hide GrantsOk, UniqueReviews, UniqueGrants, ApplyAll, ApprovalOf;
  }

  // ---- Schema safety ----------------------------------------------------------------------------

  /** No UPDATE is ever rejected by a constraint: from a reachable state the only requests that
      can fail with a storage error are the two that INSERT, and an approval only when its
      INSERT would break a key, UNIQUE or CHECK constraint. */
  lemma NoUpdateRejected(db: Db, req: Request)
    requires Valid(db) && (req.Claim? ==> |req.claim.bytes| == DIGEST_LENGTH)
    requires !req.Create? && !req.CloseGrant? && !req.CloseReview?
    requires req.Approve? && PlanApprove(db, req.review, req.candidate, req.now, req.start).Write? ==>
      var id := db.reviews[req.review].submissionId;
      Insertable(db, req.candidate.digest, NewGrant(id, db.submissions[id].form.email, req.candidate, req.start))
    ensures Exec(db, req).1 != Failed(Storage)
  {
    hide Valid, Exec, PlanApprove, Insertable;
    match req
    case Approve(review, c, now, start) => ApproveNotRejected(db, review, c, now, start);
    case Decline(review, now) => DeclineNotRejected(db, review, now);
    case _ => GrantNotRejected(db, req);
  }

  lemma GrantNotRejected(db: Db, req: Request)
    requires Valid(db) && (req.Claim? || req.Consume? || req.Release?)
    requires req.Claim? ==> |req.claim.bytes| == DIGEST_LENGTH
    ensures Exec(db, req).1 != Failed(Storage)
  {
    hide Valid;
    GrantShape(db, req.grant);
    match req
    case Claim(d, email, claim, now, leaseEnd) => ApplyOne(SetClaimed(d, now, leaseEnd, claim), db);
    case Consume(d, email, claim, now) => ApplyOne(SetConsumed(d, now), db);
    case Release(d, email, claim, now) => ApplyOne(SetReleased(d), db);
  }

  lemma ApproveNotRejected(db: Db, review: Digest, c: Candidate, now: Time, start: Time)
    requires Valid(db)
    ensures var plan := PlanApprove(db, review, c, now, start);
      Exec(db, Approve(review, c, now, start)).1 == Failed(Storage) <==>
        && plan.Write?
        && var id := db.reviews[review].submissionId;
           !Insertable(db, c.digest, NewGrant(id, db.submissions[id].form.email, c, start))
  {
    hide UniqueGrants, Insertable, GrantFits;
    var plan := PlanApprove(db, review, c, now, start);
    if plan.Write? {
      ApproveWrites(db, review, c, now, start);
    } else if plan.Reread? {
      RereadFinds(db, review, plan.application);
    }
  }

  lemma DeclineNotRejected(db: Db, review: Digest, now: Time)
    requires Valid(db)
    ensures Exec(db, Decline(review, now)).1 != Failed(Storage)
  {
    hide UniqueGrants, GrantsOk;
    if PlanDecline(db, review, now).Write? && PlanDecline(db, review, now).stmts != [] {
      DeclineWrites(db, review, now);
    }
  }
}
