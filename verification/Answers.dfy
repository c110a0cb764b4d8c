/** What each transaction answers and writes, column by column, in every case. Nothing here speaks of
    plans or statements: these are the tables a caller of the store could be given. */
module Answers {
  import opened Base
  import opened Schema
  import opened Transactions
  import opened Lifecycle
  import opened Runs
  import Decisions
  import Store

  // ---- Grants: claim, consume, release ----------------------------------------------------------

  lemma GrantColumns(db: Db, d: Digest)
    requires Valid(db) && d in db.grants
    ensures var g := db.grants[d];
      && GrantCheck(g) && (g.status == Claimed ==> g.claimExpiresAt.Some? && g.claimDigest.Some?)
      && (g.status == Consumed ==> g.claimDigest.Some?)
  {
    GrantShape(db, d);
    hide Valid;
  }

  /** A claim that answers with a grant answers with the row as the claim leaves it. */
  lemma ClaimAnswers(db: Db, d: Digest, email: string, claim: Digest, now: Time, leaseEnd: Time)
    requires Valid(db)
    ensures var (db', answer) := Exec(db, Claim(d, email, claim, now, leaseEnd));
      if d !in db.grants || db.grants[d].email != email then (db', answer) == (db, Failed(InvalidGrant))
      else
        var g := db.grants[d];
        if now >= g.expiresAt || g.status == GrantStatus.GrantExpired then (db', answer) == (db, Failed(GrantLapsed))
        else if g.status == Consumed || g.status == GrantRevoked then (db', answer) == (db, Failed(InvalidGrant))
        else if g.status == Claimed && now < g.claimExpiresAt.value && g.claimDigest != Some(claim) then
          (db', answer) == (db, Failed(GrantTaken))
        else if g.status == Claimed && now < g.claimExpiresAt.value then
          && db' == db
          && answer == GrantIs(GrantView(g.email, Claimed, g.expiresAt, g.claimExpiresAt, g.reference))
        else if |claim.bytes| != 32 then (db', answer) == (db, Failed(Storage))
        else
          && db' == Db(db.submissions, db.reviews, db.grants[d :=
               Grant(g.submissionId, g.email, g.reference, g.expiresAt, g.createdAt, Claimed,
                 Some(now), Some(leaseEnd), Some(claim), None, None)])
          && answer == GrantIs(GrantView(g.email, Claimed, g.expiresAt, Some(leaseEnd), g.reference))
  {
    if d in db.grants { GrantColumns(db, d); }
    Store.ClaimExec(db, d, email, claim, now, leaseEnd);
    hide Valid, Exec, ApplyAll;
  }

  lemma ConsumeAnswers(db: Db, d: Digest, email: string, claim: Digest, now: Time)
    requires Valid(db)
    ensures var (db', answer) := Exec(db, Consume(d, email, claim, now));
      if d !in db.grants || db.grants[d].email != email then (db', answer) == (db, Failed(InvalidGrant))
      else
        var g := db.grants[d];
        if g.status == Consumed && g.claimDigest == Some(claim) then
          && db' == db
          && answer == GrantIs(GrantView(g.email, Consumed, g.expiresAt, g.claimExpiresAt, g.reference))
        else if g.status == Claimed && g.claimDigest == Some(claim) && now < g.claimExpiresAt.value
          && now < g.expiresAt then
          && db' == Db(db.submissions, db.reviews, db.grants[d :=
               Grant(g.submissionId, g.email, g.reference, g.expiresAt, g.createdAt, Consumed,
                 None, None, Some(claim), Some(now), None)])
          && answer == GrantIs(GrantView(g.email, Consumed, g.expiresAt, None, g.reference))
        else (db', answer) == (db, Failed(InvalidClaim))
  {
    hide Valid;
    Store.NothingToApply(db);
    if d in db.grants {
      GrantColumns(db, d);
      GrantShape(db, d);
      Store.UpdateExec(db, SetConsumed(d, now), WithConsumed(db.grants[d], now));
    }
    hide ApplyAll;
  }

  lemma ReleaseAnswers(db: Db, d: Digest, email: string, claim: Digest, now: Time)
    requires Valid(db)
    ensures var (db', answer) := Exec(db, Release(d, email, claim, now));
      if d !in db.grants || db.grants[d].email != email then (db', answer) == (db, Failed(InvalidGrant))
      else
        var g := db.grants[d];
        if g.status != Claimed || g.claimDigest != Some(claim) then (db', answer) == (db, Failed(InvalidClaim))
        else if now >= g.expiresAt then (db', answer) == (db, Failed(GrantLapsed))
        else
          && db' == Db(db.submissions, db.reviews, db.grants[d :=
               Grant(g.submissionId, g.email, g.reference, g.expiresAt, g.createdAt, Active,
                 None, None, None, None, None)])
          && answer == GrantIs(GrantView(g.email, Active, g.expiresAt, None, g.reference))
  {
    hide Valid;
    if d in db.grants {
      GrantColumns(db, d);
      GrantShape(db, d);
      Store.UpdateExec(db, SetReleased(d), WithReleased(db.grants[d]));
    }
    hide ApplyAll;
  }

  // ---- Decisions --------------------------------------------------------------------------------

  lemma ReviewColumns(db: Db, d: Digest)
    requires Valid(db) && d in db.reviews
    ensures var r := db.reviews[d];
      && r.submissionId in db.submissions
      && var s := db.submissions[r.submissionId];
      && s.approval.Some? && (r.status == Decided ==> s.approval != Some(Pending))
      && (r.status == Open || r.status == ReviewStatus.ReviewExpired ==> s.approval == Some(Pending))
      && !Blank(s.form.email)
      && (s.approval == Some(Pending) ==> s.reviewedAt.None? && s.approvedAt.None? && s.declinedAt.None?)
      && (r.status == Open ==> r.decidedAt.None? && r.revokedAt.None?)
  {
    hide GrantsOk, UniqueGrants, UniqueReviews;
  }

  /** The terms under which an approval inserts its grant: no key is taken, no CHECK is broken. */
  lemma ApprovalInserts(db: Db, review: Digest, c: Candidate, start: Time)
    requires Valid(db) && review in db.reviews && db.reviews[review].status == Open
    ensures db.reviews[review].submissionId in db.submissions
    ensures var id := db.reviews[review].submissionId;
      Insertable(db, c.digest, NewGrant(id, db.submissions[id].form.email, c, start)) <==>
        && c.digest !in db.grants && (forall d :: d in db.grants ==> db.grants[d].reference != c.reference)
        && |c.digest.bytes| == 32 && !Blank(c.reference.text) && c.expiresAt > start
  {
    ReviewColumns(db, review);
    hide SubmissionsOk, ReviewsOk, UniqueGrants, UniqueReviews;
  }

  lemma ApproveAnswers(db: Db, review: Digest, c: Candidate, now: Time, start: Time)
    requires Valid(db) && review in db.reviews
    ensures var r := db.reviews[review];
      && r.submissionId in db.submissions
      && var id, s := r.submissionId, db.submissions[r.submissionId];
      var (db', answer) := Exec(db, Approve(review, c, now, start));
      if now >= r.expiresAt || r.status == ReviewStatus.ReviewExpired then (db', answer) == (db, Failed(ReviewClosed))
      else if r.status == ReviewRevoked then (db', answer) == (db, Failed(InvalidReview))
      else if r.status == Decided && s.approval == Some(Declined) then (db', answer) == (db, Failed(DecisionConflict))
      else if r.status == Decided then
        db' == db && answer.ApprovedAs? && !answer.usedCandidate && StandingGrant(db, id, answer.approval)
      else if |c.digest.bytes| != 32 || c.reference.text == "" || c.expiresAt <= now then
        (db', answer) == (db, Failed(InvalidInput))
      else if c.digest in db.grants || Blank(c.reference.text) || c.expiresAt <= start
        || (exists d :: d in db.grants && db.grants[d].reference == c.reference) then
        (db', answer) == (db, Failed(Storage))
      else
        && db' == Db(
             db.submissions[id := Submission(s.form, s.createdAt, Some(Approved), Some(now), Some(now), None)],
             db.reviews[review :=
               Review(id, r.reference, r.expiresAt, r.createdAt, Decided, Some(now), None)],
             db.grants[c.digest :=
               Grant(id, s.form.email, c.reference, c.expiresAt, start, Active, None, None, None, None, None)])
        && answer == ApprovedAs(
             Approval(id, s.form.email, s.form.profile.farmName, c.digest, c.reference, c.expiresAt), true)
  {
    ReviewColumns(db, review);
    Store.ApproveExec(db, review, c, now, start);
    if db.reviews[review].status == Open { ApprovalInserts(db, review, c, start); }
    if PlanApprove(db, review, c, now, start).Reread? {
      Decisions.RereadFinds(db, review, db.reviews[review].submissionId);
      StandsGranted(db, review);
    }
    hide Valid, Exec, Insertable, ApprovalOf, StandingGrant;
  }

  /** The approval is the grant of the application, with the application's farm name. */
  ghost predicate StandingGrant(db: Db, id: Id, a: Approval) {
    && a.application == id && a.digest in db.grants && id in db.submissions
    && db.grants[a.digest].submissionId == id && db.grants[a.digest].email == a.email
    && db.grants[a.digest].reference == a.reference && db.grants[a.digest].expiresAt == a.expiresAt
    && a.farmName == db.submissions[id].form.profile.farmName
  }

  lemma StandsGranted(db: Db, review: Digest)
    requires review in db.reviews && ApprovalOf(db, db.reviews[review].submissionId).Some?
    ensures var id := db.reviews[review].submissionId; StandingGrant(db, id, ApprovalOf(db, id).value)
  {
  }

  /** Both decisions on a review that is not there. */
  lemma UnknownReview(db: Db, review: Digest, c: Candidate, now: Time, start: Time)
    requires review !in db.reviews
    ensures Exec(db, Approve(review, c, now, start)) == (db, Failed(InvalidReview))
    ensures Exec(db, Decline(review, now)) == (db, Failed(InvalidReview))
  {
    hide ApplyAll, ApprovalOf;
  }

  lemma DeclineAnswers(db: Db, review: Digest, now: Time)
    requires Valid(db) && review in db.reviews
    ensures var r := db.reviews[review];
      && r.submissionId in db.submissions
      && var id, s := r.submissionId, db.submissions[r.submissionId];
      var (db', answer) := Exec(db, Decline(review, now));
      if now >= r.expiresAt || r.status == ReviewStatus.ReviewExpired then (db', answer) == (db, Failed(ReviewClosed))
      else if r.status == Decided && s.approval == Some(Declined) then (db', answer) == (db, DeclineRecorded)
      else if r.status != Open then (db', answer) == (db, Failed(DecisionConflict))
      else
        && db' == Db(
             db.submissions[id := Submission(s.form, s.createdAt, Some(Declined), Some(now), None, Some(now))],
             db.reviews[review := Review(id, r.reference, r.expiresAt, r.createdAt, Decided, Some(now), None)],
             db.grants)
        && answer == DeclineRecorded
  {
    ReviewColumns(db, review);
    Store.DeclineExec(db, review, now);
    hide Valid, Exec;
  }

  // ---- Submissions ------------------------------------------------------------------------------

  /** The terms under which a submission is inserted, with its review if it has one. */
  lemma SubmissionInserts(db: Db, form: Form, capability: Option<Candidate>, id: Id, start: Time)
    requires (form.kind == EarlyAccess) == capability.Some? && Valid(db)
    ensures Storable(db, form, capability, id, start) <==>
      && id !in db.submissions
      && !Blank(form.email) && !Blank(form.profile.source) && !Blank(form.fingerprint)
      && (capability.Some? ==>
            var c := capability.value;
            && c.digest !in db.reviews && (forall d :: d in db.reviews ==> db.reviews[d].reference != c.reference)
            && |c.digest.bytes| == 32 && !Blank(c.reference.text) && c.expiresAt > start)
  {
    hide SubmissionsOk, GrantsOk, UniqueGrants, UniqueReviews;
    if id !in db.submissions && capability.Some? {
      assert forall d :: d in db.reviews ==> db.reviews[d].submissionId != id;
    }
  }

  lemma CreateAnswers(db: Db, form: Form, since: Time, capability: Option<Candidate>, id: Id, start: Time)
    requires Valid(db)
    ensures var (db', answer) := Exec(db, Create(form, since, capability, id, start));
      if (form.kind == EarlyAccess) != capability.Some? then (db', answer) == (db, Failed(Storage))
      else if exists i :: i in db.submissions && Duplicates(db.submissions[i], form, since) then
        && db' == db && answer.Submitted? && !answer.created && answer.id in db.submissions
        && Duplicates(db.submissions[answer.id], form, since)
        && (forall i :: i in db.submissions && Duplicates(db.submissions[i], form, since) ==>
              db.submissions[i].createdAt <= db.submissions[answer.id].createdAt)
      else if Storable(db, form, capability, id, start) then
        && answer == Submitted(id, true)
        && db' == Db(
             db.submissions[id := Submission(form, start, if form.kind == EarlyAccess then Some(Pending) else None,
               None, None, None)],
             if capability.None? then db.reviews else db.reviews[capability.value.digest :=
               Review(id, capability.value.reference, capability.value.expiresAt, start, Open, None, None)],
             db.grants)
      else (db', answer) == (db, Failed(Storage))
  {
    Store.CreateExec(db, form, since, capability, id, start);
    WindowRows(db, form, since);
    if Recent(db, form.fingerprint, since) != map[] { NewestReported(db, form, since); }
    hide Valid, Exec, Storable, Recent, Newest;
  }

  lemma WindowRows(db: Db, form: Form, since: Time)
    ensures Recent(db, form.fingerprint, since) != map[] <==>
      exists i :: i in db.submissions && Duplicates(db.submissions[i], form, since)
  {
    var recent := Recent(db, form.fingerprint, since);
    if recent != map[] {
      var i :| i in recent;
      assert i in db.submissions && Duplicates(db.submissions[i], form, since);
    }
    if i :| i in db.submissions && Duplicates(db.submissions[i], form, since) { assert i in recent; }
  }

  lemma NewestReported(db: Db, form: Form, since: Time)
    requires Recent(db, form.fingerprint, since) != map[]
    ensures var n := Newest(Recent(db, form.fingerprint, since));
      && n in db.submissions && Duplicates(db.submissions[n], form, since)
      && forall i :: i in db.submissions && Duplicates(db.submissions[i], form, since) ==>
           db.submissions[i].createdAt <= db.submissions[n].createdAt
  {
    var recent := Recent(db, form.fingerprint, since);
    var n := Newest(recent);
    hide Newest;
    forall i | i in db.submissions && Duplicates(db.submissions[i], form, since)
      ensures db.submissions[i].createdAt <= db.submissions[n].createdAt
    {
      assert i in recent && recent[i] <= recent[n];
    }
  }

  /** The row has the same fingerprint and was created at the cut-off or later. */
  predicate Duplicates(s: Submission, form: Form, since: Time) {
    s.form.fingerprint == form.fingerprint && s.createdAt >= since
  }

  // ---- The operator -----------------------------------------------------------------------------

  lemma CloseGrantAnswers(db: Db, d: Digest, closing: Closing, now: Time)
    requires Valid(db) && d in db.grants && db.grants[d].consumedAt.None? && db.grants[d].revokedAt.None?
    ensures Exec(db, CloseGrant(d, closing, now)) == (db.(grants := db.grants[d :=
      if closing == Revoke then db.grants[d].(status := GrantRevoked, revokedAt := Some(now))
      else db.grants[d].(status := GrantStatus.GrantExpired)]), OperatorDone)
  {
    GrantShape(db, d);
    hide Valid;
    ApplyOne(SetGrantClosed(d, closing, now), db);
    OverlayOneRow(db);
    hide ApplyAll;
  }

  lemma CloseReviewAnswers(db: Db, d: Digest, closing: Closing, now: Time)
    requires Valid(db) && d in db.reviews && db.reviews[d].status == Open
    ensures Exec(db, CloseReview(d, closing, now)) == (db.(reviews := db.reviews[d :=
      if closing == Revoke then db.reviews[d].(status := ReviewRevoked, revokedAt := Some(now))
      else db.reviews[d].(status := ReviewStatus.ReviewExpired)]), OperatorDone)
  {
    hide Valid, Blank;
    ReviewShape(db, d);
    ApplyOne(SetReviewClosed(d, closing, now), db);
    OverlayOneRow(db);
    hide ApplyAll, SubmissionCheck, GrantCheck, PlanApprove, PlanDecline, PlanCreate;
  }

  lemma ReviewShape(db: Db, d: Digest)
    requires Valid(db) && d in db.reviews
    ensures ReviewCheck(db.reviews[d])
  {
    hide GrantsOk, UniqueGrants, UniqueReviews, SubmissionsOk;
  }
}
