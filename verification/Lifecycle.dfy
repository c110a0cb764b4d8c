/** What one transaction executed alone does to each row, and that it keeps the invariant. */
module Lifecycle {
  import opened Base
  import opened Schema
  import opened Transactions

  // ---- Closed forms of the multi-statement transactions -----------------------------------------

  lemma OverlayOneRow(db: Db)
    ensures Overlay(db, EMPTY) == db
    ensures forall id, s ::
      Overlay(db, Db(map[id := s], map[], map[])) == Db(db.submissions[id := s], db.reviews, db.grants)
    ensures forall d, r ::
      Overlay(db, Db(map[], map[d := r], map[])) == Db(db.submissions, db.reviews[d := r], db.grants)
    ensures forall d, g ::
      Overlay(db, Db(map[], map[], map[d := g])) == Db(db.submissions, db.reviews, db.grants[d := g])
  {
    assert db.submissions + map[] == db.submissions && db.reviews + map[] == db.reviews;
    assert db.grants + map[] == db.grants;
    assert forall id, s :: db.submissions + map[id := s] == db.submissions[id := s];
    assert forall d, r :: db.reviews + map[d := r] == db.reviews[d := r];
    assert forall d, g :: db.grants + map[d := g] == db.grants[d := g];
  }

  lemma Decides(db: Db, id: Id, now: Time)
    requires id in db.submissions && SubmissionCheck(db.submissions[id]) && db.submissions[id].approval == Some(Pending)
    ensures Apply(SetApproved(id, now), db) ==
      Some(Db(db.submissions[id := WithApproved(db.submissions[id], now)], db.reviews, db.grants))
    ensures Apply(SetDeclined(id, now), db) ==
      Some(Db(db.submissions[id := WithDeclined(db.submissions[id], now)], db.reviews, db.grants))
  {
    OverlayOneRow(db);
  }

  /** UNIQUE(early_access_submission_id) makes the second UPDATE touch one row. */
  lemma DecidesOneReview(db: Db, d: Digest, now: Time)
    requires UniqueReviews(db) && d in db.reviews && db.reviews[d].status == Open && ReviewCheck(db.reviews[d])
    ensures Apply(SetDecided(db.reviews[d].submissionId, now), db)
         == Some(Db(db.submissions, db.reviews[d := WithDecided(db.reviews[d], now)], db.grants))
  {
    var id := db.reviews[d].submissionId;
    var rows := map e | e in db.reviews && db.reviews[e].submissionId == id :: WithDecided(db.reviews[e], now);
    assert rows == map[d := WithDecided(db.reviews[d], now)];
    assert DecidedRows(db, id, now) == Some(Db(map[], rows, map[]));
    OverlayOneRow(db);
  }

  lemma Inserts(db: Db, d: Digest, g: Grant)
    ensures Apply(InsertGrant(d, g), db) ==
      if Insertable(db, d, g) then Some(Db(db.submissions, db.reviews, db.grants[d := g])) else None
  {
    OverlayOneRow(db);
  }

  /** The state after an approval that creates a grant. */
  function AfterApprove(db: Db, review: Digest, c: Candidate, now: Time, start: Time): Db
    requires review in db.reviews && db.reviews[review].submissionId in db.submissions
  {
    var id := db.reviews[review].submissionId;
    var s := db.submissions[id];
    Db(db.submissions[id := WithApproved(s, now)],
       db.reviews[review := WithDecided(db.reviews[review], now)],
       db.grants[c.digest := NewGrant(id, s.form.email, c, start)])
  }

  function AfterDecline(db: Db, review: Digest, now: Time): Db
    requires review in db.reviews && db.reviews[review].submissionId in db.submissions
  {
    var id := db.reviews[review].submissionId;
    Db(db.submissions[id := WithDeclined(db.submissions[id], now)],
       db.reviews[review := WithDecided(db.reviews[review], now)],
       db.grants)
  }

  /** The state after an application is stored. */
  function AfterCreate(db: Db, form: Form, capability: Option<Candidate>, id: Id, start: Time): Db {
    Db(db.submissions[id := NewSubmission(form, start)],
       if capability.Some? then db.reviews[capability.value.digest := NewReview(id, capability.value, start)]
         else db.reviews,
       db.grants)
  }

  lemma ApproveWrites(db: Db, review: Digest, c: Candidate, now: Time, start: Time)
    requires UniqueReviews(db) && PlanApprove(db, review, c, now, start).Write?
    requires ReviewCheck(db.reviews[review]) && SubmissionCheck(db.submissions[db.reviews[review].submissionId])
    ensures var id := db.reviews[review].submissionId;
      var g := NewGrant(id, db.submissions[id].form.email, c, start);
      ApplyAll(PlanApprove(db, review, c, now, start).stmts, db) ==
        if Insertable(db, c.digest, g) then Some(AfterApprove(db, review, c, now, start)) else None
  {
    var id := db.reviews[review].submissionId;
    var g := NewGrant(id, db.submissions[id].form.email, c, start);
    ApplyThree(SetApproved(id, now), SetDecided(id, now), InsertGrant(c.digest, g), db);
    Decides(db, id, now);
    var db1 := Apply(SetApproved(id, now), db).value;
    DecidesOneReview(db1, review, now);
    var db2 := Apply(SetDecided(id, now), db1).value;
    Inserts(db2, c.digest, g);
  }

  lemma DeclineWrites(db: Db, review: Digest, now: Time)
    requires UniqueReviews(db) && PlanDecline(db, review, now).Write? && PlanDecline(db, review, now).stmts != []
    requires ReviewCheck(db.reviews[review]) && SubmissionCheck(db.submissions[db.reviews[review].submissionId])
    ensures ApplyAll(PlanDecline(db, review, now).stmts, db) == Some(AfterDecline(db, review, now))
  {
    var id := db.reviews[review].submissionId;
    ApplyTwo(SetDeclined(id, now), SetDecided(id, now), db);
    Decides(db, id, now);
    DecidesOneReview(Apply(SetDeclined(id, now), db).value, review, now);
  }

  lemma CreateWrites(db: Db, form: Form, capability: Option<Candidate>, id: Id, start: Time)
    requires forall d :: d in db.reviews ==> db.reviews[d].submissionId in db.submissions
    ensures ApplyAll(CreateStmts(form, capability, id, start), db) ==
      if Storable(db, form, capability, id, start) then Some(AfterCreate(db, form, capability, id, start)) else None
  {
    OverlayOneRow(db);
    var insert := InsertSubmission(id, NewSubmission(form, start));
    if capability.None? {
      ApplyOne(insert, db);
    } else {
      var c := capability.value;
      ApplyTwo(insert, InsertReview(c.digest, NewReview(id, c, start)), db);
      if Apply(insert, db).Some? {
        OverlayOneRow(Apply(insert, db).value);
      }
    }
  }

  /** Neither INSERT of CreateSubmission is rejected. */
  predicate Storable(db: Db, form: Form, capability: Option<Candidate>, id: Id, start: Time) {
    && id !in db.submissions && SubmissionCheck(NewSubmission(form, start))
    && (capability.Some? ==>
          var c := capability.value;
          && c.digest !in db.reviews && |c.digest.bytes| == DIGEST_LENGTH
          && FreeReview(db, NewReview(id, c, start)) && ReviewCheck(NewReview(id, c, start)))
  }

  // ---- How a single row may change --------------------------------------------------------------

  predicate SameForm(s: Submission, t: Submission) {
    s.form == t.form && s.createdAt == t.createdAt
  }

  predicate SameReview(r: Review, q: Review) {
    r.submissionId == q.submissionId && r.reference == q.reference
    && r.expiresAt == q.expiresAt && r.createdAt == q.createdAt
  }

  /** The columns approvalQuery reads, none of which changes after the INSERT. */
  predicate SameGrant(g: Grant, h: Grant) {
    g.submissionId == h.submissionId && g.email == h.email && g.reference == h.reference
    && g.expiresAt == h.expiresAt && g.createdAt == h.createdAt
  }

  /** A decision is made once, from Pending, through the application's own review. */
  ghost predicate SubmissionMove(db: Db, req: Request, id: Id, s: Submission, t: Submission) {
    || t == s
    || (&& s.approval == Some(Pending)
        && ((&& req.Approve? && t == WithApproved(s, req.now)
             && req.review in db.reviews && db.reviews[req.review].submissionId == id)
         || (&& req.Decline? && t == WithDeclined(s, req.now)
             && req.review in db.reviews && db.reviews[req.review].submissionId == id)))
  }

  predicate ReviewMove(req: Request, d: Digest, r: Review, q: Review) {
    || q == r
    || (&& r.status == Open && (req.Approve? || req.Decline?) && req.review == d
        && req.now < r.expiresAt && q == WithDecided(r, req.now))
    || (req.CloseReview? && req.review == d && ReviewCheck(q) && q == WithReviewClosed(r, req.closing, req.now))
  }

  /** Every transition of a grant, with the whole condition under which it happens. */
  predicate GrantMove(req: Request, d: Digest, g: Grant, h: Grant) {
    || h == g
    || ClaimMove(req, d, g, h) || ConsumeMove(req, d, g, h) || ReleaseMove(req, d, g, h) || CloseMove(req, d, g, h)
  }

  predicate ClaimMove(req: Request, d: Digest, g: Grant, h: Grant) {
    && req.Claim? && req.grant == d && req.email == g.email
    && req.now < g.expiresAt
    && (g.status == Active || (g.status == Claimed && !LeaseOpen(g, req.now)))
    && |req.claim.bytes| == DIGEST_LENGTH
    && h == WithClaim(g, req.now, req.leaseEnd, req.claim)
  }

  predicate ConsumeMove(req: Request, d: Digest, g: Grant, h: Grant) {
    && req.Consume? && req.grant == d && req.email == g.email
    && g.status == Claimed && g.claimDigest == Some(req.claim)
    && req.now < g.expiresAt && LeaseOpen(g, req.now)
    && h == WithConsumed(g, req.now)
  }

  predicate ReleaseMove(req: Request, d: Digest, g: Grant, h: Grant) {
    && req.Release? && req.grant == d && req.email == g.email
    && g.status == Claimed && g.claimDigest == Some(req.claim)
    && req.now < g.expiresAt
    && h == WithReleased(g)
  }

  predicate CloseMove(req: Request, d: Digest, g: Grant, h: Grant) {
    && req.CloseGrant? && req.grant == d && g.status != Consumed
    && GrantCheck(h) && h == WithGrantClosed(g, req.closing, req.now)
  }

  // ---- One transaction, request by request ------------------------------------------------------

  /** An approval leaves the database alone or makes exactly these three changes. */
  lemma ApproveCases(db: Db, review: Digest, c: Candidate, now: Time, start: Time)
    requires Valid(db)
    ensures var (db', answer) := Exec(db, Approve(review, c, now, start));
      || (db' == db && (answer.ApprovedAs? ==> PlanApprove(db, review, c, now, start).Reread?))
      || (&& PlanApprove(db, review, c, now, start).Write?
          && answer == PlanApprove(db, review, c, now, start).answer
          && db' == AfterApprove(db, review, c, now, start)
          && var id := db.reviews[review].submissionId;
             Insertable(db, c.digest, NewGrant(id, db.submissions[id].form.email, c, start)))
  {
    if PlanApprove(db, review, c, now, start).Write? {
      ApproveWrites(db, review, c, now, start);
    }
  }

  lemma DeclineCases(db: Db, review: Digest, now: Time)
    requires Valid(db)
    ensures var (db', answer) := Exec(db, Decline(review, now));
      || (db' == db && (answer == DeclineRecorded ==> PlanDecline(db, review, now) == Write([], DeclineRecorded)))
      || (&& PlanDecline(db, review, now).Write? && PlanDecline(db, review, now).stmts != []
          && answer == DeclineRecorded && db' == AfterDecline(db, review, now))
  {
    if PlanDecline(db, review, now).Write? && PlanDecline(db, review, now).stmts != [] {
      DeclineWrites(db, review, now);
    }
  }

  /** A submission is stored exactly when its kind fits its capability, the window is empty and
      neither INSERT is rejected. */
  lemma CreateCases(db: Db, form: Form, since: Time, capability: Option<Candidate>, id: Id, start: Time)
    requires Valid(db)
    ensures var (db', answer) := Exec(db, Create(form, since, capability, id, start));
      if (form.kind == EarlyAccess) == capability.Some? && Recent(db, form.fingerprint, since) == map[]
        && Storable(db, form, capability, id, start)
      then answer == Submitted(id, true) && db' == AfterCreate(db, form, capability, id, start)
      else db' == db && !(answer.Submitted? && answer.created)
  {
    CreateWrites(db, form, capability, id, start);
  }

  predicate OnGrant(req: Request) {
    req.Claim? || req.Consume? || req.Release? || req.CloseGrant?
  }

  /** Claim, Consume, Release and an operator's closing touch one row of one table. */
  ghost predicate TouchesOneGrant(db: Db, req: Request, db': Db)
    requires OnGrant(req)
  {
    || db' == db
    || (&& req.grant in db.grants && req.grant in db'.grants
        && var h := db'.grants[req.grant];
           && db' == Db(db.submissions, db.reviews, db.grants[req.grant := h])
           && GrantMove(req, req.grant, db.grants[req.grant], h) && GrantCheck(h))
  }

  lemma ClaimCases(db: Db, d: Digest, email: string, claim: Digest, now: Time, leaseEnd: Time)
    ensures var req := Claim(d, email, claim, now, leaseEnd); TouchesOneGrant(db, req, Exec(db, req).0)
  {
    var plan := PlanClaim(db, d, email, claim, now, leaseEnd);
    if plan.Write? && plan.stmts != [] {
      ApplyOne(SetClaimed(d, now, leaseEnd, claim), db);
      OverlayOneRow(db);
    }
  }

  lemma ConsumeCases(db: Db, d: Digest, email: string, claim: Digest, now: Time)
    requires d in db.grants ==> GrantCheck(db.grants[d])
    ensures TouchesOneGrant(db, Consume(d, email, claim, now), Exec(db, Consume(d, email, claim, now)).0)
  {
    var plan := PlanConsume(db, d, email, claim, now);
    if plan.Write? && plan.stmts != [] {
      ApplyOne(SetConsumed(d, now), db);
      OverlayOneRow(db);
    }
  }

  lemma ReleaseCases(db: Db, d: Digest, email: string, claim: Digest, now: Time)
    requires d in db.grants ==> GrantCheck(db.grants[d])
    ensures TouchesOneGrant(db, Release(d, email, claim, now), Exec(db, Release(d, email, claim, now)).0)
  {
    var plan := PlanRelease(db, d, email, claim, now);
    if plan.Write? && plan.stmts != [] {
      ApplyOne(SetReleased(d), db);
      OverlayOneRow(db);
    }
  }

  lemma CloseGrantCases(db: Db, d: Digest, closing: Closing, now: Time)
    requires d in db.grants ==> GrantCheck(db.grants[d])
    ensures TouchesOneGrant(db, CloseGrant(d, closing, now), Exec(db, CloseGrant(d, closing, now)).0)
  {
    ApplyOne(SetGrantClosed(d, closing, now), db);
    OverlayOneRow(db);
  }

  lemma GrantCases(db: Db, req: Request)
    requires Valid(db) && OnGrant(req)
    ensures TouchesOneGrant(db, req, Exec(db, req).0)
  {
    GrantShape(db, req.grant);
    hide *;
    match req
    case Claim(d, email, claim, now, leaseEnd) => ClaimCases(db, d, email, claim, now, leaseEnd);
    case Consume(d, email, claim, now) => ConsumeCases(db, d, email, claim, now);
    case Release(d, email, claim, now) => ReleaseCases(db, d, email, claim, now);
    case CloseGrant(d, closing, now) => CloseGrantCases(db, d, closing, now);
  }

  lemma GrantShape(db: Db, d: Digest)
    requires Valid(db)
    ensures d in db.grants ==> GrantCheck(db.grants[d]) && ClaimColumns(db.grants[d])
  {
  }

  lemma CloseReviewCases(db: Db, d: Digest, closing: Closing, now: Time)
    requires Valid(db)
    ensures var db' := Exec(db, CloseReview(d, closing, now)).0;
      || db' == db
      || (&& d in db.reviews && ReviewCheck(WithReviewClosed(db.reviews[d], closing, now))
          && db' == Db(db.submissions, db.reviews[d := WithReviewClosed(db.reviews[d], closing, now)], db.grants))
  {
    hide Valid;
    ApplyOne(SetReviewClosed(d, closing, now), db);
    OverlayOneRow(db);
  }

  // ---- The invariant, transaction by transaction ------------------------------------------------

  /** Grants only appear, and keep the columns that tie them to their application. */
  ghost predicate KeepsGrants(db: Db, db': Db) {
    forall d :: d in db.grants ==> d in db'.grants && SameGrant(db.grants[d], db'.grants[d])
  }

  lemma KeepsHasGrant(db: Db, db': Db)
    requires KeepsGrants(db, db')
    ensures forall id :: HasGrant(db, id) ==> HasGrant(db', id)
  {
    forall id | HasGrant(db, id) ensures HasGrant(db', id) {
      var d :| d in db.grants && db.grants[d].submissionId == id;
      assert d in db'.grants && db'.grants[d].submissionId == id;
    }
  }

  lemma SubmissionsKept(db: Db, db': Db, id: Id, s: Submission)
    requires SubmissionsOk(db) && KeepsGrants(db, db') && db'.submissions == db.submissions[id := s]
    requires SubmissionCheck(s) && (s.approval == Some(Approved) ==> HasGrant(db', id))
    ensures SubmissionsOk(db')
  {
    KeepsHasGrant(db, db');
  }

  lemma SubmissionsUntouched(db: Db, db': Db)
    requires SubmissionsOk(db) && KeepsGrants(db, db') && db'.submissions == db.submissions
    ensures SubmissionsOk(db')
  {
    KeepsHasGrant(db, db');
  }

  lemma DecidedFits(d: Digest, r: Review, s: Submission, s': Submission, now: Time)
    requires ReviewFits(d, r, s) && r.status == Open && s'.form == s.form && s'.approval != Some(Pending)
    ensures var q := WithDecided(r, now);
      ReviewFits(d, q, s') && q.submissionId == r.submissionId && q.reference == r.reference
  {
  }

  /** Deciding an application through its one review. */
  lemma ReviewsDecided(db: Db, db': Db, d: Digest, s: Submission, now: Time)
    requires ReviewsOk(db) && UniqueReviews(db) && d in db.reviews && db.reviews[d].status == Open
    requires var id := db.reviews[d].submissionId;
      && s.form == db.submissions[id].form && s.approval != Some(Pending)
      && db'.submissions == db.submissions[id := s]
      && db'.reviews == db.reviews[d := WithDecided(db.reviews[d], now)]
    ensures ReviewsOk(db') && UniqueReviews(db')
  {
    DecidedFits(d, db.reviews[d], db.submissions[db.reviews[d].submissionId], s, now);
    hide ReviewFits, WithDecided;
    forall e | e in db'.reviews
      ensures db'.reviews[e].submissionId in db'.submissions
      ensures ReviewFits(e, db'.reviews[e], db'.submissions[db'.reviews[e].submissionId])
    {
      assert e != d ==> db.reviews[e].submissionId != db.reviews[d].submissionId;
    }
  }

  lemma GrantsAppended(db: Db, db': Db, d: Digest, g: Grant, s: Submission)
    requires GrantsOk(db) && UniqueGrants(db) && Insertable(db, d, g) && GrantFits(d, g, s)
    requires db.submissions[g.submissionId].approval == Some(Pending)
    requires db'.submissions == db.submissions[g.submissionId := s] && db'.grants == db.grants[d := g]
    ensures GrantsOk(db') && UniqueGrants(db') && KeepsGrants(db, db') && HasGrant(db', g.submissionId)
  {
    assert db'.grants[d].submissionId == g.submissionId;
  }

  lemma GrantsStay(db: Db, db': Db, id: Id, s: Submission)
    requires GrantsOk(db) && UniqueGrants(db) && id in db.submissions && db.submissions[id].approval == Some(Pending)
    requires db'.submissions == db.submissions[id := s] && db'.grants == db.grants
    ensures GrantsOk(db') && UniqueGrants(db') && KeepsGrants(db, db')
  {
  }

  lemma AfterApproveValid(db: Db, review: Digest, c: Candidate, now: Time, start: Time)
    requires Valid(db) && PlanApprove(db, review, c, now, start).Write?
    requires var id := db.reviews[review].submissionId;
      Insertable(db, c.digest, NewGrant(id, db.submissions[id].form.email, c, start))
    ensures Valid(AfterApprove(db, review, c, now, start))
  {
    var id := db.reviews[review].submissionId;
    var g := NewGrant(id, db.submissions[id].form.email, c, start);
    var s := WithApproved(db.submissions[id], now);
    var db' := AfterApprove(db, review, c, now, start);
    assert SubmissionCheck(s) && GrantFits(c.digest, g, s) by {
      hide ReviewsOk, GrantsOk, UniqueReviews, UniqueGrants, FreeGrant;
    }
    hide SubmissionsOk, ReviewsOk, GrantsOk, UniqueReviews, UniqueGrants, Insertable, GrantFits, SubmissionCheck;
    GrantsAppended(db, db', c.digest, g, s);
    SubmissionsKept(db, db', id, s);
    ReviewsDecided(db, db', review, s, now);
  }

  lemma AfterDeclineValid(db: Db, review: Digest, now: Time)
    requires Valid(db) && PlanDecline(db, review, now).Write? && PlanDecline(db, review, now).stmts != []
    ensures Valid(AfterDecline(db, review, now))
  {
    var id := db.reviews[review].submissionId;
    var s := WithDeclined(db.submissions[id], now);
    var db' := AfterDecline(db, review, now);
    assert SubmissionCheck(s) by { hide ReviewsOk, GrantsOk, UniqueReviews, UniqueGrants; }
    GrantsStay(db, db', id, s);
    hide SubmissionsOk, ReviewsOk, GrantsOk, UniqueReviews, UniqueGrants, SubmissionCheck;
    SubmissionsKept(db, db', id, s);
    ReviewsDecided(db, db', review, s, now);
  }

  lemma ReviewsAppended(db: Db, db': Db, form: Form, capability: Option<Candidate>, id: Id, start: Time)
    requires ReviewsOk(db) && UniqueReviews(db) && Storable(db, form, capability, id, start)
    requires (form.kind == EarlyAccess) == capability.Some? && db' == AfterCreate(db, form, capability, id, start)
    ensures ReviewsOk(db') && UniqueReviews(db')
  {
    hide SubmissionCheck, ReviewCheck;
  }

  lemma AfterCreateValid(db: Db, form: Form, capability: Option<Candidate>, id: Id, start: Time)
    requires Valid(db) && Storable(db, form, capability, id, start) && (form.kind == EarlyAccess) == capability.Some?
    ensures Valid(AfterCreate(db, form, capability, id, start))
  {
    hide SubmissionsOk, ReviewsOk, UniqueReviews, SubmissionCheck, GrantFits;
    var db' := AfterCreate(db, form, capability, id, start);
    ReviewsAppended(db, db', form, capability, id, start);
    assert GrantsOk(db') && UniqueGrants(db') && KeepsGrants(db, db');
    SubmissionsKept(db, db', id, NewSubmission(form, start));
  }

  lemma GrantUpdateValid(db: Db, d: Digest, h: Grant)
    requires Valid(db) && d in db.grants && SameGrant(db.grants[d], h)
    requires h.submissionId in db.submissions && GrantFits(d, h, db.submissions[h.submissionId])
    ensures Valid(Db(db.submissions, db.reviews, db.grants[d := h]))
  {
    hide GrantFits, ReviewFits, SubmissionCheck;
    SubmissionsUntouched(db, Db(db.submissions, db.reviews, db.grants[d := h]));
  }

  lemma ClosedFits(d: Digest, r: Review, s: Submission, closing: Closing, now: Time)
    requires ReviewFits(d, r, s) && ReviewCheck(WithReviewClosed(r, closing, now))
    ensures var closed := WithReviewClosed(r, closing, now);
      ReviewFits(d, closed, s) && closed.submissionId == r.submissionId && closed.reference == r.reference
  {
  }

  lemma ReviewsClosed(db: Db, d: Digest, closing: Closing, now: Time)
    requires ReviewsOk(db) && UniqueReviews(db) && d in db.reviews
    requires ReviewCheck(WithReviewClosed(db.reviews[d], closing, now))
    ensures var db' := Db(db.submissions, db.reviews[d := WithReviewClosed(db.reviews[d], closing, now)], db.grants);
      ReviewsOk(db') && UniqueReviews(db')
  {
    var r := db.reviews[d];
    ClosedFits(d, r, db.submissions[r.submissionId], closing, now);
    hide ReviewFits, ReviewCheck, WithReviewClosed;
  }

  lemma ReviewUpdateValid(db: Db, d: Digest, closing: Closing, now: Time)
    requires Valid(db) && d in db.reviews && ReviewCheck(WithReviewClosed(db.reviews[d], closing, now))
    ensures Valid(Db(db.submissions, db.reviews[d := WithReviewClosed(db.reviews[d], closing, now)], db.grants))
  {
    ReviewsClosed(db, d, closing, now);
    hide ReviewsOk, UniqueReviews, GrantFits, SubmissionCheck, ReviewCheck, WithReviewClosed;
    var closed := WithReviewClosed(db.reviews[d], closing, now);
    SubmissionsUntouched(db, Db(db.submissions, db.reviews[d := closed], db.grants));
  }

  lemma MoveFits(req: Request, d: Digest, g: Grant, h: Grant, s: Submission)
    requires GrantFits(d, g, s) && GrantMove(req, d, g, h) && GrantCheck(h)
    ensures GrantFits(d, h, s) && SameGrant(g, h)
  {
  }

  lemma GrantValid(db: Db, req: Request)
    requires Valid(db) && OnGrant(req)
    ensures Valid(Exec(db, req).0)
  {
    GrantCases(db, req);
    hide Exec, SubmissionsOk, ReviewsOk, UniqueReviews, UniqueGrants, GrantFits, GrantMove, GrantCheck;
    var db' := Exec(db, req).0;
    if db' != db {
      var g, h := db.grants[req.grant], db'.grants[req.grant];
      MoveFits(req, req.grant, g, h, db.submissions[g.submissionId]);
      GrantUpdateValid(db, req.grant, h);
    }
  }

  /** Every transaction keeps the invariant, whatever its arguments and clock readings. */
  lemma ExecValid(db: Db, req: Request)
    requires Valid(db)
    ensures Valid(Exec(db, req).0)
  {
    hide Valid, Exec;
    if Exec(db, req).0 != db {
      match req
      case Approve(review, c, now, start) =>
        ApproveCases(db, review, c, now, start);
        AfterApproveValid(db, review, c, now, start);
      case Decline(review, now) =>
        DeclineCases(db, review, now);
        AfterDeclineValid(db, review, now);
      case Create(form, since, capability, id, start) =>
        CreateCases(db, form, since, capability, id, start);
        AfterCreateValid(db, form, capability, id, start);
      case CloseReview(d, closing, now) =>
        CloseReviewCases(db, d, closing, now);
        ReviewUpdateValid(db, d, closing, now);
      case _ => GrantValid(db, req);
    }
  }

  /** No row is ever removed, and each changes only as the three Move predicates allow. */
  ghost predicate RowsMove(db: Db, req: Request, db': Db) {
    && (forall id :: id in db.submissions ==>
          id in db'.submissions && SubmissionMove(db, req, id, db.submissions[id], db'.submissions[id]))
    && (forall d :: d in db.reviews ==> d in db'.reviews && ReviewMove(req, d, db.reviews[d], db'.reviews[d]))
    && (forall d :: d in db.grants ==> d in db'.grants && GrantMove(req, d, db.grants[d], db'.grants[d]))
  }

  lemma ApproveMoves(db: Db, review: Digest, c: Candidate, now: Time, start: Time)
    requires PlanApprove(db, review, c, now, start).Write? && c.digest !in db.grants
    ensures RowsMove(db, Approve(review, c, now, start), AfterApprove(db, review, c, now, start))
  {
  }

  lemma DeclineMoves(db: Db, review: Digest, now: Time)
    requires PlanDecline(db, review, now).Write? && PlanDecline(db, review, now).stmts != []
    ensures RowsMove(db, Decline(review, now), AfterDecline(db, review, now))
  {
  }

  lemma CreateMoves(db: Db, req: Request)
    requires req.Create? && Storable(db, req.form, req.capability, req.id, req.start)
    ensures RowsMove(db, req, AfterCreate(db, req.form, req.capability, req.id, req.start))
  {
    hide SubmissionCheck, ReviewCheck, FreeReview;
  }

  lemma GrantMoves(db: Db, req: Request, db': Db)
    requires OnGrant(req) && TouchesOneGrant(db, req, db')
    ensures RowsMove(db, req, db')
  {
    hide ClaimMove, ConsumeMove, ReleaseMove, CloseMove, GrantCheck;
  }

  lemma ExecMoves(db: Db, req: Request)
    requires Valid(db)
    ensures RowsMove(db, req, Exec(db, req).0)
  {
    hide Valid, Exec, SubmissionMove, ReviewMove, GrantMove;
    var db' := Exec(db, req).0;
    if db' == db {
      StandStill(db, req);
    } else {
      hide RowsMove;
      match req
      case Approve(review, c, now, start) =>
        ApproveCases(db, review, c, now, start);
        ApproveMoves(db, review, c, now, start);
      case Decline(review, now) =>
        DeclineCases(db, review, now);
        DeclineMoves(db, review, now);
      case Create(form, since, capability, id, start) =>
        CreateCases(db, form, since, capability, id, start);
        CreateMoves(db, req);
      case CloseReview(d, closing, now) =>
        CloseReviewCases(db, d, closing, now);
        CloseReviewMoves(db, d, closing, now);
      case _ =>
        GrantCases(db, req);
        GrantMoves(db, req, db');
    }
  }

  lemma CloseReviewMoves(db: Db, d: Digest, closing: Closing, now: Time)
    requires d in db.reviews && ReviewCheck(WithReviewClosed(db.reviews[d], closing, now))
    ensures RowsMove(db, CloseReview(d, closing, now),
      Db(db.submissions, db.reviews[d := WithReviewClosed(db.reviews[d], closing, now)], db.grants))
  {
    hide ReviewCheck;
  }

  lemma StandStill(db: Db, req: Request)
    ensures RowsMove(db, req, db)
  {
  }
}
