/** The PostgreSQL store as one client sees it: each method runs its statements in order on the
    rows its transaction sees and commits them, or returns early and leaves the tables alone. */
module Store {
  import opened Base
  import opened Schema
  import opened Transactions
  import opened Lifecycle

  /** Where the driver may report an error. A fault in Acknowledging leaves the commit in effect. */
  datatype Stage = Opening | Reading | Writing(statement: nat) | Committing | Acknowledging

  /** The atomic specification; or nothing but the report of a storage error; or the specified
      effect, reported as a storage error because the commit was not acknowledged. */
  ghost predicate Atomically(before: Db, req: Request, after: Db, answer: Answer, faults: set<Stage>) {
    || (Exec(before, req) == (after, answer) && (Acknowledging in faults ==> answer.Failed?))
    || (after == before && answer == Failed(Storage) && !(faults <= {Acknowledging}))
    || (after == Exec(before, req).0 && answer == Failed(Storage) && Acknowledging in faults)
  }

  /** No error of the driver is swallowed: one before the commit, in a statement the transaction does
      reach, leaves the tables alone, and one in any statement is answered with an error. */
  ghost predicate Strictly(before: Db, req: Request, after: Db, answer: Answer, faults: set<Stage>) {
    && (Opening in faults || Reading in faults ==> after == before && answer == Failed(Storage))
    && (forall i :: 0 <= i < Statements(before, req) && Writing(i) in faults ==>
          after == before && answer == Failed(Storage))
    && (Committing in faults ==> after == before && answer.Failed?)
    && (Acknowledging in faults ==> answer.Failed?)
  }

  /** The statements that follow the locking read. */
  ghost function Statements(db: Db, req: Request): nat {
    match PlanOf(db, req)
    case Reject(_) => 0
    case Reread(_) => 1
    case Write(stmts, _) => |stmts|
  }

  // ---- What each transaction comes to -----------------------------------------------------------

  lemma ApproveExec(db: Db, review: Digest, c: Candidate, now: Time, start: Time)
    requires Valid(db)
    ensures var plan := PlanApprove(db, review, c, now, start);
      Exec(db, Approve(review, c, now, start)) ==
        match plan
        case Reject(e) => (db, Failed(e))
        case Reread(id) =>
          (db, if ApprovalOf(db, id).None? then Failed(Storage) else ApprovedAs(ApprovalOf(db, id).value, false))
        case Write(_, answer) =>
          var id := db.reviews[review].submissionId;
          if Insertable(db, c.digest, NewGrant(id, db.submissions[id].form.email, c, start))
          then (AfterApprove(db, review, c, now, start), answer) else (db, Failed(Storage))
  {
    hide GrantsOk, UniqueGrants, Insertable;
    if PlanApprove(db, review, c, now, start).Write? { ApproveWrites(db, review, c, now, start); }
  }

  lemma DeclineExec(db: Db, review: Digest, now: Time)
    requires Valid(db)
    ensures Exec(db, Decline(review, now)) ==
      match PlanDecline(db, review, now)
      case Reject(e) => (db, Failed(e))
      case Reread(id) => (db, Failed(Storage))
      case Write(stmts, answer) => (if stmts == [] then db else AfterDecline(db, review, now), answer)
  {
    hide GrantsOk, UniqueGrants;
    if PlanDecline(db, review, now).Write? && PlanDecline(db, review, now).stmts != [] {
      DeclineWrites(db, review, now);
    }
  }

  lemma CreateExec(db: Db, form: Form, since: Time, capability: Option<Candidate>, id: Id, start: Time)
    requires Valid(db)
    ensures var (db', answer) := Exec(db, Create(form, since, capability, id, start));
      if (form.kind == EarlyAccess) != capability.Some? then (db', answer) == (db, Failed(Storage))
      else if Recent(db, form.fingerprint, since) != map[] then
        db' == db && answer == Submitted(Newest(Recent(db, form.fingerprint, since)), false)
      else if Storable(db, form, capability, id, start) then
        db' == AfterCreate(db, form, capability, id, start) && answer == Submitted(id, true)
      else (db', answer) == (db, Failed(Storage))
  {
    hide SubmissionsOk, GrantsOk, UniqueReviews, UniqueGrants, Storable;
    CreateWrites(db, form, capability, id, start);
  }

  /** A single-row UPDATE of a grant. */
  lemma UpdateExec(db: Db, s: Stmt, h: Grant)
    requires s.SetClaimed? || s.SetConsumed? || s.SetReleased?
    requires s.digest in db.grants
    requires h == (match s
      case SetClaimed(d, now, leaseEnd, claim) => WithClaim(db.grants[d], now, leaseEnd, claim)
      case SetConsumed(d, now) => WithConsumed(db.grants[d], now)
      case SetReleased(d) => WithReleased(db.grants[d])
      case _ => h)
    ensures ApplyAll([s], db) == if GrantCheck(h) then Some(db.(grants := db.grants[s.digest := h])) else None
  {
    ApplyOne(s, db);
    OverlayOneRow(db);
  }

  function DecideAll(reviews: map<Digest, Review>, id: Id, now: Time): map<Digest, Review> {
    map d | d in reviews :: if reviews[d].submissionId == id then WithDecided(reviews[d], now) else reviews[d]
  }

  lemma DecidesOne(db: Db, d: Digest, now: Time)
    requires Valid(db) && d in db.reviews
    ensures DecideAll(db.reviews, db.reviews[d].submissionId, now) == db.reviews[d := WithDecided(db.reviews[d], now)]
  {
    hide SubmissionsOk, ReviewsOk, GrantsOk, UniqueGrants;
  }

  lemma ReviewJoins(db: Db, d: Digest)
    requires Valid(db) && d in db.reviews
    ensures db.reviews[d].submissionId in db.submissions && db.submissions[db.reviews[d].submissionId].approval.Some?
  {
  }

  lemma SameInsertable(db: Db, tx: Db, d: Digest, g: Grant)
    requires tx.grants == db.grants && tx.submissions.Keys == db.submissions.Keys
    ensures Insertable(tx, d, g) <==> Insertable(db, d, g)
  {
  }

  lemma OneAnswer(db: Db, id: Id, d: Digest)
    requires Valid(db) && d in db.grants && db.grants[d].submissionId == id && id in db.submissions
    ensures ApprovalOf(db, id) == Some(ApprovalFrom(db, id, d))
  {
    hide SubmissionsOk, ReviewsOk, GrantsOk, UniqueReviews;
    assert HasGrant(db, id);
  }

  /** approvalQuery. */
  method QueryApproval(db: Db, id: Id) returns (a: Option<Approval>)
    requires Valid(db) && id in db.submissions
    ensures a == ApprovalOf(db, id)
  {
    hide Valid;
    if exists d :: d in db.grants && db.grants[d].submissionId == id {
      var d :| d in db.grants && db.grants[d].submissionId == id;
      OneAnswer(db, id, d);
      return Some(ApprovalFrom(db, id, d));
    }
    return None;
  }

  /** ORDER BY created_at DESC LIMIT 1. */
  method QueryNewest(times: map<Id, Time>) returns (newest: Option<Id>)
    ensures newest.None? <==> times == map[]
    ensures newest.Some? ==> IsNewest(times, newest.value)
  {
    newest := None;
    var rest := times.Keys;
    while rest != {}
      invariant rest <= times.Keys
      invariant newest.None? ==> rest == times.Keys
      invariant newest.Some? ==> newest.value in times
      invariant newest.Some? ==> forall other :: other in times && other !in rest ==>
        times[other] <= times[newest.value]
      decreases |rest|
    {
      var id :| id in rest;
      if newest.None? || times[newest.value] < times[id] { newest := Some(id); }
      rest := rest - {id};
    }
  }

  // ---- Reads ------------------------------------------------------------------------------------

  datatype Lookup<+T> = Found(value: T) | Missing(error: Error)

  datatype Metadata = Metadata(email: string, ownerName: string, farmName: string, status: GrantStatus, expiresAt: Time)

  /** The review page can show the application. */
  predicate Resolvable(db: Db, review: Digest, now: Time) {
    && review in db.reviews && db.reviews[review].submissionId in db.submissions
    && now < db.reviews[review].expiresAt && db.reviews[review].status == Open
    && db.submissions[db.reviews[review].submissionId].approval == Some(Pending)
  }

  predicate Validates(db: Db, d: Digest, email: string, now: Time) {
    && GrantFound(db, d, email) && now < db.grants[d].expiresAt
    && (db.grants[d].status == Active || db.grants[d].status == Claimed)
  }

  predicate Lapsed(db: Db, d: Digest, email: string, now: Time) {
    GrantFound(db, d, email) && (now >= db.grants[d].expiresAt || db.grants[d].status == GrantStatus.GrantExpired)
  }

  /** A review resolves exactly when a decision made through it at that moment would be recorded:
      a decline, or an approval with a well-formed candidate whose grant can be inserted. */
  lemma ResolvableIsDecidable(db: Db, review: Digest, c: Candidate, now: Time, start: Time)
    requires Valid(db) && |c.digest.bytes| == DIGEST_LENGTH && c.reference.text != "" && c.expiresAt > now
    ensures Resolvable(db, review, now) <==> Exec(db, Decline(review, now)).0 != db
    ensures Resolvable(db, review, now) <==> PlanApprove(db, review, c, now, start).Write?
  {
    hide Valid, Exec;
    if review in db.reviews { ReviewJoins(db, review); }
    DeclineWritesOnce(db, review, now);
  }

  lemma DeclineWritesOnce(db: Db, review: Digest, now: Time)
    requires Valid(db)
    ensures Exec(db, Decline(review, now)).0 != db <==>
      PlanDecline(db, review, now).Write? && PlanDecline(db, review, now).stmts != []
  {
    hide Valid, Exec, PlanDecline;
    DeclineExec(db, review, now);
    if PlanDecline(db, review, now).Write? && PlanDecline(db, review, now).stmts != [] {
      DeclineDecides(db, review, now);
    }
  }

  lemma DeclineDecides(db: Db, review: Digest, now: Time)
    requires PlanDecline(db, review, now).Write? && PlanDecline(db, review, now).stmts != []
    ensures review in db.reviews && db.reviews[review].submissionId in db.submissions
    ensures AfterDecline(db, review, now) != db
  {
    assert AfterDecline(db, review, now).reviews[review].status != db.reviews[review].status;
  }

  /** A grant validates exactly when a claim at that moment succeeds or is held off by the open
      lease of another claim. Which of the two it is, validation does not tell. A grant has lapsed
      exactly when a claim is told so. */
  lemma ValidatesIsClaimable(db: Db, d: Digest, email: string, claim: Digest, now: Time, leaseEnd: Time)
    requires Valid(db) && |claim.bytes| == DIGEST_LENGTH
    ensures var answer := Exec(db, Claim(d, email, claim, now, leaseEnd)).1;
      && (Validates(db, d, email, now) <==> answer.GrantIs? || answer == Failed(GrantTaken))
      && (Lapsed(db, d, email, now) <==> answer == Failed(GrantLapsed))
  {
    GrantShape(db, d);
    ClaimExec(db, d, email, claim, now, leaseEnd);
    hide Valid, Exec, GrantCheck;
    if Validates(db, d, email, now) { ClaimFits(db.grants[d], now, leaseEnd, claim); }
  }

  lemma ClaimExec(db: Db, d: Digest, email: string, claim: Digest, now: Time, leaseEnd: Time)
    ensures Exec(db, Claim(d, email, claim, now, leaseEnd)) ==
      match PlanClaim(db, d, email, claim, now, leaseEnd)
      case Reject(e) => (db, Failed(e))
      case Reread(id) => (db, Failed(Storage))
      case Write(stmts, answer) =>
        if stmts == [] then (db, answer)
        else if GrantCheck(WithClaim(db.grants[d], now, leaseEnd, claim))
        then (db.(grants := db.grants[d := WithClaim(db.grants[d], now, leaseEnd, claim)]), answer)
        else (db, Failed(Storage))
  {
    hide ApplyAll, GrantCheck;
    NothingToApply(db);
    if d in db.grants {
      UpdateExec(db, SetClaimed(d, now, leaseEnd, claim), WithClaim(db.grants[d], now, leaseEnd, claim));
    }
  }

  lemma ClaimFits(g: Grant, now: Time, leaseEnd: Time, claim: Digest)
    requires GrantCheck(g) && |claim.bytes| == DIGEST_LENGTH && (g.status == Active || g.status == Claimed)
    ensures GrantCheck(WithClaim(g, now, leaseEnd, claim))
  {
  }

  class PostgresStore {
    var submissions: map<Id, Submission>
    var reviews: map<Digest, Review>
    var grants: map<Digest, Grant>

    function Rows(): Db
      reads this
    {
      Db(submissions, reviews, grants)
    }

    constructor (db: Db)
      ensures Rows() == db
    {
      submissions, reviews, grants := db.submissions, db.reviews, db.grants;
    }

    method Commit(tx: Db)
      modifies this
      ensures Rows() == tx
    {
      submissions, reviews, grants := tx.submissions, tx.reviews, tx.grants;
    }

    method Approve(review: Digest, candidate: Candidate, now: Time, start: Time, faults: set<Stage>)
      returns (answer: Answer)
      requires Valid(Rows())
      modifies this
      ensures Atomically(old(Rows()), Request.Approve(review, candidate, now, start), Rows(), answer, faults)
      ensures Strictly(old(Rows()), Request.Approve(review, candidate, now, start), Rows(), answer, faults)
    {
      hide Valid, Exec, Insertable;
      var tx := Rows();
      ApproveExec(tx, review, candidate, now, start);
      if Opening in faults || Reading in faults { return Failed(Storage); }
      if review !in tx.reviews { return Failed(InvalidReview); }
      ReviewJoins(tx, review);
      DecidesOne(tx, review, now);
      var r := tx.reviews[review];
      var id := r.submissionId;
      var s := tx.submissions[id];
      if now >= r.expiresAt || r.status == ReviewStatus.ReviewExpired { return Failed(ReviewClosed); }
      if r.status == ReviewRevoked { return Failed(InvalidReview); }
      if s.approval == Some(Approved) && r.status == ReviewStatus.Decided {
        var approval := QueryApproval(tx, id);
        if approval.None? || Writing(0) in faults { return Failed(Storage); }
        if Committing in faults || Acknowledging in faults { return Failed(Storage); }
        return ApprovedAs(approval.value, false);
      }
      if s.approval != Some(Pending) || r.status != Open { return Failed(DecisionConflict); }
      if |candidate.digest.bytes| != DIGEST_LENGTH || candidate.reference.text == "" || candidate.expiresAt <= now {
        return Failed(InvalidInput);
      }
      if Writing(0) in faults { return Failed(Storage); }
      s := s.(approval := Some(Approved), reviewedAt := Some(now), approvedAt := Some(now));
      tx := tx.(submissions := tx.submissions[id := s]);
      if Writing(1) in faults { return Failed(Storage); }
      tx := tx.(reviews := DecideAll(tx.reviews, id, now));
      if Writing(2) in faults { return Failed(Storage); }
      var grant := NewGrant(id, s.form.email, candidate, start);
      SameInsertable(Rows(), tx, candidate.digest, grant);
      if !Insertable(tx, candidate.digest, grant) { return Failed(Storage); }
      tx := tx.(grants := tx.grants[candidate.digest := grant]);
      if Committing in faults { return Failed(Storage); }
      Commit(tx);
      if Acknowledging in faults { return Failed(Storage); }
      return ApprovedAs(Approval(id, s.form.email, s.form.profile.farmName,
        candidate.digest, candidate.reference, candidate.expiresAt), true);
    }

    method Decline(review: Digest, now: Time, faults: set<Stage>) returns (answer: Answer)
      requires Valid(Rows())
      modifies this
      ensures Atomically(old(Rows()), Request.Decline(review, now), Rows(), answer, faults)
      ensures Strictly(old(Rows()), Request.Decline(review, now), Rows(), answer, faults)
    {
      hide Valid, Exec;
      var tx := Rows();
      DeclineExec(tx, review, now);
      if Opening in faults || Reading in faults { return Failed(Storage); }
      if review !in tx.reviews { return Failed(InvalidReview); }
      ReviewJoins(tx, review);
      DecidesOne(tx, review, now);
      var r := tx.reviews[review];
      var id := r.submissionId;
      var s := tx.submissions[id];
      if now >= r.expiresAt || r.status == ReviewStatus.ReviewExpired { return Failed(ReviewClosed); }
      if s.approval == Some(Declined) && r.status == ReviewStatus.Decided {
        if Committing in faults || Acknowledging in faults { return Failed(Storage); }
        return DeclineRecorded;
      }
      if s.approval != Some(Pending) || r.status != Open { return Failed(DecisionConflict); }
      if Writing(0) in faults { return Failed(Storage); }
      s := s.(approval := Some(Declined), reviewedAt := Some(now), declinedAt := Some(now));
      tx := tx.(submissions := tx.submissions[id := s]);
      if Writing(1) in faults { return Failed(Storage); }
      tx := tx.(reviews := DecideAll(tx.reviews, id, now));
      if Committing in faults { return Failed(Storage); }
      Commit(tx);
      if Acknowledging in faults { return Failed(Storage); }
      return DeclineRecorded;
    }

    method ClaimGrant(d: Digest, email: string, claim: Digest, now: Time, leaseEnd: Time, faults: set<Stage>)
      returns (answer: Answer)
      requires Valid(Rows())
      modifies this
      ensures Atomically(old(Rows()), Claim(d, email, claim, now, leaseEnd), Rows(), answer, faults)
      ensures Strictly(old(Rows()), Claim(d, email, claim, now, leaseEnd), Rows(), answer, faults)
    {
      hide Valid, ApplyAll, GrantCheck;
      var tx := Rows();
      if Opening in faults || Reading in faults { return Failed(Storage); }
      if d !in tx.grants || tx.grants[d].email != email { return Failed(InvalidGrant); }
      var record := tx.grants[d];
      if now >= record.expiresAt || record.status == GrantStatus.GrantExpired { return Failed(GrantLapsed); }
      if record.status == Claimed {
        var sameClaim := SameClaim(record, claim);
        if !sameClaim && LeaseOpen(record, now) { return Failed(GrantTaken); }
        if sameClaim && LeaseOpen(record, now) {
          NothingToApply(tx);
          if Committing in faults || Acknowledging in faults { return Failed(Storage); }
          return GrantIs(View(record));
        }
      } else if record.status != Active {
        return Failed(InvalidGrant);
      }
      var claimed := record.(
        status := Claimed, claimedAt := Some(now), claimExpiresAt := Some(leaseEnd), claimDigest := Some(claim));
      UpdateExec(tx, SetClaimed(d, now, leaseEnd, claim), claimed);
      if Writing(0) in faults || !GrantCheck(claimed) { return Failed(Storage); }
      if Committing in faults { return Failed(Storage); }
      Commit(tx.(grants := tx.grants[d := claimed]));
      if Acknowledging in faults { return Failed(Storage); }
      return GrantIs(View(record).(status := Claimed, claimExpiresAt := Some(leaseEnd)));
    }

    method ConsumeGrant(d: Digest, email: string, claim: Digest, now: Time, faults: set<Stage>) returns (answer: Answer)
      requires Valid(Rows())
      modifies this
      ensures Atomically(old(Rows()), Consume(d, email, claim, now), Rows(), answer, faults)
      ensures Strictly(old(Rows()), Consume(d, email, claim, now), Rows(), answer, faults)
    {
      hide Valid, ApplyAll, GrantCheck;
      var tx := Rows();
      if Opening in faults || Reading in faults { return Failed(Storage); }
      if d !in tx.grants || tx.grants[d].email != email { return Failed(InvalidGrant); }
      var record := tx.grants[d];
      if record.status == Consumed {
        if !SameClaim(record, claim) { return Failed(InvalidClaim); }
        NothingToApply(tx);
        if Committing in faults || Acknowledging in faults { return Failed(Storage); }
        return GrantIs(View(record));
      }
      if record.status != Claimed || now >= record.expiresAt || !LeaseOpen(record, now) || !SameClaim(record, claim) {
        return Failed(InvalidClaim);
      }
      var consumed := record.(status := Consumed, consumedAt := Some(now), claimedAt := None, claimExpiresAt := None);
      UpdateExec(tx, SetConsumed(d, now), consumed);
      if Writing(0) in faults || !GrantCheck(consumed) { return Failed(Storage); }
      if Committing in faults { return Failed(Storage); }
      Commit(tx.(grants := tx.grants[d := consumed]));
      if Acknowledging in faults { return Failed(Storage); }
      return GrantIs(View(record).(status := Consumed, claimExpiresAt := None));
    }

    method ReleaseGrant(d: Digest, email: string, claim: Digest, now: Time, faults: set<Stage>) returns (answer: Answer)
      requires Valid(Rows())
      modifies this
      ensures Atomically(old(Rows()), Release(d, email, claim, now), Rows(), answer, faults)
      ensures Strictly(old(Rows()), Release(d, email, claim, now), Rows(), answer, faults)
    {
      hide Valid, ApplyAll, GrantCheck;
      var tx := Rows();
      if Opening in faults || Reading in faults { return Failed(Storage); }
      if d !in tx.grants || tx.grants[d].email != email { return Failed(InvalidGrant); }
      var record := tx.grants[d];
      if record.status != Claimed || !SameClaim(record, claim) { return Failed(InvalidClaim); }
      if now >= record.expiresAt { return Failed(GrantLapsed); }
      var active := record.(status := Active, claimedAt := None, claimExpiresAt := None, claimDigest := None);
      UpdateExec(tx, SetReleased(d), active);
      if Writing(0) in faults || !GrantCheck(active) { return Failed(Storage); }
      if Committing in faults { return Failed(Storage); }
      Commit(tx.(grants := tx.grants[d := active]));
      if Acknowledging in faults { return Failed(Storage); }
      return GrantIs(View(record).(status := Active, claimExpiresAt := None));
    }

    /** CreateSubmission: the window query, one or two INSERTs. `id` is the database's default
        uuid. Which of several equally new duplicates is reported is left to the database. */
    method CreateSubmission(form: Form, since: Time, capability: Option<Candidate>, id: Id, start: Time,
        faults: set<Stage>)
      returns (answer: Answer)
      requires Valid(Rows())
      modifies this
      ensures var before, req := old(Rows()), Create(form, since, capability, id, start);
        if answer.Submitted? && !answer.created then
          && Acknowledging !in faults && Rows() == before
          && IsNewest(Recent(before, form.fingerprint, since), answer.id)
          && Exec(before, req).1.Submitted? && !Exec(before, req).1.created
        else Atomically(before, req, Rows(), answer, faults)
      ensures Strictly(old(Rows()), Create(form, since, capability, id, start), Rows(), answer, faults)
    {
      hide Valid, Exec, SubmissionCheck, ReviewCheck, FreeReview, Newest;
      var tx := Rows();
      CreateExec(tx, form, since, capability, id, start);
      if (form.kind == EarlyAccess) != capability.Some? { return Failed(Storage); }
      if Opening in faults || Reading in faults { return Failed(Storage); }
      var existing := QueryNewest(Recent(tx, form.fingerprint, since));
      if existing.Some? {
        if Committing in faults || Acknowledging in faults { return Failed(Storage); }
        return Submitted(existing.value, false);
      }
      if Writing(0) in faults || id in tx.submissions || !SubmissionCheck(NewSubmission(form, start)) {
        return Failed(Storage);
      }
      tx := tx.(submissions := tx.submissions[id := NewSubmission(form, start)]);
      if capability.Some? {
        var c := capability.value;
        SameFreeReview(Rows(), tx, NewReview(id, c, start));
        if Writing(1) in faults || !ReviewInsertable(tx, c.digest, NewReview(id, c, start)) { return Failed(Storage); }
        tx := tx.(reviews := tx.reviews[c.digest := NewReview(id, c, start)]);
      }
      if Committing in faults { return Failed(Storage); }
      Commit(tx);
      if Acknowledging in faults { return Failed(Storage); }
      return Submitted(id, true);
    }

    method ResolveReview(review: Digest, now: Time, faults: set<Stage>) returns (r: Lookup<Submission>)
      requires Valid(Rows())
      ensures r.Found? <==> Reading !in faults && Resolvable(Rows(), review, now)
      ensures r.Found? ==> r.value == submissions[reviews[review].submissionId]
      ensures r.Missing? ==>
        r.error ==
        if Reading in faults then Storage
        else if review in reviews && now >= reviews[review].expiresAt then ReviewClosed else InvalidReview
    {
      hide Valid;
      if Reading in faults { return Missing(Storage); }
      if review !in reviews { return Missing(InvalidReview); }
      ReviewJoins(Rows(), review);
      var application := submissions[reviews[review].submissionId];
      if now >= reviews[review].expiresAt { return Missing(ReviewClosed); }
      if reviews[review].status != Open || application.approval != Some(Pending) { return Missing(InvalidReview); }
      return Found(application);
    }

    method ValidateGrant(d: Digest, email: string, now: Time, faults: set<Stage>) returns (r: Lookup<GrantView>)
      ensures r.Found? <==> Reading !in faults && Validates(Rows(), d, email, now)
      ensures r.Found? ==>
        var g := grants[d]; r.value == GrantView(g.email, g.status, g.expiresAt, g.claimExpiresAt, g.reference)
      ensures r.Missing? ==>
        r.error ==
        if Reading in faults then Storage else if Lapsed(Rows(), d, email, now) then GrantLapsed else InvalidGrant
    {
      if Reading in faults { return Missing(Storage); }
      if d !in grants || grants[d].email != email { return Missing(InvalidGrant); }
      var record := grants[d];
      if now >= record.expiresAt || record.status == GrantStatus.GrantExpired { return Missing(GrantLapsed); }
      if record.status != Active && record.status != Claimed { return Missing(InvalidGrant); }
      return Found(View(record));
    }

    /** The grant with this digest, joined with its application, whatever its status. */
    method ResolveGrant(d: Digest, faults: set<Stage>) returns (r: Lookup<Metadata>)
      requires Valid(Rows())
      ensures r.Found? <==> Reading !in faults && d in grants
      ensures r.Found? ==>
        && grants[d].submissionId in submissions
        && var g, p := grants[d], submissions[grants[d].submissionId].form.profile;
           r.value == Metadata(g.email, p.name, p.farmName, g.status, g.expiresAt)
      ensures r.Missing? ==> r.error == if Reading in faults then Storage else InvalidGrant
    {
      if Reading in faults { return Missing(Storage); }
      if d !in grants { return Missing(InvalidGrant); }
      var g := grants[d];
      var p := submissions[g.submissionId].form.profile;
      return Found(Metadata(g.email, p.name, p.farmName, g.status, g.expiresAt));
    }
  }

  lemma NothingToApply(db: Db)
    ensures ApplyAll([], db) == Some(db)
  {
  }

  lemma SameFreeReview(db: Db, tx: Db, r: Review)
    requires tx.reviews == db.reviews
    ensures FreeReview(tx, r) <==> FreeReview(db, r)
  {
  }
}
