/** The transactions of the PostgreSQL store, each executed alone: which rows it reads, how it
    branches on them, and the SQL statements it then issues. `Exec` is the atomic
    specification that the imperative store and the interleaved machine are proved against. */
module Transactions {
  import opened Base
  import opened Schema

  datatype Error =
    | InvalidReview | ReviewClosed | DecisionConflict
    | InvalidGrant | GrantLapsed | GrantTaken | InvalidClaim | InvalidInput
    | Storage  // a driver error or a rejected statement: anything that is not a named error

  datatype Candidate = Candidate(digest: Digest, reference: Reference, expiresAt: Time)

  /** How an operator may close a capability; no function of the service does. */
  datatype Closing = Expire | Revoke

  /** `now` is the service's clock reading, `start` the database's transaction start. */
  datatype Request =
    | Approve(review: Digest, candidate: Candidate, now: Time, start: Time)
    | Decline(review: Digest, now: Time)
    | Claim(grant: Digest, email: string, claim: Digest, now: Time, leaseEnd: Time)
    | Consume(grant: Digest, email: string, claim: Digest, now: Time)
    | Release(grant: Digest, email: string, claim: Digest, now: Time)
    | Create(form: Form, since: Time, capability: Option<Candidate>, id: Id, start: Time)
    | CloseGrant(grant: Digest, closing: Closing, now: Time)
    | CloseReview(review: Digest, closing: Closing, now: Time)

  datatype Approval = Approval(
    application: Id, email: string, farmName: string, digest: Digest, reference: Reference, expiresAt: Time)

  datatype GrantView = GrantView(
    email: string, status: GrantStatus, expiresAt: Time, claimExpiresAt: Option<Time>, reference: Reference)

  datatype Answer =
    | Failed(error: Error)
    | ApprovedAs(approval: Approval, usedCandidate: bool)
    | DeclineRecorded
    | GrantIs(grant: GrantView)
    | Submitted(id: Id, created: bool)
    | OperatorDone

  // ---- SQL statements ---------------------------------------------------------------------------

  datatype Stmt =
    | SetApproved(id: Id, now: Time)
    | SetDeclined(id: Id, now: Time)
    | SetDecided(id: Id, now: Time)
    | InsertGrant(digest: Digest, grant: Grant)
    | SetClaimed(digest: Digest, now: Time, leaseEnd: Time, claim: Digest)
    | SetConsumed(digest: Digest, now: Time)
    | SetReleased(digest: Digest)
    | InsertSubmission(id: Id, submission: Submission)
    | InsertReview(digest: Digest, review: Review)
    | SetGrantClosed(digest: Digest, closing: Closing, now: Time)
    | SetReviewClosed(digest: Digest, closing: Closing, now: Time)

  function WithApproved(s: Submission, now: Time): Submission {
    s.(approval := Some(Approved), reviewedAt := Some(now), approvedAt := Some(now))
  }

  function WithDeclined(s: Submission, now: Time): Submission {
    s.(approval := Some(Declined), reviewedAt := Some(now), declinedAt := Some(now))
  }

  function WithDecided(r: Review, now: Time): Review {
    r.(status := Decided, decidedAt := Some(now))
  }

  function WithClaim(g: Grant, now: Time, leaseEnd: Time, claim: Digest): Grant {
    g.(status := Claimed, claimedAt := Some(now), claimExpiresAt := Some(leaseEnd), claimDigest := Some(claim))
  }

  function WithConsumed(g: Grant, now: Time): Grant {
    g.(status := Consumed, consumedAt := Some(now), claimedAt := None, claimExpiresAt := None)
  }

  function WithReleased(g: Grant): Grant {
    g.(status := Active, claimedAt := None, claimExpiresAt := None, claimDigest := None)
  }

  function WithGrantClosed(g: Grant, closing: Closing, now: Time): Grant {
    match closing
    case Expire => g.(status := GrantStatus.GrantExpired)
    case Revoke => g.(status := GrantRevoked, revokedAt := Some(now))
  }

  function WithReviewClosed(r: Review, closing: Closing, now: Time): Review {
    match closing
    case Expire => r.(status := ReviewStatus.ReviewExpired)
    case Revoke => r.(status := ReviewRevoked, revokedAt := Some(now))
  }

  function SubmissionRow(id: Id, s: Submission): Option<Db> {
    if SubmissionCheck(s) then Some(Db(map[id := s], map[], map[])) else None
  }

  function GrantRow(d: Digest, g: Grant): Option<Db> {
    if GrantCheck(g) then Some(Db(map[], map[], map[d := g])) else None
  }

  function ReviewRow(d: Digest, r: Review): Option<Db> {
    if ReviewCheck(r) then Some(Db(map[], map[d := r], map[])) else None
  }

  /** UPDATE ... WHERE early_access_submission_id = id. */
  function DecidedRows(db: Db, id: Id, now: Time): Option<Db> {
    var rows := map d | d in db.reviews && db.reviews[d].submissionId == id :: WithDecided(db.reviews[d], now);
    if forall d <- rows :: ReviewCheck(rows[d]) then Some(Db(map[], rows, map[])) else None
  }

  /** The INSERT is not rejected by a key, by UNIQUE, by REFERENCES or by a CHECK constraint. */
  predicate Insertable(db: Db, d: Digest, g: Grant) {
    && d !in db.grants && FreeGrant(db, g) && g.submissionId in db.submissions
    && |d.bytes| == DIGEST_LENGTH && GrantCheck(g)
  }

  predicate ReviewInsertable(db: Db, d: Digest, r: Review) {
    && d !in db.reviews && FreeReview(db, r) && r.submissionId in db.submissions
    && |d.bytes| == DIGEST_LENGTH && ReviewCheck(r)
  }

  /** The row versions a statement writes when its transaction sees `db`;
      None when a CHECK, UNIQUE or REFERENCES constraint rejects it. */
  function Rows(s: Stmt, db: Db): Option<Db> {
    match s
    case SetApproved(id, now) =>
      if id in db.submissions then SubmissionRow(id, WithApproved(db.submissions[id], now)) else Some(EMPTY)
    case SetDeclined(id, now) =>
      if id in db.submissions then SubmissionRow(id, WithDeclined(db.submissions[id], now)) else Some(EMPTY)
    case SetDecided(id, now) => DecidedRows(db, id, now)
    case InsertGrant(d, g) =>
      if Insertable(db, d, g) then Some(Db(map[], map[], map[d := g])) else None
    case SetClaimed(d, now, leaseEnd, claim) =>
      if d in db.grants then GrantRow(d, WithClaim(db.grants[d], now, leaseEnd, claim)) else Some(EMPTY)
    case SetConsumed(d, now) =>
      if d in db.grants then GrantRow(d, WithConsumed(db.grants[d], now)) else Some(EMPTY)
    case SetReleased(d) =>
      if d in db.grants then GrantRow(d, WithReleased(db.grants[d])) else Some(EMPTY)
    case InsertSubmission(id, row) =>
      if id in db.submissions then None else SubmissionRow(id, row)
    case InsertReview(d, r) =>
      if ReviewInsertable(db, d, r) then Some(Db(map[], map[d := r], map[])) else None
    case SetGrantClosed(d, closing, now) =>
      if d in db.grants then GrantRow(d, WithGrantClosed(db.grants[d], closing, now)) else Some(EMPTY)
    case SetReviewClosed(d, closing, now) =>
      if d in db.reviews then ReviewRow(d, WithReviewClosed(db.reviews[d], closing, now)) else Some(EMPTY)
  }

  function Apply(s: Stmt, db: Db): Option<Db> {
    var rows :- Rows(s, db);
    Some(Overlay(db, rows))
  }

  function ApplyAll(stmts: seq<Stmt>, db: Db): Option<Db> {
    if stmts == [] then Some(db) else
    var db' :- Apply(stmts[0], db);
    ApplyAll(stmts[1..], db')
  }

  /** A further statement of the same transaction, if none before it was rejected. */
  function Then(before: Option<Db>, s: Stmt): Option<Db> {
    if before.None? then None else Apply(s, before.value)
  }

  lemma ApplyOne(s: Stmt, db: Db)
    ensures ApplyAll([s], db) == Apply(s, db)
  {
    assert [s][1..] == [];
  }

  lemma ApplyTwo(s0: Stmt, s1: Stmt, db: Db)
    ensures ApplyAll([s0, s1], db) == Then(Apply(s0, db), s1)
  {
    assert [s0, s1][1..] == [s1];
    if Apply(s0, db).Some? { ApplyOne(s1, Apply(s0, db).value); }
  }

  lemma ApplyThree(s0: Stmt, s1: Stmt, s2: Stmt, db: Db)
    ensures ApplyAll([s0, s1, s2], db) == Then(Then(Apply(s0, db), s1), s2)
  {
    assert [s0, s1, s2][1..] == [s1, s2];
    if Apply(s0, db).Some? { ApplyTwo(s1, s2, Apply(s0, db).value); }
  }

  // ---- Queries ----------------------------------------------------------------------------------

  /** approvalQuery: the grant of an application, joined with the application. */
  ghost function ApprovalOf(db: Db, id: Id): Option<Approval> {
    if HasGrant(db, id) && id in db.submissions then
      var d :| d in db.grants && db.grants[d].submissionId == id;
      Some(ApprovalFrom(db, id, d))
    else None
  }

  function ApprovalFrom(db: Db, id: Id, d: Digest): Approval
    requires id in db.submissions && d in db.grants
  {
    var g := db.grants[d];
    Approval(id, g.email, db.submissions[id].form.profile.farmName, d, g.reference, g.expiresAt)
  }

  /** The window query: creation times of the rows that make a submission a duplicate. */
  function Recent(db: Db, fingerprint: string, since: Time): map<Id, Time> {
    map id | id in db.submissions
        && db.submissions[id].form.fingerprint == fingerprint && db.submissions[id].createdAt >= since
      :: db.submissions[id].createdAt
  }

  ghost predicate IsNewest(times: map<Id, Time>, id: Id) {
    id in times && forall other :: other in times ==> times[other] <= times[id]
  }

  /** ORDER BY created_at DESC LIMIT 1. */
  ghost function Newest(times: map<Id, Time>): (id: Id)
    requires times != map[]
    ensures IsNewest(times, id)
  {
    NewestExists(times);
    var id :| IsNewest(times, id);
    id
  }

  lemma {:induction false} NewestExists(times: map<Id, Time>)
    requires times != map[]
    ensures exists id :: IsNewest(times, id)
    decreases |times|
  {
    var some :| some in times;
    var rest := times - {some};
    if rest == map[] {
      forall other | other in times ensures other == some {
        assert other == some || other in rest;
      }
      assert IsNewest(times, some);
    } else {
      assert |rest| < |times| by { assert rest.Keys == times.Keys - {some}; }
      NewestExists(rest);
      var best :| IsNewest(rest, best);
      var id := if times[best] >= times[some] then best else some;
      forall other | other in times ensures times[other] <= times[id] {
        assert other == some || other in rest;
      }
      assert IsNewest(times, id);
    }
  }

  function View(g: Grant): GrantView {
    GrantView(g.email, g.status, g.expiresAt, g.claimExpiresAt, g.reference)
  }

  /** COALESCE(claim_reference_digest, '') compared in constant time. */
  predicate SameClaim(g: Grant, claim: Digest) {
    (if g.claimDigest.Some? then g.claimDigest.value else Digest([])) == claim
  }

  predicate LeaseOpen(g: Grant, now: Time) {
    g.claimExpiresAt.Some? && now < g.claimExpiresAt.value
  }

  // ---- Branches ---------------------------------------------------------------------------------

  /** What a transaction does once its locking read has returned. */
  datatype Plan =
    | Reject(error: Error)
    | Write(stmts: seq<Stmt>, answer: Answer)
    | Reread(application: Id)  // the approval already stands: read its grant, write nothing

  function NewGrant(id: Id, email: string, c: Candidate, start: Time): Grant {
    Grant(id, email, c.reference, c.expiresAt, start, Active, None, None, None, None, None)
  }

  function PlanApprove(db: Db, review: Digest, c: Candidate, now: Time, start: Time): Plan {
    if review !in db.reviews || db.reviews[review].submissionId !in db.submissions then Reject(InvalidReview) else
    var r := db.reviews[review];
    var id := r.submissionId;
    var s := db.submissions[id];
    if s.approval.None? then Reject(Storage)
    else if now >= r.expiresAt || r.status == ReviewStatus.ReviewExpired then Reject(ReviewClosed)
    else if r.status == ReviewRevoked then Reject(InvalidReview)
    else if s.approval == Some(Approved) && r.status == Decided then Reread(id)
    else if s.approval != Some(Pending) || r.status != Open then Reject(DecisionConflict)
    else if |c.digest.bytes| != DIGEST_LENGTH || c.reference.text == "" || c.expiresAt <= now then Reject(InvalidInput)
    else Write(
      [SetApproved(id, now), SetDecided(id, now), InsertGrant(c.digest, NewGrant(id, s.form.email, c, start))],
      ApprovedAs(Approval(id, s.form.email, s.form.profile.farmName, c.digest, c.reference, c.expiresAt), true))
  }

  function PlanDecline(db: Db, review: Digest, now: Time): Plan {
    if review !in db.reviews || db.reviews[review].submissionId !in db.submissions then Reject(InvalidReview) else
    var r := db.reviews[review];
    var id := r.submissionId;
    var s := db.submissions[id];
    if s.approval.None? then Reject(Storage)
    else if now >= r.expiresAt || r.status == ReviewStatus.ReviewExpired then Reject(ReviewClosed)
    else if s.approval == Some(Declined) && r.status == Decided then Write([], DeclineRecorded)
    else if s.approval != Some(Pending) || r.status != Open then Reject(DecisionConflict)
    else Write([SetDeclined(id, now), SetDecided(id, now)], DeclineRecorded)
  }

  /** grantQuery: the digest and the address must both match. */
  predicate GrantFound(db: Db, d: Digest, email: string) {
    d in db.grants && db.grants[d].email == email
  }

  function PlanClaim(db: Db, d: Digest, email: string, claim: Digest, now: Time, leaseEnd: Time): Plan {
    if !GrantFound(db, d, email) then Reject(InvalidGrant) else
    var g := db.grants[d];
    if now >= g.expiresAt || g.status == GrantStatus.GrantExpired then Reject(GrantLapsed)
    else if g.status == Claimed && !SameClaim(g, claim) && LeaseOpen(g, now) then Reject(GrantTaken)
    else if g.status == Claimed && SameClaim(g, claim) && LeaseOpen(g, now) then Write([], GrantIs(View(g)))
    else if g.status != Claimed && g.status != Active then Reject(InvalidGrant)
    else Write([SetClaimed(d, now, leaseEnd, claim)],
               GrantIs(View(g).(status := Claimed, claimExpiresAt := Some(leaseEnd))))
  }

  function PlanConsume(db: Db, d: Digest, email: string, claim: Digest, now: Time): Plan {
    if !GrantFound(db, d, email) then Reject(InvalidGrant) else
    var g := db.grants[d];
    if g.status == Consumed then
      if !SameClaim(g, claim) then Reject(InvalidClaim) else Write([], GrantIs(View(g)))
    else if g.status != Claimed || now >= g.expiresAt || !LeaseOpen(g, now) || !SameClaim(g, claim) then
      Reject(InvalidClaim)
    else Write([SetConsumed(d, now)], GrantIs(View(g).(status := Consumed, claimExpiresAt := None)))
  }

  function PlanRelease(db: Db, d: Digest, email: string, claim: Digest, now: Time): Plan {
    if !GrantFound(db, d, email) then Reject(InvalidGrant) else
    var g := db.grants[d];
    if g.status != Claimed || !SameClaim(g, claim) then Reject(InvalidClaim)
    else if now >= g.expiresAt then Reject(GrantLapsed)
    else Write([SetReleased(d)], GrantIs(View(g).(status := Active, claimExpiresAt := None)))
  }

  /** created_at and the approval columns are set by the INSERT itself. */
  function NewSubmission(form: Form, start: Time): Submission {
    Submission(form, start, if form.kind == EarlyAccess then Some(Pending) else None, None, None, None)
  }

  function NewReview(id: Id, c: Candidate, start: Time): Review {
    Review(id, c.reference, c.expiresAt, start, Open, None, None)
  }

  function CreateStmts(form: Form, capability: Option<Candidate>, id: Id, start: Time): seq<Stmt> {
    var insert := InsertSubmission(id, NewSubmission(form, start));
    if capability.None? then [insert]
    else [insert, InsertReview(capability.value.digest, NewReview(id, capability.value, start))]
  }

  ghost function PlanCreate(db: Db, form: Form, since: Time, capability: Option<Candidate>, id: Id, start: Time): Plan {
    if (form.kind == EarlyAccess) != capability.Some? then Reject(Storage) else
    var recent := Recent(db, form.fingerprint, since);
    if recent != map[] then Write([], Submitted(Newest(recent), false))
    else Write(CreateStmts(form, capability, id, start), Submitted(id, true))
  }

  ghost function PlanOf(db: Db, req: Request): Plan {
    match req
    case Approve(review, c, now, start) => PlanApprove(db, review, c, now, start)
    case Decline(review, now) => PlanDecline(db, review, now)
    case Claim(d, email, claim, now, leaseEnd) => PlanClaim(db, d, email, claim, now, leaseEnd)
    case Consume(d, email, claim, now) => PlanConsume(db, d, email, claim, now)
    case Release(d, email, claim, now) => PlanRelease(db, d, email, claim, now)
    case Create(form, since, capability, id, start) => PlanCreate(db, form, since, capability, id, start)
    case CloseGrant(d, closing, now) =>
      if d in db.grants then Write([SetGrantClosed(d, closing, now)], OperatorDone) else Reject(InvalidGrant)
    case CloseReview(d, closing, now) =>
      if d in db.reviews then Write([SetReviewClosed(d, closing, now)], OperatorDone) else Reject(InvalidReview)
  }

  /** A whole transaction executed alone. A rejected statement rolls everything back. */
  ghost function Exec(db: Db, req: Request): (Db, Answer) {
    match PlanOf(db, req)
    case Reject(e) => (db, Failed(e))
    case Reread(id) =>
      (db, match ApprovalOf(db, id) case None => Failed(Storage) case Some(a) => ApprovedAs(a, false))
    case Write(stmts, answer) =>
      match ApplyAll(stmts, db)
      case None => (db, Failed(Storage))
      case Some(db') => (db', answer)
  }
}
