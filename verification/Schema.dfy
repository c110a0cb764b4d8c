/** The three approval tables, their CHECK and UNIQUE constraints, and the stronger
    invariant that every reachable state satisfies. */
module Schema {
  import opened Base

  /** A submission's uuid, as a number. */
  type Id = nat

  datatype Kind = Waitlist | EarlyAccess

  datatype Decision = Pending | Approved | Declined

  /** The columns of a submission that no transaction ever branches on. */
  datatype Profile = Profile(
    name: string, farmName: string, farmType: string, productionScale: string,
    currentTrackingMethod: string, features: seq<string>, interested: Option<bool>,
    message: string, source: string)

  /** The columns an application is inserted with. None of them is ever updated. */
  datatype Form = Form(kind: Kind, email: string, profile: Profile, fingerprint: string)

  datatype Submission = Submission(
    form: Form, createdAt: Time,
    approval: Option<Decision>, reviewedAt: Option<Time>,
    approvedAt: Option<Time>, declinedAt: Option<Time>)

  datatype ReviewStatus = Open | Decided | ReviewRevoked | ReviewExpired

  datatype Review = Review(
    submissionId: Id, reference: Reference, expiresAt: Time, createdAt: Time,
    status: ReviewStatus, decidedAt: Option<Time>, revokedAt: Option<Time>)

  datatype GrantStatus = Active | Claimed | Consumed | GrantRevoked | GrantExpired

  datatype Grant = Grant(
    submissionId: Id, email: string, reference: Reference, expiresAt: Time, createdAt: Time,
    status: GrantStatus, claimedAt: Option<Time>, claimExpiresAt: Option<Time>,
    claimDigest: Option<Digest>, consumedAt: Option<Time>, revokedAt: Option<Time>)

  /** Reviews and grants are keyed by their UNIQUE token_digest, which stands for the
      surrogate uuid as well. */
  datatype Db = Db(submissions: map<Id, Submission>, reviews: map<Digest, Review>, grants: map<Digest, Grant>)

  const EMPTY := Db(map[], map[], map[])

  /** Row versions of `changes` replace or extend the rows of `db`. */
  function Overlay(db: Db, changes: Db): Db {
    Db(db.submissions + changes.submissions, db.reviews + changes.reviews, db.grants + changes.grants)
  }

  // ---- CHECK constraints ------------------------------------------------------------------------

  predicate SubmissionCheck(s: Submission) {
    && !Blank(s.form.email) && !Blank(s.form.profile.source) && !Blank(s.form.fingerprint)
    && match s.form.kind
       case Waitlist => s.approval.None? && s.reviewedAt.None? && s.approvedAt.None? && s.declinedAt.None?
       case EarlyAccess =>
         && s.approval.Some?
         && match s.approval.value
            case Pending => s.reviewedAt.None? && s.approvedAt.None? && s.declinedAt.None?
            case Approved => s.reviewedAt.Some? && s.approvedAt.Some? && s.declinedAt.None?
            case Declined => s.reviewedAt.Some? && s.approvedAt.None? && s.declinedAt.Some?
  }

  predicate ReviewCheck(r: Review) {
    && !Blank(r.reference.text)
    && r.expiresAt > r.createdAt
    && match r.status
       case Open => r.decidedAt.None? && r.revokedAt.None?
       case Decided => r.decidedAt.Some? && r.revokedAt.None?
       case ReviewRevoked => r.revokedAt.Some?
       case ReviewExpired => r.decidedAt.None? && r.revokedAt.None?
  }

  predicate GrantCheck(g: Grant) {
    && !Blank(g.email) && !Blank(g.reference.text)
    && g.expiresAt > g.createdAt
    && (g.claimDigest.Some? ==> |g.claimDigest.value.bytes| == DIGEST_LENGTH)
    && match g.status
       case Active =>
         g.claimedAt.None? && g.claimExpiresAt.None? && g.claimDigest.None? && g.consumedAt.None? && g.revokedAt.None?
       case Claimed =>
         g.claimedAt.Some? && g.claimExpiresAt.Some? && g.claimDigest.Some? && g.consumedAt.None? && g.revokedAt.None?
       case Consumed => g.consumedAt.Some? && g.revokedAt.None?
       case GrantRevoked => g.revokedAt.Some? && g.consumedAt.None?
       case GrantExpired => g.consumedAt.None? && g.revokedAt.None?
  }

  // ---- UNIQUE constraints -----------------------------------------------------------------------

  predicate FreeReview(db: Db, r: Review) {
    forall d <- db.reviews :: db.reviews[d].submissionId != r.submissionId && db.reviews[d].reference != r.reference
  }

  predicate FreeGrant(db: Db, g: Grant) {
    forall d <- db.grants :: db.grants[d].submissionId != g.submissionId && db.grants[d].reference != g.reference
  }

  ghost predicate UniqueReviews(db: Db) {
    forall d, e :: d in db.reviews && e in db.reviews && d != e ==>
      db.reviews[d].submissionId != db.reviews[e].submissionId && db.reviews[d].reference != db.reviews[e].reference
  }

  ghost predicate UniqueGrants(db: Db) {
    forall d, e :: d in db.grants && e in db.grants && d != e ==>
      db.grants[d].submissionId != db.grants[e].submissionId && db.grants[d].reference != db.grants[e].reference
  }

  // ---- The invariant of reachable states --------------------------------------------------------

  ghost predicate HasGrant(db: Db, id: Id) {
    exists d :: d in db.grants && db.grants[d].submissionId == id
  }

  ghost predicate SubmissionsOk(db: Db) {
    forall id :: id in db.submissions ==>
      && SubmissionCheck(db.submissions[id])
      && (db.submissions[id].approval == Some(Approved) ==> HasGrant(db, id))
  }

  /** A review belongs to an early-access application and agrees with its decision. */
  predicate ReviewFits(d: Digest, r: Review, s: Submission) {
    && |d.bytes| == DIGEST_LENGTH
    && ReviewCheck(r)
    && s.form.kind == EarlyAccess
    && (r.status == Open || r.status == ReviewExpired ==> s.approval == Some(Pending))
    && (r.status == Decided ==> s.approval != Some(Pending))
  }

  ghost predicate ReviewsOk(db: Db) {
    forall d :: d in db.reviews ==>
      && db.reviews[d].submissionId in db.submissions
      && ReviewFits(d, db.reviews[d], db.submissions[db.reviews[d].submissionId])
  }

  /** What the CHECK constraint leaves open about the claim columns and the code does not:
      a consumed grant keeps its digest and drops its lease; the three claim columns of any
      other grant are set together or not at all. */
  predicate ClaimColumns(g: Grant) {
    match g.status
    case Consumed => g.claimDigest.Some? && g.claimedAt.None? && g.claimExpiresAt.None?
    case _ => g.claimDigest.Some? == g.claimedAt.Some? == g.claimExpiresAt.Some?
  }

  predicate GrantFits(d: Digest, g: Grant, s: Submission) {
    && |d.bytes| == DIGEST_LENGTH
    && GrantCheck(g) && ClaimColumns(g)
    && s.approval == Some(Approved) && s.form.email == g.email
  }

  ghost predicate GrantsOk(db: Db) {
    forall d :: d in db.grants ==>
      && db.grants[d].submissionId in db.submissions
      && GrantFits(d, db.grants[d], db.submissions[db.grants[d].submissionId])
  }

  ghost predicate Valid(db: Db) {
    SubmissionsOk(db) && ReviewsOk(db) && GrantsOk(db) && UniqueReviews(db) && UniqueGrants(db)
  }

  /** The cross-table law: approved applications, and no others, have a grant; there is
      only one; and it is bound to the applicant's address. */
  lemma ApprovedIffOneGrant(db: Db, id: Id)
    requires Valid(db) && id in db.submissions
    ensures db.submissions[id].approval == Some(Approved) <==> HasGrant(db, id)
    ensures forall d, e | d in db.grants && e in db.grants ::
      db.grants[d].submissionId == id && db.grants[e].submissionId == id ==> d == e
    ensures forall d :: d in db.grants && db.grants[d].submissionId == id ==>
      db.grants[d].email == db.submissions[id].form.email
  {
  }

  // ---- The initial state ------------------------------------------------------------------------

  /** A submission as it stands before migration 3 adds the approval columns. */
  datatype Legacy = Legacy(form: Form, createdAt: Time)

  predicate LegacyCheck(l: Legacy) {
    !Blank(l.form.email) && !Blank(l.form.profile.source) && !Blank(l.form.fingerprint)
  }

  /** Migration 3: four NULL columns, the backfill, two empty tables. */
  function Migrate(legacy: map<Id, Legacy>): Db {
    Db(map id <- legacy :: Backfilled(legacy[id]), map[], map[])
  }

  function Backfilled(l: Legacy): Submission {
    Submission(l.form, l.createdAt, if l.form.kind == EarlyAccess then Some(Pending) else None, None, None, None)
  }

  lemma MigrateValid(legacy: map<Id, Legacy>)
    requires forall id <- legacy :: LegacyCheck(legacy[id])
    ensures var db := Migrate(legacy);
      && Valid(db) && db.reviews == map[] && db.grants == map[] && db.submissions.Keys == legacy.Keys
      && forall id <- legacy ::
           && db.submissions[id].form == legacy[id].form && db.submissions[id].createdAt == legacy[id].createdAt
           && db.submissions[id].approval == if legacy[id].form.kind == EarlyAccess then Some(Pending) else None
  {
  }
}
