/** The approval and submission services, statement by statement, over the token store, the
    database and the mailer. Each method is proved to be a run of module Protocol with no other
    call in between, so that what is proved of interleaved calls is proved of this code. */
module Services {
  import opened Base
  import opened Schema
  import opened Transactions
  import opened Lifecycle
  import opened Protocol
  import Text
  import Tokens
  import Normalization
  import Messages
  import Coherence
  import Store
  import Answers

  /** What one call meets: its random token, the clock readings in the order they are taken, the
      start of its transaction, and which of its steps fail. */
  datatype Luck = Luck(
    token: string, first: Time, second: Time, start: Time, id: Id, faults: set<Store.Stage>,
    deleted: bool, read: bool, delivered: bool, reported: bool)

  datatype Operation = Operation(email: string, claim: Digest) | Refused(error: Error)

  const MIN_CLAIM_REFERENCE := 16
  const MAX_CLAIM_REFERENCE := 200

  /** normalizeGrantOperation. */
  function NormalizeOperation(env: Normalization.Env, token: string, email: string, claimReference: string): Operation {
    var address := Normalization.NormalizeEmail(env, email);
    var reference := Text.Trim(claimReference);
    if address.None? || !Tokens.ValidToken(token) then Refused(InvalidGrant)
    else if Text.Length(reference) < MIN_CLAIM_REFERENCE || Text.Length(reference) > MAX_CLAIM_REFERENCE
      then Refused(InvalidClaim)
    else Operation(address.value, env.sha(reference))
  }

  /** What hosted signup learns of a grant. */
  datatype SignupMetadata = SignupMetadata(email: string, ownerName: string, farmName: string)

  function Default(value: Time, fallback: nat): Time {
    if value <= 0 then fallback else value
  }

  /** The fate of the transaction, as the machine names it. */
  ghost function FateOf(before: Db, req: Request, after: Db, answer: Answer, faults: set<Store.Stage>): Fate {
    if answer != Failed(Storage) || Exec(before, req).1 == Failed(Storage) then Commits
    else if after == Exec(before, req).0 && Store.Acknowledging in faults then CommitLost
    else RollsBack
  }

  /** The environment's part of a step is the luck of the call: a transaction is rolled back only
      by a fault before its commit, and a commit lost only if it was not to be acknowledged; a
      delete, a read or a delivery fails only if it was to fail. */
  predicate Chosen(l: Label, luck: Luck) {
    match l
    case Transact(_, now, start, id, fate) =>
      && now == luck.second && start == luck.start && id == luck.id
      && (fate == RollsBack ==> !(luck.faults <= {Store.Acknowledging}))
      && (fate == CommitLost ==> Store.Acknowledging in luck.faults)
    case Delete(_, ok) => ok == luck.deleted
    case Read(_, ok) => ok == luck.read
    case Send(_, delivered, reported) => delivered == luck.delivered && reported == luck.reported
    case Crash(_) => false
    case Direct(_, _) => false
    case _ => true
  }

  ghost predicate Faithful(labels: seq<Label>, luck: Luck) {
    forall i :: 0 <= i < |labels| ==> Chosen(labels[i], luck)
  }

  lemma FaithfulStart(l: Label, luck: Luck)
    requires l.StartApprove? || l.StartSubmit? || l.StartConsume?
    ensures Faithful([l], luck)
  {
  }

  lemma FaithfulAppend(a: seq<Label>, b: seq<Label>, luck: Luck)
    requires Faithful(a, luck) && Faithful(b, luck)
    ensures Faithful(a + b, luck) && (a != [] ==> (a + b)[0] == a[0])
  {
    hide Chosen;
  }

  lemma PutShape(sha: string -> Digest, token: string)
    requires Messages.IsDigest(sha)
    ensures |sha(token).bytes| == DIGEST_LENGTH && Tokens.ValidScope(Tokens.REVIEW) && Tokens.ValidScope(Tokens.SIGNUP)
  {
  }

  // ---- Which operations on a grant are accepted -------------------------------------------------

  /** Exactly when an operation is accepted, and with which error it is refused otherwise. */
  lemma OperationIff(env: Normalization.Env, token: string, email: string, claimReference: string)
    ensures var op := NormalizeOperation(env, token, email, claimReference);
      var reference, address := Text.Trim(claimReference), Text.Lower(env.lower, Text.Trim(email));
      var sound := Tokens.ValidToken(token) && env.parse(address) == Some(address) && Text.Length(address) <= 320;
      && (op.Operation? <==> sound && 16 <= Text.Length(reference) <= 200)
      && (op.Operation? ==> op.email == address && op.claim == env.sha(reference))
      && (op.Refused? ==> op.error == if sound then InvalidClaim else InvalidGrant)
  {
    hide Tokens.ValidToken, Text.Trim, Text.Length, Text.Lower;
  }

  /** Two accepted references make one claim iff their trimmed texts are equal or collide; so a
      reference and its paddings are one. */
  lemma OneClaimIff(env: Normalization.Env, token: string, email: string, a: string, b: string)
    requires NormalizeOperation(env, token, email, a).Operation? && NormalizeOperation(env, token, email, b).Operation?
    requires env.sha(Text.Trim(a)) == env.sha(Text.Trim(b)) ==> Text.Trim(a) == Text.Trim(b)
    ensures NormalizeOperation(env, token, email, a) == NormalizeOperation(env, token, email, b)
      <==> Text.Trim(a) == Text.Trim(b)
    ensures forall p, q :: Text.AllSpace(p) && Text.AllSpace(q) ==>
      NormalizeOperation(env, token, email, p + Text.Trim(a) + q) == NormalizeOperation(env, token, email, a)
  {
    Text.TrimSplits(a);
    hide Tokens.ValidToken, Text.Trim, Text.Length, Text.AllSpace, Text.Trimmed, Normalization.NormalizeEmail;
    forall p, q | Text.AllSpace(p) && Text.AllSpace(q)
      ensures NormalizeOperation(env, token, email, p + Text.Trim(a) + q) == NormalizeOperation(env, token, email, a)
    {
      Text.TrimPadded(p, Text.Trim(a), q);
    }
  }

  /** Claim fencing at the service. Whoever claims an active grant keeps others out: until the lease
      ends, or the grant does, a claim made with another reference is told that the grant is taken
      and changes nothing; one made with the same reference, however padded, gets the same lease. */
  lemma SecondClaim(env: Normalization.Env, db: Db, token: string, email: string, a: string, b: string, first: Time,
      second: Time, lease: Time, otherLease: Time)
    requires Valid(db) && Messages.IsDigest(env.sha)
    requires NormalizeOperation(env, token, email, a).Operation? && NormalizeOperation(env, token, email, b).Operation?
    requires env.sha(Text.Trim(a)) == env.sha(Text.Trim(b)) ==> Text.Trim(a) == Text.Trim(b)
    requires var d := env.sha(token);
      && d in db.grants && db.grants[d].status == Active && first < db.grants[d].expiresAt
      && db.grants[d].email == NormalizeOperation(env, token, email, a).email
    requires second < lease && second < db.grants[env.sha(token)].expiresAt
    ensures var d, op, other := env.sha(token), NormalizeOperation(env, token, email, a),
          NormalizeOperation(env, token, email, b);
      var (db', answer) := Exec(db, Claim(d, op.email, op.claim, first, lease));
      var (db'', reply) := Exec(db', Claim(d, other.email, other.claim, second, otherLease));
      && answer == GrantIs(GrantView(db.grants[d].email, Claimed, db.grants[d].expiresAt, Some(lease),
           db.grants[d].reference))
      && db'' == db' && reply == if Text.Trim(a) == Text.Trim(b) then answer else Failed(GrantTaken)
  {
    OperationIff(env, token, email, a);
    OperationIff(env, token, email, b);
    var d := env.sha(token);
    var op, other := NormalizeOperation(env, token, email, a), NormalizeOperation(env, token, email, b);
    assert |op.claim.bytes| == 32 && |other.claim.bytes| == 32;
    hide Valid, Exec, Messages.IsDigest, NormalizeOperation, Text.Trim, Text.Length, Text.Lower, Tokens.ValidToken;
    Answers.ClaimAnswers(db, d, op.email, op.claim, first, lease);
    var db' := Exec(db, Claim(d, op.email, op.claim, first, lease)).0;
    ExecValid(db, Claim(d, op.email, op.claim, first, lease));
    Answers.ClaimAnswers(db', d, other.email, other.claim, second, otherLease);
  }

  // ---- What single steps of the machine come to -------------------------------------------------

  lemma StartedApprove(sha: string -> Digest, w: World, c: nat, reviewToken: string, token: string, expiresAt: Time)
    requires c !in w.calls
    ensures var r := Tokens.Ref(Tokens.SIGNUP, sha(token));
      Run(sha, w, [StartApprove(c, reviewToken, token, expiresAt)]) ==
        if !Tokens.ValidToken(reviewToken) then WithCall(w, c, Done(Rejected(InvalidReview)))
        else if token == "" || r in w.vault then WithCall(w, c, Done(Rejected(Storage)))
        else WithCall(w, c, Approving(sha(reviewToken), token, expiresAt)).(vault := w.vault[r := token])
  {
    hide Tokens.ValidToken, Tokens.Ref;
    RunOne(sha, w, StartApprove(c, reviewToken, token, expiresAt));
  }

  lemma StartedSubmit(sha: string -> Digest, w: World, c: nat, form: Form, since: Time, token: string, expiresAt: Time)
    requires c !in w.calls
    ensures var r := Tokens.Ref(Tokens.REVIEW, sha(token));
      Run(sha, w, [StartSubmit(c, form, since, token, expiresAt)]) ==
        if form.kind == Waitlist then WithCall(w, c, SubmittingPlain(form, since))
        else if token == "" || r in w.vault then WithCall(w, c, Done(Rejected(Storage)))
        else WithCall(w, c, Submitting(form, since, token, expiresAt)).(vault := w.vault[r := token])
  {
    hide Tokens.Ref;
    RunOne(sha, w, StartSubmit(c, form, since, token, expiresAt));
  }

  lemma Deleted(sha: string -> Digest, w: World, c: nat, ok: bool)
    requires c in w.calls && w.calls[c].Discarding?
    ensures var r := Tokens.Ref(w.calls[c].scope, w.calls[c].digest);
      Run(sha, w, [Protocol.Delete(c, ok)]) ==
        WithCall(w, c, After(w.calls[c].next)).(vault := if ok then w.vault - {r} else w.vault, leaky := w.leaky || !ok)
  {
    hide PutToken, StepTransact, StepRead, StepVerify, StepSend, Outcome, Tokens.ValidToken, DatabaseOnly;
    hide Tokens.Ref, After;
    RunOne(sha, w, Protocol.Delete(c, ok));
  }

  lemma Cleaned(sha: string -> Digest, w: World, c: nat, ok: bool)
    requires c in w.calls && w.calls[c].Cleaning?
    ensures var r := w.calls[c].reference;
      Run(sha, w, [Protocol.Delete(c, ok)]) ==
        WithCall(w, c, Done(ConsumedAs(w.calls[c].view))).(
          vault := if ok then w.vault - {r} else w.vault, leaky := w.leaky || !ok)
  {
    hide PutToken, StepTransact, StepRead, StepVerify, StepSend, Outcome, Tokens.ValidToken, DatabaseOnly;
    hide Tokens.Ref, After;
    RunOne(sha, w, Protocol.Delete(c, ok));
  }

  lemma WasRead(sha: string -> Digest, w: World, c: nat, ok: bool)
    requires c in w.calls && w.calls[c].Reading?
    ensures var a := w.calls[c].approval;
      Run(sha, w, [Read(c, ok)]) ==
        WithCall(w, c, if ok && a.reference in w.vault then Verifying(a, w.vault[a.reference]) else Done(Unavailable))
  {
    hide PutToken, StepTransact, StepDelete, StepVerify, StepSend, Outcome, Tokens.ValidToken, DatabaseOnly;
    RunOne(sha, w, Read(c, ok));
  }

  /** The store's answer moves the call as the machine's transaction does. */
  lemma Transacted(sha: string -> Digest, w: World, c: nat, now: Time, start: Time, id: Id, db: Db, answer: Answer,
      faults: set<Store.Stage>)
    requires c in w.calls && RequestOf(sha, w.calls[c], now, start, id).Some?
    requires Store.Atomically(w.db, RequestOf(sha, w.calls[c], now, start, id).value, db, answer, faults)
    ensures var fate := FateOf(w.db, RequestOf(sha, w.calls[c], now, start, id).value, db, answer, faults);
      && Run(sha, w, [Transact(c, now, start, id, fate)])
         == Recorded(WithCall(w, c, Resume(sha, w.calls[c], answer)), w.calls[c], db, fate)
      && (fate == RollsBack ==> !(faults <= {Store.Acknowledging}))
      && (fate == CommitLost ==> Store.Acknowledging in faults)
  {
    var req := RequestOf(sha, w.calls[c], now, start, id).value;
    RunOne(sha, w, Transact(c, now, start, id, FateOf(w.db, req, db, answer, faults)));
    hide Exec, Resume, RequestOf, Run;
    FailedIsQuiet(w.db, req);
  }

  lemma StartedConsume(sha: string -> Digest, w: World, c: nat, token: string, email: string, claim: Digest)
    requires c !in w.calls && Tokens.ValidToken(token)
    ensures Run(sha, w, [StartConsume(c, token, email, claim)]) == WithCall(w, c, Consuming(sha(token), email, claim))
  {
    hide Tokens.ValidToken;
    RunOne(sha, w, StartConsume(c, token, email, claim));
  }

  lemma Notified(sha: string -> Digest, w: World, c: nat, delivered: bool, reported: bool)
    requires c in w.calls && w.calls[c].Notifying?
    ensures Run(sha, w, [Send(c, delivered, reported)]) ==
      WithCall(w, c, Done(Accepted)).(notices :=
        if delivered || reported
        then w.notices + [Notice(w.calls[c].application, w.calls[c].token, w.calls[c].expiresAt)] else w.notices)
  {
    hide PutToken, StepTransact, StepDelete, StepRead, StepVerify, Outcome, Tokens.ValidToken, DatabaseOnly;
    RunOne(sha, w, Send(c, delivered, reported));
  }

  /** Which duplicate a submission is told of makes no difference to its call. */
  lemma TransactedCreate(sha: string -> Digest, w: World, c: nat, now: Time, start: Time, id: Id, db: Db,
      answer: Answer, faults: set<Store.Stage>)
    requires Valid(w.db) && c in w.calls && (w.calls[c].Submitting? || w.calls[c].SubmittingPlain?)
    requires var req := RequestOf(sha, w.calls[c], now, start, id).value;
      if answer.Submitted? && !answer.created
      then db == w.db && Exec(w.db, req).1.Submitted? && !Exec(w.db, req).1.created
      else Store.Atomically(w.db, req, db, answer, faults)
    ensures var fate := FateOf(w.db, RequestOf(sha, w.calls[c], now, start, id).value, db, answer, faults);
      && Run(sha, w, [Transact(c, now, start, id, fate)])
         == Recorded(WithCall(w, c, Resume(sha, w.calls[c], answer)), w.calls[c], db, fate)
      && (fate == RollsBack ==> !(faults <= {Store.Acknowledging}))
      && (fate == CommitLost ==> Store.Acknowledging in faults)
  {
    hide Valid, Exec, Run, Store.Atomically, CandidateOf;
    var req := RequestOf(sha, w.calls[c], now, start, id).value;
    if answer.Submitted? && !answer.created {
      Coherence.CreateQuiet(w.db, req.form, req.since, req.capability, id, start);
      RunOne(sha, w, Transact(c, now, start, id, Commits));
    } else {
      hide Resume, Step;
      Transacted(sha, w, c, now, start, id, db, answer, faults);
    }
  }

  /** A consumed grant still names its token. */
  lemma ConsumedNamed(db: Db, d: Digest, email: string, claim: Digest, now: Time)
    requires Valid(db)
    ensures var answer := Exec(db, Consume(d, email, claim, now)).1;
      answer.GrantIs? ==> answer.grant.reference.text != ""
  {
    hide Valid, Exec;
    var req := Consume(d, email, claim, now);
    Messages.ConsumeResumes(db, d, email, claim, now);
    ExecValid(db, req);
    GrantShape(Exec(db, req).0, d);
  }

  lemma OnlyUnacknowledged(db: Db, req: Request, after: Db, answer: Answer, faults: set<Store.Stage>)
    requires Store.Atomically(db, req, after, answer, faults) && faults == {Store.Acknowledging}
    ensures answer.Failed? && after == Exec(db, req).0
  {
    hide Exec;
  }

  /** One answer, but for which of several equally new duplicates is named. */
  predicate SameAnswer(a: Answer, b: Answer) {
    a == b || (a.Submitted? && b.Submitted? && !a.created && !b.created)
  }

  lemma OneOrOther(db: Db, req: Request, after: Db, answer: Answer, faults: set<Store.Stage>)
    requires Store.Atomically(db, req, after, answer, faults)
    ensures after == db || after == Exec(db, req).0
  {
    hide Exec;
  }

  lemma Faultless(db: Db, req: Request, after: Db, answer: Answer)
    requires Store.Atomically(db, req, after, answer, {})
    ensures Exec(db, req) == (after, answer)
  {
    hide Exec;
  }

  lemma FaultlessCreate(db: Db, req: Request, after: Db, answer: Answer)
    requires Valid(db) && req.Create?
    requires if answer.Submitted? && !answer.created
      then after == db && Exec(db, req).1.Submitted? && !Exec(db, req).1.created
      else Store.Atomically(db, req, after, answer, {})
    ensures after == Exec(db, req).0 && SameAnswer(answer, Exec(db, req).1)
  {
    hide Valid, Exec;
    if answer.Submitted? && !answer.created {
      Coherence.CreateQuiet(db, req.form, req.since, req.capability, req.id, req.start);
    }
  }

  lemma FailedIsQuiet(db: Db, req: Request)
    ensures Exec(db, req).1 == Failed(Storage) ==> Exec(db, req).0 == db
  {
    hide ApplyAll, ApprovalOf;
  }

  lemma NotBlank(scope: string, d: Digest)
    requires scope == Tokens.REVIEW || scope == Tokens.SIGNUP
    ensures !Blank(Tokens.Ref(scope, d).text) && Tokens.Ref(scope, d).text != ""
  {
    assert Tokens.Ref(scope, d).text[0] == scope[0];
    assert Tokens.REVIEW[0] != ' ' && Tokens.SIGNUP[0] != ' ';
  }

  /** The message, if the sender takes it; it may report an error all the same. */
  function Posted(luck: Luck, m: Mail): seq<Mail> {
    if luck.delivered || luck.reported then [m] else []
  }

  function Noticed(luck: Luck, n: Notice): seq<Notice> {
    if luck.delivered || luck.reported then [n] else []
  }

  function Reported(luck: Luck): Result {
    if luck.reported then Delivered else DeliveryFailed
  }

  /** The review waits for its decision. */
  predicate Waiting(db: Db, d: Digest, now: Time) {
    d in db.reviews && db.reviews[d].status == Open && now < db.reviews[d].expiresAt
  }

  /** A grant on these terms is not late and takes no key that is taken. */
  ghost predicate Usable(db: Db, g: Digest, reference: Reference, expiresAt: Time, luck: Luck) {
    && luck.second < expiresAt && luck.start < expiresAt && g !in db.grants
    && forall e :: e in db.grants ==> db.grants[e].reference != reference
  }

  /** The application approved, its review decided, its grant there. */
  ghost function AsApproved(db: Db, d: Digest, g: Digest, reference: Reference, expiresAt: Time, now: Time,
      start: Time): Db
    requires d in db.reviews && db.reviews[d].submissionId in db.submissions
  {
    var r := db.reviews[d];
    var s := db.submissions[r.submissionId];
    Db(db.submissions[r.submissionId :=
         Submission(s.form, s.createdAt, Some(Decision.Approved), Some(now), Some(now), None)],
       db.reviews[d := Review(r.submissionId, r.reference, r.expiresAt, r.createdAt, Decided, Some(now), None)],
       db.grants[g := Grant(r.submissionId, s.form.email, reference, expiresAt, start, Active,
         None, None, None, None, None)])
  }

  lemma NewApproval(db: Db, d: Digest, c: Candidate, luck: Luck)
    requires Valid(db) && Waiting(db, d, luck.second) && Usable(db, c.digest, c.reference, c.expiresAt, luck)
    requires |c.digest.bytes| == 32 && !Blank(c.reference.text) && c.reference.text != ""
    ensures d in db.reviews && db.reviews[d].submissionId in db.submissions
    ensures var r := db.reviews[d]; var s := db.submissions[r.submissionId];
      Exec(db, Request.Approve(d, c, luck.second, luck.start)) ==
        (AsApproved(db, d, c.digest, c.reference, c.expiresAt, luck.second, luck.start),
         ApprovedAs(Approval(r.submissionId, s.form.email, s.form.profile.farmName, c.digest, c.reference,
           c.expiresAt), true))
  {
    Answers.ApproveAnswers(db, d, c, luck.second, luck.start);
    Answers.ReviewColumns(db, d);
    hide Valid, Exec;
  }

  lemma RejectedCandidate(db: Db, d: Digest, c: Candidate, luck: Luck)
    requires Valid(db) && Waiting(db, d, luck.second) && !Usable(db, c.digest, c.reference, c.expiresAt, luck)
    requires |c.digest.bytes| == 32 && !Blank(c.reference.text) && c.reference.text != ""
    ensures Exec(db, Request.Approve(d, c, luck.second, luck.start))
      == (db, Failed(if luck.second >= c.expiresAt then InvalidInput else Storage))
  {
    Answers.ApproveAnswers(db, d, c, luck.second, luck.start);
    hide Valid, Exec;
  }

  /** A decided review's application is approved with its one grant, or declined with none. */
  lemma GrantedOnce(db: Db, d: Digest)
    requires Valid(db) && d in db.reviews && db.reviews[d].status == Decided
    ensures var id := db.reviews[d].submissionId;
      && id in db.submissions
      && (db.submissions[id].approval == Some(Approved) <==>
            exists e :: e in db.grants && db.grants[e].submissionId == id)
      && (db.submissions[id].approval == Some(Approved) || db.submissions[id].approval == Some(Declined))
      && forall e, f | e in db.grants && f in db.grants :: db.grants[e].submissionId == id ==>
           db.grants[f].submissionId == id ==> e == f
  {
    hide UniqueReviews;
    ApprovedIffOneGrant(db, db.reviews[d].submissionId);
  }

  /** No row with this fingerprint was created since the cut-off. */
  ghost predicate Novel(db: Db, form: Form, since: Time) {
    forall i :: i in db.submissions ==> !Answers.Duplicates(db.submissions[i], form, since)
  }

  /** The application can be inserted, its fingerprint known to be new, and its review with it. */
  ghost predicate Admitted(db: Db, form: Form, g: Digest, reference: Reference, expiresAt: Time, luck: Luck) {
    && luck.id !in db.submissions && !Blank(form.email) && !Blank(form.profile.source) && !Blank(form.fingerprint)
    && g !in db.reviews && luck.start < expiresAt
    && forall e :: e in db.reviews ==> db.reviews[e].reference != reference
  }

  ghost function WithApplication(db: Db, form: Form, g: Digest, reference: Reference, expiresAt: Time, luck: Luck): Db {
    Db(db.submissions[luck.id := Submission(form, luck.start, Some(Pending), None, None, None)],
       db.reviews[g := Review(luck.id, reference, expiresAt, luck.start, Open, None, None)],
       db.grants)
  }

  lemma NewApplication(db: Db, form: Form, since: Time, c: Candidate, luck: Luck)
    requires Valid(db) && form.kind == EarlyAccess && |c.digest.bytes| == 32 && !Blank(c.reference.text)
    ensures var (db', answer) := Exec(db, Create(form, since, Some(c), luck.id, luck.start));
      if !Novel(db, form, since) then db' == db && answer.Submitted? && !answer.created
      else if Admitted(db, form, c.digest, c.reference, c.expiresAt, luck) then
        answer == Submitted(luck.id, true) && db' == WithApplication(db, form, c.digest, c.reference, c.expiresAt, luck)
      else (db', answer) == (db, Failed(Storage))
  {
    Answers.CreateAnswers(db, form, since, Some(c), luck.id, luck.start);
    Answers.SubmissionInserts(db, form, Some(c), luck.id, luck.start);
    hide Valid, Exec, Storable, Answers.Duplicates;
  }

  lemma NewPlain(db: Db, form: Form, since: Time, luck: Luck)
    requires Valid(db) && form.kind == Waitlist
    ensures var (db', answer) := Exec(db, Create(form, since, None, luck.id, luck.start));
      if !Novel(db, form, since) then db' == db && answer.Submitted? && !answer.created
      else if luck.id !in db.submissions && !Blank(form.email) && !Blank(form.profile.source)
        && !Blank(form.fingerprint) then
        && answer == Submitted(luck.id, true)
        && db' == Db(db.submissions[luck.id := Submission(form, luck.start, None, None, None, None)],
                     db.reviews, db.grants)
      else (db', answer) == (db, Failed(Storage))
  {
    Answers.CreateAnswers(db, form, since, None, luck.id, luck.start);
    Answers.SubmissionInserts(db, form, None, luck.id, luck.start);
    hide Valid, Exec, Storable, Answers.Duplicates;
  }

  class Service {
    const env: Normalization.Env
    const store: Store.PostgresStore
    const tokens: Tokens.MemoryStore
    const grantLifetime: Time
    const claimLifetime: Time
    const reviewLifetime: Time
    const duplicateWindow: Time
    var mail: seq<Mail>
    var notices: seq<Notice>

    /** NewService, in seconds: a lifetime that is not positive falls back to its default. */
    constructor (env: Normalization.Env, store: Store.PostgresStore, tokens: Tokens.MemoryStore,
      grantLifetime: Time, claimLifetime: Time, reviewLifetime: Time, duplicateWindow: Time)
      ensures this.env == env && this.store == store && this.tokens == tokens && mail == [] && notices == []
      ensures this.grantLifetime == if grantLifetime > 0 then grantLifetime else 604800
      ensures this.claimLifetime == if claimLifetime > 0 then claimLifetime else 1800
      ensures this.reviewLifetime == if reviewLifetime > 0 then reviewLifetime else 604800
      ensures this.duplicateWindow == if duplicateWindow > 0 then duplicateWindow else 86400
    {
      this.env, this.store, this.tokens := env, store, tokens;
      var minute, day := 60, 86400;
      this.grantLifetime, this.claimLifetime := Default(grantLifetime, 7 * day), Default(claimLifetime, 30 * minute);
      this.reviewLifetime, this.duplicateWindow := Default(reviewLifetime, 7 * day), Default(duplicateWindow, day);
      mail, notices := [], [];
    }

    /** The world as the rest of the process sees it. */
    ghost predicate Shows(w: World)
      reads this, store, tokens
    {
      w.db == store.Rows() && w.vault == tokens.values && w.mail == mail && w.notices == notices
    }

    /** The steps of a call with this luck take world w to what the process now shows. */
    ghost predicate Did(w: World, c: nat, luck: Luck, labels: seq<Label>, result: Result)
      reads this, store, tokens
    {
      var w' := Run(env.sha, w, labels);
      && Faithful(labels, luck) && Shows(w') && w'.calls == w.calls[c := Done(result)]
      && (Store.Acknowledging !in luck.faults ==> w'.orphaned == w.orphaned)
    }

    lemma DidMore(w: World, c: nat, luck: Luck, labels: seq<Label>, more: seq<Label>, result: Result)
      requires labels != [] && Faithful(labels, luck)
      requires var v := Run(env.sha, w, labels);
        && v.orphaned == w.orphaned && c in v.calls && v.calls == w.calls[c := v.calls[c]]
        && Did(v, c, luck, more, result)
      ensures Did(w, c, luck, labels + more, result) && (labels + more)[0] == labels[0]
    {
      hide Run, Faithful;
      RunAppend(env.sha, w, labels, more);
      FaithfulAppend(labels, more, luck);
    }

    /** What is left when nothing fails but the acknowledgement of the commit: the request has its
        whole effect, the caller is told of an error, and nothing is sent. */
    ghost predicate Unacknowledged(w: World, req: Request, luck: Luck, result: Result)
      reads this, store
    {
      luck.faults == {Store.Acknowledging} ==>
        result.Rejected? && store.Rows() == Exec(w.db, req).0 && mail == w.mail && notices == w.notices
    }

    /** And the call then deletes its own token, unless that fails. */
    ghost predicate Orphaned(w: World, req: Request, reference: Reference, luck: Luck, result: Result)
      reads this, store, tokens
    {
      && Unacknowledged(w, req, luck, result)
      && (luck.faults == {Store.Acknowledging} && luck.deleted ==> reference !in tokens.values)
    }

    lemma OrphanedSince(w: World, v: World, req: Request, reference: Reference, luck: Luck, result: Result)
      requires v.db == w.db && v.mail == w.mail && v.notices == w.notices
      ensures Orphaned(v, req, reference, luck, result) ==> Orphaned(w, req, reference, luck, result)
      ensures Unacknowledged(v, req, luck, result) ==> Unacknowledged(w, req, luck, result)
    {
      hide Exec;
    }

    lemma SentSince(w: World, v: World, a: Approval, token: string, luck: Luck, result: Result)
      requires v.mail == w.mail && v.notices == w.notices
      ensures Sent(v, a, token, luck, result) ==> Sent(w, a, token, luck, result)
    {
    }

    lemma ReadSince(w: World, v: World, a: Approval, luck: Luck, result: Result)
      requires v.mail == w.mail && v.notices == w.notices && a.reference in tokens.values
      ensures var token := tokens.values[a.reference];
        Sent(v, a, token, luck, result) ==> Sent(w, a, token, luck, result)
    {
    }

    /** The call's transaction is over: the labels say what became of it, the answer is what the
        store reported. */
    ghost predicate Moved(w: World, c: nat, req: Request, luck: Luck, answer: Answer, labels: seq<Label>)
      reads this, store, tokens
      requires c in w.calls
    {
      var v := Run(env.sha, w, labels);
      && Faithful(labels, luck) && Shows(v) && v.calls == w.calls[c := Resume(env.sha, w.calls[c], answer)]
      && v.mail == w.mail && v.notices == w.notices && v.vault == w.vault
      && (v.db == w.db || v.db == Exec(w.db, req).0)
      && (Store.Acknowledging !in luck.faults ==> v.orphaned == w.orphaned)
      && (luck.faults == {Store.Acknowledging} ==> answer.Failed? && v.db == Exec(w.db, req).0)
      && (luck.faults == {} ==> v.db == Exec(w.db, req).0 && SameAnswer(answer, Exec(w.db, req).1))
    }

    /** The message goes out if the digests agree, and the caller learns what the sender reported. */
    ghost predicate Sent(w: World, a: Approval, token: string, luck: Luck, result: Result)
      reads this
    {
      && notices == w.notices
      && if env.sha(token) != a.digest then result == IntegrityFailed && mail == w.mail
         else
           && result == Reported(luck)
           && mail == w.mail + Posted(luck, Mail(a.application, a.email, token, a.expiresAt))
    }

    function Left(vault: map<Reference, string>, reference: Reference, luck: Luck): map<Reference, string> {
      if luck.deleted then vault - {reference} else vault
    }

    /** What an approval does after its transaction, when that ran without a fault. */
    ghost predicate FollowsApproval(w: World, outcome: (Db, Answer), reference: Reference, luck: Luck, result: Result)
      reads this, store, tokens
    {
      && store.Rows() == outcome.0
      && match outcome.1
         case ApprovedAs(a, used) =>
           if used then tokens.values == w.vault && Sent(w, a, luck.token, luck, result)
           else
             && tokens.values == Left(w.vault, reference, luck)
             && if luck.read && a.reference in tokens.values
                then Sent(w, a, tokens.values[a.reference], luck, result)
                else result == Unavailable && mail == w.mail && notices == w.notices
         case Failed(e) =>
           && tokens.values == Left(w.vault, reference, luck)
           && result == Rejected(e) && mail == w.mail && notices == w.notices
         case _ => true
    }

    /** And a submission whose token is put. */
    ghost predicate FollowsSubmission(w: World, outcome: (Db, Answer), reference: Reference, luck: Luck, result: Result)
      reads this, store, tokens
    {
      && store.Rows() == outcome.0 && mail == w.mail
      && match outcome.1
         case Submitted(id, created) =>
           && result == Accepted
           && tokens.values == (if created then w.vault else Left(w.vault, reference, luck))
           && notices == w.notices +
                (if created then Noticed(luck, Notice(id, luck.token, luck.first + reviewLifetime)) else [])
         case Failed(e) =>
           tokens.values == Left(w.vault, reference, luck) && result == Rejected(e) && notices == w.notices
         case _ => true
    }

    method Delete(reference: Reference, deleted: bool)
      modifies tokens
      ensures tokens.values == if deleted then old(tokens.values) - {reference} else old(tokens.values)
    {
      if deleted { tokens.Delete(reference); }
    }

    /** The digest comparison and the delivery. */
    method Deliver(approval: Approval, token: string, luck: Luck, ghost w: World, ghost c: nat)
      returns (result: Result, ghost labels: seq<Label>)
      requires Shows(w) && c in w.calls && w.calls[c] == Verifying(approval, token)
      modifies this
      ensures Did(w, c, luck, labels, result) && Sent(w, approval, token, luck, result)
    {
      labels := [Verify(c), Send(c, luck.delivered, luck.reported)];
      RunOne(env.sha, w, Verify(c));
      RunTwo(env.sha, w, labels[0], labels[1]);
      if env.sha(token) != approval.digest { return IntegrityFailed, [Verify(c)]; }
      if luck.delivered || luck.reported {
        mail := mail + [Mail(approval.application, approval.email, token, approval.expiresAt)];
      }
      if !luck.reported { return DeliveryFailed, labels; }
      return Delivered, labels;
    }

    /** The call's own candidate was not needed: delete it, read the standing token back. */
    method ReadBack(reference: Reference, approval: Approval, luck: Luck, ghost w: World, ghost c: nat)
      returns (result: Result, ghost labels: seq<Label>)
      requires Shows(w) && c in w.calls && w.calls[c].Discarding? && w.calls[c].next == Next.ReadBack(approval)
      requires reference == Tokens.Ref(w.calls[c].scope, w.calls[c].digest)
      modifies this, tokens
      ensures Did(w, c, luck, labels, result) && tokens.values == Left(w.vault, reference, luck)
      ensures if luck.read && approval.reference in tokens.values
        then Sent(w, approval, tokens.values[approval.reference], luck, result)
        else result == Unavailable && mail == w.mail && notices == w.notices
    {
      hide Tokens.Ref, Run, Sent;
      labels := [Protocol.Delete(c, luck.deleted)];
      Deleted(env.sha, w, c, luck.deleted);
      Delete(reference, luck.deleted);
      ghost var v := Run(env.sha, w, labels);
      assert Shows(v);
      WasRead(env.sha, v, c, luck.read);
      RunAppend(env.sha, w, labels, [Read(c, luck.read)]);
      labels := labels + [Read(c, luck.read)];
      var token := tokens.Read(approval.reference);
      if !luck.read || token.Err? { return Unavailable, labels; }
      ghost var more;
      ghost var u := Run(env.sha, w, labels);
      result, more := Deliver(approval, token.value, luck, u, c);
      SentSince(w, u, approval, token.value, luck, result);
      RunAppend(env.sha, w, labels, more);
      labels := labels + more;
    }

    /** The call failed or was a duplicate: delete its token and report. */
    method GiveUp(reference: Reference, outcome: Result, luck: Luck, ghost w: World, ghost c: nat)
      returns (result: Result, ghost labels: seq<Label>)
      requires Shows(w) && c in w.calls && w.calls[c].Discarding? && w.calls[c].next == Report(outcome)
      requires reference == Tokens.Ref(w.calls[c].scope, w.calls[c].digest)
      modifies tokens
      ensures result == outcome && Did(w, c, luck, labels, result)
      ensures tokens.values == if luck.deleted then old(tokens.values) - {reference} else old(tokens.values)
    {
      hide Tokens.Ref, Run;
      labels := [Protocol.Delete(c, luck.deleted)];
      Deleted(env.sha, w, c, luck.deleted);
      Delete(reference, luck.deleted);
      result := outcome;
    }

    method TransactApproval(review: Digest, candidate: Candidate, luck: Luck, ghost w: World, ghost c: nat)
      returns (answer: Answer, ghost labels: seq<Label>)
      requires Valid(w.db) && Shows(w) && c in w.calls
      requires w.calls[c].Approving? && w.calls[c].review == review
      requires candidate == CandidateOf(env.sha, Tokens.SIGNUP, w.calls[c].token, w.calls[c].expiresAt)
      modifies store
      ensures Moved(w, c, Request.Approve(review, candidate, luck.second, luck.start), luck, answer, labels)
    {
      hide Valid, Exec, Tokens.Ref, Run, Store.Atomically;
      answer := store.Approve(review, candidate, luck.second, luck.start, luck.faults);
      ghost var req := Request.Approve(review, candidate, luck.second, luck.start);
      ghost var fate := FateOf(w.db, req, store.Rows(), answer, luck.faults);
      labels := [Transact(c, luck.second, luck.start, luck.id, fate)];
      Transacted(env.sha, w, c, luck.second, luck.start, luck.id, store.Rows(), answer, luck.faults);
      if luck.faults == {Store.Acknowledging} { OnlyUnacknowledged(w.db, req, store.Rows(), answer, luck.faults); }
      if luck.faults == {} { Faultless(w.db, req, store.Rows(), answer); }
      OneOrOther(w.db, req, store.Rows(), answer, luck.faults);
      hide FateOf;
    }

    method TransactSubmission(form: Form, since: Time, capability: Option<Candidate>, luck: Luck, ghost w: World,
      ghost c: nat)
      returns (answer: Answer, ghost labels: seq<Label>)
      requires Valid(w.db) && Shows(w) && c in w.calls && (w.calls[c].Submitting? || w.calls[c].SubmittingPlain?)
      requires RequestOf(env.sha, w.calls[c], luck.second, luck.start, luck.id)
        == Some(Create(form, since, capability, luck.id, luck.start))
      modifies store
      ensures Moved(w, c, Create(form, since, capability, luck.id, luck.start), luck, answer, labels)
    {
      hide Valid, Exec, RequestOf, Run, Store.Atomically, IsNewest;
      answer := store.CreateSubmission(form, since, capability, luck.id, luck.start, luck.faults);
      ghost var req := Create(form, since, capability, luck.id, luck.start);
      ghost var fate := FateOf(w.db, req, store.Rows(), answer, luck.faults);
      labels := [Transact(c, luck.second, luck.start, luck.id, fate)];
      TransactedCreate(env.sha, w, c, luck.second, luck.start, luck.id, store.Rows(), answer, luck.faults);
      if luck.faults == {Store.Acknowledging} { OnlyUnacknowledged(w.db, req, store.Rows(), answer, luck.faults); }
      if luck.faults == {} { FaultlessCreate(w.db, req, store.Rows(), answer); }
      if !answer.Submitted? || answer.created { OneOrOther(w.db, req, store.Rows(), answer, luck.faults); }
      hide FateOf;
    }

    /** The transaction of an approval whose token is put, and everything after it. */
    method ApproveWith(reviewToken: string, reference: Reference, luck: Luck, ghost w: World, ghost c: nat)
      returns (result: Result, ghost labels: seq<Label>)
      requires Valid(w.db) && Shows(w) && reference == Tokens.Ref(Tokens.SIGNUP, env.sha(luck.token))
      requires c in w.calls && w.calls[c] == Approving(env.sha(reviewToken), luck.token, luck.first + grantLifetime)
      modifies this, store, tokens
      ensures Did(w, c, luck, labels, result)
      ensures var candidate := Candidate(env.sha(luck.token), reference, luck.first + grantLifetime);
        var req := Request.Approve(env.sha(reviewToken), candidate, luck.second, luck.start);
        && Orphaned(w, req, reference, luck, result)
        && (luck.faults == {} ==> FollowsApproval(w, Exec(w.db, req), reference, luck, result))
    {
      hide Valid, Exec, Tokens.Ref, Run, Sent;
      var candidate := Candidate(env.sha(luck.token), reference, luck.first + grantLifetime);
      var answer;
      answer, labels := TransactApproval(env.sha(reviewToken), candidate, luck, w, c);
      ghost var v := Run(env.sha, w, labels);
      ghost var more;
      if !answer.ApprovedAs? {
        result, more := GiveUp(reference, Rejected(if answer.Failed? then answer.error else Storage), luck, v, c);
      } else if answer.usedCandidate {
        result, more := Deliver(answer.approval, luck.token, luck, v, c);
        SentSince(w, v, answer.approval, luck.token, luck, result);
      } else {
        result, more := ReadBack(reference, answer.approval, luck, v, c);
        if answer.approval.reference in tokens.values { ReadSince(w, v, answer.approval, luck, result); }
      }
      RunAppend(env.sha, w, labels, more);
      labels := labels + more;
    }

    // What Approve comes to, in terms of rows, tokens and messages only, when the database does not fail.

    /** Nothing outside has changed. */
    ghost predicate Untouched(w: World)
      reads this, store, tokens
    {
      store.Rows() == w.db && tokens.values == w.vault && mail == w.mail && notices == w.notices
    }

    /** An application that waits for its decision, and a grant that can be inserted: the grant is
        stored under the new token, one message carries that token, and the call reports what the
        sender did. */
    ghost predicate GrantsNew(w: World, d: Digest, luck: Luck, result: Result)
      reads this, store, tokens
    {
      var g, expiresAt := env.sha(luck.token), luck.first + grantLifetime;
      var reference := Tokens.Ref(Tokens.SIGNUP, g);
      Waiting(w.db, d, luck.second) && Usable(w.db, g, reference, expiresAt, luck) ==>
        var r := w.db.reviews[d];
        && r.submissionId in w.db.submissions
        && var s := w.db.submissions[r.submissionId];
        && result == (if luck.reported then Delivered else DeliveryFailed)
        && mail == w.mail + (if luck.delivered || luck.reported
             then [Mail(r.submissionId, s.form.email, luck.token, expiresAt)] else [])
        && notices == w.notices && tokens.values == w.vault[reference := luck.token]
        && store.Rows() == AsApproved(w.db, d, g, reference, expiresAt, luck.second, luck.start)
    }

    /** An approval already on record: nothing is written, the new token goes again, and the token
        read back is sent once more if it still has the digest of the grant. */
    ghost predicate SendsAgain(w: World, d: Digest, e: Digest, luck: Luck, result: Result)
      reads this, store, tokens
    {
      (&& d in w.db.reviews && w.db.reviews[d].status == Decided && luck.second < w.db.reviews[d].expiresAt
       && e in w.db.grants && w.db.grants[e].submissionId == w.db.reviews[d].submissionId) ==>
        var g := w.db.grants[e];
        var reference := Tokens.Ref(Tokens.SIGNUP, env.sha(luck.token));
        && store.Rows() == w.db && notices == w.notices
        && tokens.values == (if luck.deleted then w.vault else w.vault[reference := luck.token])
        && if !luck.read || g.reference !in tokens.values then result == Unavailable && mail == w.mail
           else if env.sha(tokens.values[g.reference]) != e then result == IntegrityFailed && mail == w.mail
           else
             && result == (if luck.reported then Delivered else DeliveryFailed)
             && mail == w.mail + (if luck.delivered || luck.reported
                  then [Mail(g.submissionId, g.email, tokens.values[g.reference], g.expiresAt)] else [])
    }

    /** A review through which nothing can be approved: the exact error, nothing written or sent, and
        the new token goes again. */
    ghost predicate RefusesApproval(w: World, d: Digest, luck: Luck, result: Result)
      reads this, store, tokens
    {
      var reference := Tokens.Ref(Tokens.SIGNUP, env.sha(luck.token));
      var late := d in w.db.reviews
        && (luck.second >= w.db.reviews[d].expiresAt || w.db.reviews[d].status == ReviewStatus.ReviewExpired);
      (|| d !in w.db.reviews || late || w.db.reviews[d].status == ReviewRevoked
       || (w.db.reviews[d].status == Decided
           && forall e :: e in w.db.grants ==> w.db.grants[e].submissionId != w.db.reviews[d].submissionId)) ==>
        && result == Rejected(if late then ReviewClosed
             else if d in w.db.reviews && w.db.reviews[d].status == Decided then DecisionConflict else InvalidReview)
        && store.Rows() == w.db && mail == w.mail && notices == w.notices
        && tokens.values == (if luck.deleted then w.vault else w.vault[reference := luck.token])
    }

    /** A candidate that cannot be used: late already, or in conflict with a grant or a constraint. */
    ghost predicate RejectsCandidate(w: World, d: Digest, luck: Luck, result: Result)
      reads this, store, tokens
    {
      var g, expiresAt := env.sha(luck.token), luck.first + grantLifetime;
      var reference := Tokens.Ref(Tokens.SIGNUP, g);
      Waiting(w.db, d, luck.second) && !Usable(w.db, g, reference, expiresAt, luck) ==>
        && result == Rejected(if luck.second >= expiresAt then InvalidInput else Storage)
        && store.Rows() == w.db && mail == w.mail && notices == w.notices
        && tokens.values == (if luck.deleted then w.vault else w.vault[reference := luck.token])
    }

    /** The token is put, and the approval has followed without a fault of the database. */
    ghost predicate PutThenApproved(w: World, v: World, d: Digest, luck: Luck, result: Result)
      reads this, store, tokens
    {
      var reference := Tokens.Ref(Tokens.SIGNUP, env.sha(luck.token));
      var candidate := Candidate(env.sha(luck.token), reference, luck.first + grantLifetime);
      && v.db == w.db && v.mail == w.mail && v.notices == w.notices
      && reference !in w.vault && v.vault == w.vault[reference := luck.token]
      && FollowsApproval(v, Exec(w.db, Request.Approve(d, candidate, luck.second, luck.start)), reference, luck, result)
    }

    function NewCandidate(luck: Luck): Candidate {
      Candidate(env.sha(luck.token), Tokens.Ref(Tokens.SIGNUP, env.sha(luck.token)), luck.first + grantLifetime)
    }

    lemma Granted(w: World, v: World, d: Digest, luck: Luck, result: Result, db: Db, a: Approval)
      requires PutThenApproved(w, v, d, luck, result)
      requires Exec(w.db, Request.Approve(d, NewCandidate(luck), luck.second, luck.start)) == (db, ApprovedAs(a, true))
      ensures store.Rows() == db && Sent(w, a, luck.token, luck, result)
      ensures tokens.values == w.vault[Tokens.Ref(Tokens.SIGNUP, env.sha(luck.token)) := luck.token]
    {
      hide Exec, Tokens.Ref;
    }

    lemma Replayed(w: World, v: World, d: Digest, luck: Luck, result: Result, a: Approval)
      requires PutThenApproved(w, v, d, luck, result)
      requires Exec(w.db, Request.Approve(d, NewCandidate(luck), luck.second, luck.start))
        == (w.db, ApprovedAs(a, false))
      ensures store.Rows() == w.db
      ensures var reference := Tokens.Ref(Tokens.SIGNUP, env.sha(luck.token));
        tokens.values == if luck.deleted then w.vault else w.vault[reference := luck.token]
      ensures if luck.read && a.reference in tokens.values then Sent(w, a, tokens.values[a.reference], luck, result)
        else result == Unavailable && mail == w.mail && notices == w.notices
    {
      hide Exec, Tokens.Ref;
    }

    lemma Refused(w: World, v: World, d: Digest, luck: Luck, result: Result, e: Error)
      requires PutThenApproved(w, v, d, luck, result)
      requires Exec(w.db, Request.Approve(d, NewCandidate(luck), luck.second, luck.start)) == (w.db, Failed(e))
      ensures result == Rejected(e) && store.Rows() == w.db && mail == w.mail && notices == w.notices
      ensures var reference := Tokens.Ref(Tokens.SIGNUP, env.sha(luck.token));
        tokens.values == if luck.deleted then w.vault else w.vault[reference := luck.token]
    {
      hide Exec, Tokens.Ref, Sent;
    }

    lemma CandidateShape(luck: Luck)
      requires Messages.IsDigest(env.sha)
      ensures var c := NewCandidate(luck); |c.digest.bytes| == 32 && !Blank(c.reference.text) && c.reference.text != ""
    {
      NotBlank(Tokens.SIGNUP, env.sha(luck.token));
      hide Tokens.Ref;
    }

    lemma NewOnRows(w: World, v: World, d: Digest, luck: Luck, result: Result) returns (a: Approval)
      requires Valid(w.db) && Messages.IsDigest(env.sha) && PutThenApproved(w, v, d, luck, result)
      requires var c := NewCandidate(luck);
        Waiting(w.db, d, luck.second) && Usable(w.db, c.digest, c.reference, c.expiresAt, luck)
      ensures d in w.db.reviews && w.db.reviews[d].submissionId in w.db.submissions
      ensures a.application == w.db.reviews[d].submissionId && a.email == w.db.submissions[a.application].form.email
      ensures a.digest == env.sha(luck.token) && a.expiresAt == luck.first + grantLifetime
      ensures result == Reported(luck) && notices == w.notices
      ensures mail == w.mail + Posted(luck, Mail(a.application, a.email, luck.token, a.expiresAt))
      ensures tokens.values == w.vault[NewCandidate(luck).reference := luck.token]
      ensures var c := NewCandidate(luck);
        store.Rows() == AsApproved(w.db, d, c.digest, c.reference, c.expiresAt, luck.second, luck.start)
    {
      var c := NewCandidate(luck);
      CandidateShape(luck);
      hide Valid, Exec, Messages.IsDigest, Tokens.Ref, PutThenApproved, Waiting, Usable, Sent, Posted, Reported,
        AsApproved;
      NewApproval(w.db, d, c, luck);
      var outcome := Exec(w.db, Request.Approve(d, c, luck.second, luck.start));
      a := outcome.1.approval;
      Granted(w, v, d, luck, result, outcome.0, a);
      SentNew(w, a, luck, result);
    }

    lemma NewShown(w: World, d: Digest, luck: Luck, result: Result, a: Approval)
      requires d in w.db.reviews && w.db.reviews[d].submissionId in w.db.submissions
      requires a.application == w.db.reviews[d].submissionId && a.email == w.db.submissions[a.application].form.email
      requires a.expiresAt == luck.first + grantLifetime && result == Reported(luck) && notices == w.notices
      requires mail == w.mail + Posted(luck, Mail(a.application, a.email, luck.token, a.expiresAt))
      requires tokens.values == w.vault[NewCandidate(luck).reference := luck.token]
      requires var c := NewCandidate(luck);
        store.Rows() == AsApproved(w.db, d, c.digest, c.reference, c.expiresAt, luck.second, luck.start)
      ensures GrantsNew(w, d, luck, result)
    {
      hide Tokens.Ref, Waiting, Usable, AsApproved;
    }

    lemma NotNew(w: World, d: Digest, luck: Luck, result: Result)
      requires var c := NewCandidate(luck);
        !Waiting(w.db, d, luck.second) || !Usable(w.db, c.digest, c.reference, c.expiresAt, luck)
      ensures GrantsNew(w, d, luck, result)
    {
      hide Tokens.Ref, Waiting, Usable;
    }

    lemma SentNew(w: World, a: Approval, luck: Luck, result: Result)
      requires Sent(w, a, luck.token, luck, result) && a.digest == env.sha(luck.token)
      ensures result == Reported(luck) && notices == w.notices
      ensures mail == w.mail + Posted(luck, Mail(a.application, a.email, luck.token, a.expiresAt))
    {
    }

    lemma RejectOnRows(w: World, v: World, d: Digest, luck: Luck, result: Result)
      requires Valid(w.db) && Messages.IsDigest(env.sha) && luck.token != "" && PutThenApproved(w, v, d, luck, result)
      ensures RejectsCandidate(w, d, luck, result)
    {
      var c := NewCandidate(luck);
      CandidateShape(luck);
      hide Valid, Exec, Messages.IsDigest, Tokens.Ref, PutThenApproved;
      hide Waiting, Usable;
      if Waiting(w.db, d, luck.second) && !Usable(w.db, c.digest, c.reference, c.expiresAt, luck) {
        RejectedCandidate(w.db, d, c, luck);
        Refused(w, v, d, luck, result, if luck.second >= c.expiresAt then InvalidInput else Storage);
      }
    }

    lemma AgainOnRows(w: World, v: World, d: Digest, e: Digest, luck: Luck, result: Result)
      requires Valid(w.db) && Messages.IsDigest(env.sha) && luck.token != "" && PutThenApproved(w, v, d, luck, result)
      ensures SendsAgain(w, d, e, luck, result)
    {
      var c := NewCandidate(luck);
      hide Valid, Exec, Messages.IsDigest, Tokens.Ref, PutThenApproved;
      if d in w.db.reviews && w.db.reviews[d].status == Decided && luck.second < w.db.reviews[d].expiresAt
        && e in w.db.grants && w.db.grants[e].submissionId == w.db.reviews[d].submissionId {
        GrantedOnce(w.db, d);
        Answers.ApproveAnswers(w.db, d, c, luck.second, luck.start);
        Replayed(w, v, d, luck, result, Exec(w.db, Request.Approve(d, c, luck.second, luck.start)).1.approval);
      }
    }

    lemma RefusalOnRows(w: World, v: World, d: Digest, luck: Luck, result: Result)
      requires Valid(w.db) && Messages.IsDigest(env.sha) && luck.token != "" && PutThenApproved(w, v, d, luck, result)
      ensures RefusesApproval(w, d, luck, result)
    {
      var c := NewCandidate(luck);
      hide Valid, Exec, Messages.IsDigest, Tokens.Ref, PutThenApproved;
      if d !in w.db.reviews {
        Answers.UnknownReview(w.db, d, c, luck.second, luck.start);
        Refused(w, v, d, luck, result, InvalidReview);
      } else {
        var r := w.db.reviews[d];
        var late := luck.second >= r.expiresAt || r.status == ReviewStatus.ReviewExpired;
        if r.status == Decided { GrantedOnce(w.db, d); }
        Answers.ApproveAnswers(w.db, d, c, luck.second, luck.start);
        if late { Refused(w, v, d, luck, result, ReviewClosed); }
        else if r.status == ReviewRevoked { Refused(w, v, d, luck, result, InvalidReview); }
        else if r.status == Decided
          && forall e :: e in w.db.grants ==> w.db.grants[e].submissionId != r.submissionId {
          Refused(w, v, d, luck, result, DecisionConflict);
        }
      }
    }

    method Approve(reviewToken: string, luck: Luck, ghost w: World, ghost c: nat)
      returns (result: Result, ghost labels: seq<Label>)
      requires Valid(w.db) && Shows(w) && c !in w.calls && Messages.IsDigest(env.sha)
      modifies this, store, tokens
      ensures labels != [] && labels[0] == StartApprove(c, reviewToken, luck.token, luck.first + grantLifetime)
      ensures Did(w, c, luck, labels, result)
      ensures var candidate := CandidateOf(env.sha, Tokens.SIGNUP, luck.token, luck.first + grantLifetime);
        var req := Request.Approve(env.sha(reviewToken), candidate, luck.second, luck.start);
        Tokens.ValidToken(reviewToken) && luck.token != "" && candidate.reference !in w.vault ==>
          Orphaned(w, req, candidate.reference, luck, result)
      ensures !Tokens.ValidToken(reviewToken) ==> result == Rejected(InvalidReview) && Untouched(w)
      ensures var reference := Tokens.Ref(Tokens.SIGNUP, env.sha(luck.token));
        Tokens.ValidToken(reviewToken) ==>
          if luck.token == "" || reference in w.vault then result == Rejected(Storage) && Untouched(w)
          else luck.faults == {} ==>
            && GrantsNew(w, env.sha(reviewToken), luck, result)
            && RejectsCandidate(w, env.sha(reviewToken), luck, result)
            && RefusesApproval(w, env.sha(reviewToken), luck, result)
            && forall e :: SendsAgain(w, env.sha(reviewToken), e, luck, result)
    {
      hide Faithful, Chosen, Valid, Tokens.ValidToken, Tokens.Ref, Run, Tokens.ValidScope, Messages.IsDigest,
        Orphaned, GrantsNew, RejectsCandidate, SendsAgain, RefusesApproval, FollowsApproval, Exec;
      PutShape(env.sha, luck.token);
      labels := [StartApprove(c, reviewToken, luck.token, luck.first + grantLifetime)];
      FaithfulStart(labels[0], luck);
      StartedApprove(env.sha, w, c, reviewToken, luck.token, luck.first + grantLifetime);
      if !Tokens.ValidToken(reviewToken) { return Rejected(InvalidReview), labels; }
      var put := tokens.Put(Tokens.SIGNUP, env.sha(luck.token), luck.token);
      if put.Err? { return Rejected(Storage), labels; }
      ghost var more;
      ghost var v := Run(env.sha, w, labels);
      assert Shows(v);
      hide Did;
      result, more := ApproveWith(reviewToken, put.value, luck, v, c);
      if luck.faults == {} {
        ghost var k := NewCandidate(luck);
        if Waiting(w.db, env.sha(reviewToken), luck.second) && Usable(w.db, k.digest, k.reference, k.expiresAt, luck) {
          ghost var a := NewOnRows(w, v, env.sha(reviewToken), luck, result);
          NewShown(w, env.sha(reviewToken), luck, result, a);
        } else {
          NotNew(w, env.sha(reviewToken), luck, result);
        }
        RejectOnRows(w, v, env.sha(reviewToken), luck, result);
        RefusalOnRows(w, v, env.sha(reviewToken), luck, result);
        forall e ensures SendsAgain(w, env.sha(reviewToken), e, luck, result) {
          AgainOnRows(w, v, env.sha(reviewToken), e, luck, result);
        }
      }
      ghost var candidate := CandidateOf(env.sha, Tokens.SIGNUP, luck.token, luck.first + grantLifetime);
      ghost var req := Request.Approve(env.sha(reviewToken), candidate, luck.second, luck.start);
      OrphanedSince(w, v, req, put.value, luck, result);
      DidMore(w, c, luck, labels, more, result);
      labels := labels + more;
    }

    method Notify(notice: Notice, luck: Luck, ghost w: World, ghost c: nat) returns (ghost labels: seq<Label>)
      requires Shows(w) && c in w.calls && w.calls[c] == Notifying(notice.application, notice.token, notice.expiresAt)
      modifies this
      ensures Did(w, c, luck, labels, Accepted) && mail == w.mail
      ensures notices == w.notices + Noticed(luck, notice)
    {
      hide Run;
      labels := [Send(c, luck.delivered, luck.reported)];
      Notified(env.sha, w, c, luck.delivered, luck.reported);
      if luck.delivered || luck.reported { notices := notices + [notice]; }
    }

    method SubmitPlain(form: Form, luck: Luck, ghost w: World, ghost c: nat)
      returns (result: Result, ghost labels: seq<Label>)
      requires Valid(w.db) && Shows(w) && c !in w.calls && form.kind == Waitlist
      modifies store
      ensures labels != [] && labels[0].StartSubmit? && labels[0].form == form
      ensures labels[0].since == luck.second - duplicateWindow
      ensures Did(w, c, luck, labels, result)
      ensures luck.faults == {} ==> Enlists(w, form, luck, result)
      ensures store.Rows().reviews == w.db.reviews
    {
      hide Valid, Exec, Run, Novel;
      var since := luck.second - duplicateWindow;
      labels := [StartSubmit(c, form, since, luck.token, 0)];
      StartedSubmit(env.sha, w, c, form, since, luck.token, 0);
      var answer;
      ghost var transact;
      answer, transact := TransactSubmission(form, since, None, luck, Run(env.sha, w, labels), c);
      RunAppend(env.sha, w, labels, transact);
      labels := labels + transact;
      result := if answer.Failed? then Rejected(answer.error) else Accepted;
      NewPlain(w.db, form, since, luck);
    }

    /** The transaction of an application whose review token is put, and everything after it. */
    method SubmitWith(form: Form, reference: Reference, luck: Luck, ghost w: World, ghost c: nat)
      returns (result: Result, ghost labels: seq<Label>)
      requires Valid(w.db) && Shows(w) && reference == Tokens.Ref(Tokens.REVIEW, env.sha(luck.token)) && c in w.calls
      requires w.calls[c] == Submitting(form, luck.second - duplicateWindow, luck.token, luck.first + reviewLifetime)
      modifies this, store, tokens
      ensures Did(w, c, luck, labels, result)
      ensures var review := Candidate(env.sha(luck.token), reference, luck.first + reviewLifetime);
        var req := Create(form, luck.second - duplicateWindow, Some(review), luck.id, luck.start);
        && Orphaned(w, req, reference, luck, result)
        && (luck.faults == {} ==> FollowsSubmission(w, Exec(w.db, req), reference, luck, result))
    {
      hide Valid, Exec, Run, Tokens.Ref;
      var review := Candidate(env.sha(luck.token), reference, luck.first + reviewLifetime);
      var answer;
      answer, labels := TransactSubmission(form, luck.second - duplicateWindow, Some(review), luck, w, c);
      ghost var v := Run(env.sha, w, labels);
      ghost var more;
      if !answer.Submitted? {
        result, more := GiveUp(reference, Rejected(if answer.Failed? then answer.error else Storage), luck, v, c);
      } else if !answer.created {
        result, more := GiveUp(reference, Accepted, luck, v, c);
      } else {
        result := Accepted;
        more := Notify(Notice(answer.id, luck.token, review.expiresAt), luck, v, c);
      }
      RunAppend(env.sha, w, labels, more);
      labels := labels + more;
    }

    // What Submit comes to, in terms of rows, tokens and messages only, when the database does not fail.

    /** An early-access application, its token put: announced once if it is stored; accepted and
        forgotten if the window has its like; refused if a constraint objects. */
    ghost predicate Applies(w: World, form: Form, luck: Luck, result: Result)
      reads this, store, tokens
    {
      var g, expiresAt := env.sha(luck.token), luck.first + reviewLifetime;
      var reference := Tokens.Ref(Tokens.REVIEW, g);
      && mail == w.mail
      && if Novel(w.db, form, luck.second - duplicateWindow) && Admitted(w.db, form, g, reference, expiresAt, luck) then
           && result == Accepted && store.Rows() == WithApplication(w.db, form, g, reference, expiresAt, luck)
           && tokens.values == w.vault[reference := luck.token]
           && notices == w.notices + (if luck.delivered || luck.reported
                then [Notice(luck.id, luck.token, expiresAt)] else [])
         else
           && result == (if Novel(w.db, form, luck.second - duplicateWindow) then Rejected(Storage) else Accepted)
           && store.Rows() == w.db && notices == w.notices
           && tokens.values == (if luck.deleted then w.vault else w.vault[reference := luck.token])
    }

    /** A waitlist entry: one row at most, and no review, token or notice. */
    ghost predicate Enlists(w: World, form: Form, luck: Luck, result: Result)
      reads this, store, tokens
    {
      && mail == w.mail && notices == w.notices && tokens.values == w.vault
      && var novel := Novel(w.db, form, luck.second - duplicateWindow);
         var admitted := luck.id !in w.db.submissions
           && !Blank(form.email) && !Blank(form.profile.source) && !Blank(form.fingerprint);
      && result == (if novel && !admitted then Rejected(Storage) else Accepted)
      && store.Rows() == (if novel && admitted
           then Db(w.db.submissions[luck.id := Submission(form, luck.start, None, None, None, None)],
                   w.db.reviews, w.db.grants)
           else w.db)
    }

    function ReviewCandidate(luck: Luck): Candidate {
      Candidate(env.sha(luck.token), Tokens.Ref(Tokens.REVIEW, env.sha(luck.token)), luck.first + reviewLifetime)
    }

    function ApplicationRequest(form: Form, luck: Luck): Request {
      Create(form, luck.second - duplicateWindow, Some(ReviewCandidate(luck)), luck.id, luck.start)
    }

    /** The token is put, and the submission has followed without a fault of the database. */
    ghost predicate PutThenSubmitted(w: World, v: World, form: Form, luck: Luck, result: Result)
      reads this, store, tokens
    {
      var reference := Tokens.Ref(Tokens.REVIEW, env.sha(luck.token));
      && v.db == w.db && v.mail == w.mail && v.notices == w.notices
      && reference !in w.vault && v.vault == w.vault[reference := luck.token]
      && FollowsSubmission(v, Exec(w.db, ApplicationRequest(form, luck)), reference, luck, result)
    }

    lemma Stored(w: World, v: World, form: Form, luck: Luck, result: Result, db: Db)
      requires PutThenSubmitted(w, v, form, luck, result)
      requires Exec(w.db, ApplicationRequest(form, luck)) == (db, Submitted(luck.id, true))
      ensures mail == w.mail && result == Accepted && store.Rows() == db
      ensures tokens.values == w.vault[Tokens.Ref(Tokens.REVIEW, env.sha(luck.token)) := luck.token]
      ensures notices == w.notices + Noticed(luck, Notice(luck.id, luck.token, luck.first + reviewLifetime))
    {
      hide Exec, Tokens.Ref, Noticed;
    }

    lemma NotStored(w: World, v: World, form: Form, luck: Luck, result: Result)
      requires PutThenSubmitted(w, v, form, luck, result)
      requires var (db, answer) := Exec(w.db, ApplicationRequest(form, luck));
        db == w.db && (answer == Failed(Storage) || (answer.Submitted? && !answer.created))
      ensures mail == w.mail && store.Rows() == w.db && notices == w.notices
      ensures result == if Exec(w.db, ApplicationRequest(form, luck)).1.Failed? then Rejected(Storage) else Accepted
      ensures var reference := Tokens.Ref(Tokens.REVIEW, env.sha(luck.token));
        tokens.values == if luck.deleted then w.vault else w.vault[reference := luck.token]
    {
      hide Exec, Tokens.Ref, Noticed;
    }

    lemma ReviewCandidateShape(luck: Luck)
      requires Messages.IsDigest(env.sha)
      ensures var c := ReviewCandidate(luck); |c.digest.bytes| == 32 && !Blank(c.reference.text)
    {
      NotBlank(Tokens.REVIEW, env.sha(luck.token));
      hide Tokens.Ref;
    }

    /** The application would be stored. */
    ghost predicate Welcome(db: Db, form: Form, luck: Luck) {
      var c := ReviewCandidate(luck);
      Novel(db, form, luck.second - duplicateWindow) && Admitted(db, form, c.digest, c.reference, c.expiresAt, luck)
    }

    lemma ApplicationExec(db: Db, form: Form, luck: Luck)
      requires Valid(db) && Messages.IsDigest(env.sha) && form.kind == EarlyAccess
      ensures var (db', answer) := Exec(db, ApplicationRequest(form, luck)); var c := ReviewCandidate(luck);
        if Welcome(db, form, luck) then
          && answer == Submitted(luck.id, true)
          && db' == WithApplication(db, form, c.digest, c.reference, c.expiresAt, luck)
        else
          && db' == db
          && if Novel(db, form, luck.second - duplicateWindow) then answer == Failed(Storage)
             else answer.Submitted? && !answer.created
    {
      hide Valid, Exec, Messages.IsDigest, Tokens.Ref, Novel, Admitted, WithApplication, ReviewCandidate, Blank;
      ReviewCandidateShape(luck);
      NewApplication(db, form, luck.second - duplicateWindow, ReviewCandidate(luck), luck);
    }

    lemma ApplicationOnRows(w: World, v: World, form: Form, luck: Luck, result: Result)
      requires Valid(w.db) && Messages.IsDigest(env.sha) && form.kind == EarlyAccess
      requires PutThenSubmitted(w, v, form, luck, result)
      ensures Applies(w, form, luck, result)
    {
      hide Valid, Exec, Messages.IsDigest, Tokens.Ref, PutThenSubmitted, Novel, Welcome, WithApplication, Noticed,
        Applies, ApplicationRequest, ReviewCandidate;
      ApplicationExec(w.db, form, luck);
      var c := ReviewCandidate(luck);
      if Welcome(w.db, form, luck) {
        Stored(w, v, form, luck, result, WithApplication(w.db, form, c.digest, c.reference, c.expiresAt, luck));
        ShownStored(w, form, luck, result);
      } else {
        NotStored(w, v, form, luck, result);
        ShownNotStored(w, form, luck, result);
      }
    }

    lemma ShownStored(w: World, form: Form, luck: Luck, result: Result)
      requires var c := ReviewCandidate(luck);
        && Welcome(w.db, form, luck)
        && store.Rows() == WithApplication(w.db, form, c.digest, c.reference, c.expiresAt, luck)
      requires mail == w.mail && result == Accepted
      requires tokens.values == w.vault[Tokens.Ref(Tokens.REVIEW, env.sha(luck.token)) := luck.token]
      requires notices == w.notices + Noticed(luck, Notice(luck.id, luck.token, luck.first + reviewLifetime))
      ensures Applies(w, form, luck, result)
    {
      hide Tokens.Ref, Novel, Admitted, WithApplication;
    }

    lemma ShownNotStored(w: World, form: Form, luck: Luck, result: Result)
      requires !Welcome(w.db, form, luck)
        && result == if Novel(w.db, form, luck.second - duplicateWindow) then Rejected(Storage) else Accepted
      requires mail == w.mail && store.Rows() == w.db && notices == w.notices
      requires var reference := Tokens.Ref(Tokens.REVIEW, env.sha(luck.token));
        tokens.values == if luck.deleted then w.vault else w.vault[reference := luck.token]
      ensures Applies(w, form, luck, result)
    {
      hide Tokens.Ref, Novel, Admitted, WithApplication, Noticed;
    }

    method SubmitEarlyAccess(form: Form, luck: Luck, ghost w: World, ghost c: nat)
      returns (result: Result, ghost labels: seq<Label>)
      requires Valid(w.db) && Shows(w) && c !in w.calls && Messages.IsDigest(env.sha) && form.kind == EarlyAccess
      modifies this, store, tokens
      ensures labels != [] && labels[0] ==
        StartSubmit(c, form, luck.second - duplicateWindow, luck.token, luck.first + reviewLifetime)
      ensures Did(w, c, luck, labels, result)
      ensures var review := CandidateOf(env.sha, Tokens.REVIEW, luck.token, luck.first + reviewLifetime);
        var req := Create(form, luck.second - duplicateWindow, Some(review), luck.id, luck.start);
        luck.token != "" && review.reference !in w.vault ==> Orphaned(w, req, review.reference, luck, result)
      ensures var reference := Tokens.Ref(Tokens.REVIEW, env.sha(luck.token));
        if luck.token == "" || reference in w.vault then result == Rejected(Storage) && Untouched(w)
        else luck.faults == {} ==> Applies(w, form, luck, result)
    {
      hide Faithful, Chosen, Valid, Tokens.Ref, Run, Tokens.ValidScope, Messages.IsDigest, Orphaned,
        Applies, FollowsSubmission, Exec;
      PutShape(env.sha, luck.token);
      labels := [StartSubmit(c, form, luck.second - duplicateWindow, luck.token, luck.first + reviewLifetime)];
      FaithfulStart(labels[0], luck);
      StartedSubmit(env.sha, w, c, form, luck.second - duplicateWindow, luck.token, luck.first + reviewLifetime);
      var put := tokens.Put(Tokens.REVIEW, env.sha(luck.token), luck.token);
      if put.Err? { return Rejected(Storage), labels; }
      ghost var v := Run(env.sha, w, labels);
      assert Shows(v);
      ghost var more;
      hide Did;
      result, more := SubmitWith(form, put.value, luck, v, c);
      if luck.faults == {} { ApplicationOnRows(w, v, form, luck, result); }
      ghost var review := CandidateOf(env.sha, Tokens.REVIEW, luck.token, luck.first + reviewLifetime);
      ghost var req := Create(form, luck.second - duplicateWindow, Some(review), luck.id, luck.start);
      OrphanedSince(w, v, req, put.value, luck, result);
      DidMore(w, c, luck, labels, more, result);
      labels := labels + more;
    }

    /** Submit. A malformed submission touches nothing. */
    method Submit(input: Normalization.Input, luck: Luck, ghost w: World, ghost c: nat)
      returns (invalid: Option<string>, result: Result, ghost labels: seq<Label>)
      requires Valid(w.db) && Shows(w) && c !in w.calls && Messages.IsDigest(env.sha)
      modifies this, store, tokens
      ensures match Normalization.Normalized(env, input)
        case Invalid(message) => invalid == Some(message) && Shows(w)
        case Ok(form) =>
          && invalid == None && Did(w, c, luck, labels, result)
          && labels != [] && labels[0].StartSubmit?
          && labels[0].form == form && labels[0].since == luck.second - duplicateWindow
          && (Text.Trim(input.submissionType) == "waitlist" && luck.faults == {} ==> Enlists(w, form, luck, result))
          && (Text.Trim(input.submissionType) == "waitlist" ==>
                tokens.values == w.vault && notices == w.notices && store.Rows().reviews == w.db.reviews)
          && (Text.Trim(input.submissionType) != "waitlist" ==>
                && Text.Trim(input.submissionType) == "early_access"
                && var reference := Tokens.Ref(Tokens.REVIEW, env.sha(luck.token));
                   if luck.token == "" || reference in w.vault then result == Rejected(Storage) && Untouched(w)
                   else luck.faults == {} ==> Applies(w, form, luck, result))
          && (form.kind == EarlyAccess ==>
                var review := CandidateOf(env.sha, Tokens.REVIEW, luck.token, luck.first + reviewLifetime);
                var req := Create(form, luck.second - duplicateWindow, Some(review), luck.id, luck.start);
                luck.token != "" && review.reference !in w.vault ==> Orphaned(w, req, review.reference, luck, result))
    {
      hide Valid, Run, Normalization.Normalized, Orphaned;
      var form := Normalization.Normalize(env, input);
      if form.Invalid? { return Some(form.message), Rejected(InvalidInput), []; }
      invalid := None;
      Normalization.KindAccepted(env, input, form.value);
      hide Applies, Enlists, Did, Text.Trim, Tokens.Ref;
      if form.value.kind == EarlyAccess {
        result, labels := SubmitEarlyAccess(form.value, luck, w, c);
      } else {
        result, labels := SubmitPlain(form.value, luck, w, c);
      }
    }

    /** What a consumption comes to, in terms of rows and tokens only, when the database does not
        fail: the claim that holds the grant, or that has consumed it, gets the consumed row, and
        the grant's token is deleted. */
    ghost predicate Consumes(w: World, d: Digest, email: string, claim: Digest, luck: Luck, result: Result)
      reads this, store, tokens
    {
      if d !in w.db.grants || w.db.grants[d].email != email then result == Rejected(InvalidGrant) && Untouched(w)
      else
        var g := w.db.grants[d];
        var now := luck.second;
        var again := g.status == Consumed && g.claimDigest == Some(claim);
        var held := g.status == Claimed && g.claimDigest == Some(claim) && g.claimExpiresAt.Some?
          && now < g.claimExpiresAt.value && now < g.expiresAt;
        if !again && !held then result == Rejected(InvalidClaim) && Untouched(w)
        else
          && mail == w.mail && notices == w.notices
          && tokens.values == (if luck.deleted then w.vault - {g.reference} else w.vault)
          && result == ConsumedAs(GrantView(g.email, Consumed, g.expiresAt, if again then g.claimExpiresAt else None,
               g.reference))
          && store.Rows() == (if again then w.db
               else Db(w.db.submissions, w.db.reviews, w.db.grants[d :=
                 Grant(g.submissionId, g.email, g.reference, g.expiresAt, g.createdAt, Consumed,
                   None, None, Some(claim), Some(now), None)]))
    }

    /** The same, following the transaction. */
    ghost predicate FollowsConsumption(w: World, outcome: (Db, Answer), luck: Luck, result: Result)
      reads this, store, tokens
    {
      && store.Rows() == outcome.0 && mail == w.mail && notices == w.notices
      && match outcome.1
         case GrantIs(view) =>
           && result == ConsumedAs(view)
           && tokens.values == (if luck.deleted then w.vault - {view.reference} else w.vault)
         case Failed(e) => result == Rejected(e) && tokens.values == w.vault
         case _ => true
    }

    lemma ConsumptionOnRows(w: World, v: World, d: Digest, email: string, claim: Digest, luck: Luck, result: Result)
      requires Valid(w.db) && v.db == w.db && v.vault == w.vault && v.mail == w.mail && v.notices == w.notices
      requires FollowsConsumption(v, Exec(w.db, Consume(d, email, claim, luck.second)), luck, result)
      ensures Consumes(w, d, email, claim, luck, result)
    {
      hide Valid, Exec, GrantCheck;
      if d in w.db.grants { Answers.GrantColumns(w.db, d); }
      Answers.ConsumeAnswers(w.db, d, email, claim, luck.second);
      var (rows, answer) := Exec(w.db, Consume(d, email, claim, luck.second));
      match answer
      case Failed(e) => assert rows == w.db;
      case GrantIs(view) => assert d in w.db.grants && w.db.grants[d].email == email;
      case _ =>
    }

    method CleanUp(view: GrantView, luck: Luck, ghost w: World, ghost c: nat) returns (ghost labels: seq<Label>)
      requires Shows(w) && c in w.calls && w.calls[c].Cleaning? && w.calls[c].view == view
      requires view.reference == w.calls[c].reference && view.reference.text != ""
      modifies tokens
      ensures Did(w, c, luck, labels, ConsumedAs(view))
      ensures tokens.values == if luck.deleted then w.vault - {view.reference} else w.vault
    {
      hide Run;
      labels := [Protocol.Delete(c, luck.deleted)];
      Cleaned(env.sha, w, c, luck.deleted);
      if view.reference.text != "" { Delete(view.reference, luck.deleted); }
    }

    /** The transaction of a consumption, and the cleanup after it. */
    method ConsumeWith(d: Digest, email: string, claim: Digest, luck: Luck, ghost w: World, ghost c: nat)
      returns (result: Result, ghost labels: seq<Label>)
      requires Valid(w.db) && Shows(w) && c in w.calls && w.calls[c] == Consuming(d, email, claim)
      modifies this, store, tokens
      ensures Did(w, c, luck, labels, result)
      ensures Unacknowledged(w, Consume(d, email, claim, luck.second), luck, result)
      ensures luck.faults == {Store.Acknowledging} ==> tokens.values == w.vault
      ensures luck.faults == {} ==>
        FollowsConsumption(w, Exec(w.db, Consume(d, email, claim, luck.second)), luck, result)
    {
      hide Valid, Exec, Run, Store.Atomically, Tokens.Ref;
      ConsumedNamed(w.db, d, email, claim, luck.second);
      var answer := store.ConsumeGrant(d, email, claim, luck.second, luck.faults);
      ghost var req := Consume(d, email, claim, luck.second);
      ghost var fate := FateOf(w.db, req, store.Rows(), answer, luck.faults);
      if luck.faults == {Store.Acknowledging} { OnlyUnacknowledged(w.db, req, store.Rows(), answer, luck.faults); }
      if luck.faults == {} { Faultless(w.db, req, store.Rows(), answer); }
      labels := [Transact(c, luck.second, luck.start, luck.id, fate)];
      Transacted(env.sha, w, c, luck.second, luck.start, luck.id, store.Rows(), answer, luck.faults);
      if !answer.GrantIs? { return Rejected(if answer.Failed? then answer.error else Storage), labels; }
      AnswerOf(w.db, Consume(d, email, claim, luck.second), store.Rows(), answer, luck.faults);
      ghost var v := Run(env.sha, w, labels);
      assert Shows(v);
      ghost var more := CleanUp(answer.grant, luck, v, c);
      RunAppend(env.sha, w, labels, more);
      labels := labels + more;
      result := ConsumedAs(answer.grant);
    }

    method ConsumeGrant(token: string, email: string, claimReference: string, luck: Luck, ghost w: World, ghost c: nat)
      returns (result: Result, ghost labels: seq<Label>)
      requires Valid(w.db) && Shows(w) && c !in w.calls
      modifies this, store, tokens
      ensures match NormalizeOperation(env, token, email, claimReference)
        case Refused(e) => result == Rejected(e) && Shows(w)
        case Operation(address, claim) =>
          && labels != [] && labels[0] == StartConsume(c, token, address, claim)
          && Did(w, c, luck, labels, result)
          && Unacknowledged(w, Consume(env.sha(token), address, claim, luck.second), luck, result)
          && (luck.faults == {Store.Acknowledging} ==> tokens.values == w.vault)
          && (luck.faults == {} ==> Consumes(w, env.sha(token), address, claim, luck, result))
    {
      hide Valid, Run, Tokens.ValidToken, Unacknowledged, Consumes, FollowsConsumption, Exec;
      var op := NormalizeOperation(env, token, email, claimReference);
      if op.Refused? { return Rejected(op.error), []; }
      labels := [StartConsume(c, token, op.email, op.claim)];
      StartedConsume(env.sha, w, c, token, op.email, op.claim);
      ghost var v := Run(env.sha, w, labels);
      assert Shows(v);
      ghost var more;
      result, more := ConsumeWith(env.sha(token), op.email, op.claim, luck, v, c);
      if luck.faults == {} { ConsumptionOnRows(w, v, env.sha(token), op.email, op.claim, luck, result); }
      OrphanedSince(w, v, Consume(env.sha(token), op.email, op.claim, luck.second), Reference(""), luck, result);
      RunAppend(env.sha, w, labels, more);
      labels := labels + more;
    }

    method Decline(reviewToken: string, now: Time, faults: set<Store.Stage>) returns (answer: Answer)
      requires Valid(store.Rows())
      modifies store
      ensures var before := old(store.Rows());
        if !Tokens.ValidToken(reviewToken) then answer == Failed(InvalidReview) && store.Rows() == before
        else Store.Atomically(before, Request.Decline(env.sha(reviewToken), now), store.Rows(), answer, faults)
    {
      hide Valid, Store.Atomically, Tokens.ValidToken;
      if !Tokens.ValidToken(reviewToken) { return Failed(InvalidReview); }
      answer := store.Decline(env.sha(reviewToken), now, faults);
    }

    /** Resolve: the application behind a review, as long as it waits for a decision. */
    method Resolve(token: string, now: Time, faults: set<Store.Stage>) returns (r: Store.Lookup<Submission>)
      requires Valid(store.Rows())
      ensures var db, d, failed := store.Rows(), env.sha(token), Store.Reading in faults;
        && (r.Found? <==> Tokens.ValidToken(token) && !failed && Store.Resolvable(db, d, now))
        && (r.Found? ==> r.value == db.submissions[db.reviews[d].submissionId])
        && (r.Missing? ==>
              var late := d in db.reviews && now >= db.reviews[d].expiresAt;
              r.error == if !Tokens.ValidToken(token) then InvalidReview
                         else if failed then Storage else if late then ReviewClosed else InvalidReview)
    {
      hide Valid, Tokens.ValidToken;
      if !Tokens.ValidToken(token) { return Store.Missing(InvalidReview); }
      r := store.ResolveReview(env.sha(token), now, faults);
    }

    method ValidateGrant(token: string, email: string, now: Time, faults: set<Store.Stage>)
      returns (r: Store.Lookup<GrantView>)
      ensures var db, d, address := store.Rows(), env.sha(token), Normalization.NormalizeEmail(env, email);
        var sound, failed := Tokens.ValidToken(token) && address.Some?, Store.Reading in faults;
        && (r.Found? <==> sound && !failed && Store.Validates(db, d, address.value, now))
        && (r.Found? ==>
              var g := db.grants[d];
              r.value == GrantView(g.email, g.status, g.expiresAt, g.claimExpiresAt, g.reference))
        && (r.Missing? ==>
              r.error == if !sound then InvalidGrant else if failed then Storage
                         else if Store.Lapsed(db, d, address.value, now) then GrantLapsed else InvalidGrant)
    {
      hide Tokens.ValidToken, Normalization.NormalizeEmail;
      var address := Normalization.NormalizeEmail(env, email);
      if address.None? || !Tokens.ValidToken(token) { return Store.Missing(InvalidGrant); }
      r := store.ValidateGrant(env.sha(token), address.value, now, faults);
    }

    /** ResolveGrant: only an active, unexpired grant resolves, to the applicant's three values. */
    method ResolveGrant(token: string, now: Time, faults: set<Store.Stage>) returns (r: Store.Lookup<SignupMetadata>)
      requires Valid(store.Rows())
      ensures var db, d, failed := store.Rows(), env.sha(token), Store.Reading in faults;
        var active := d in db.grants && db.grants[d].status == Active;
        && (r.Found? <==> Tokens.ValidToken(token) && !failed && active && now < db.grants[d].expiresAt)
        && (r.Found? ==>
              && db.grants[d].submissionId in db.submissions
              && var p := db.submissions[db.grants[d].submissionId].form.profile;
                 r.value == SignupMetadata(db.grants[d].email, p.name, p.farmName))
        && (r.Missing? ==>
              r.error == if !Tokens.ValidToken(token) then InvalidGrant
                         else if failed then Storage else if active then GrantLapsed else InvalidGrant)
    {
      hide Valid, Tokens.ValidToken;
      if !Tokens.ValidToken(token) { return Store.Missing(InvalidGrant); }
      var metadata := store.ResolveGrant(env.sha(token), faults);
      if metadata.Missing? { return Store.Missing(metadata.error); }
      var m := metadata.value;
      if m.status != Active { return Store.Missing(InvalidGrant); }
      if now >= m.expiresAt { return Store.Missing(GrantLapsed); }
      return Store.Found(SignupMetadata(m.email, m.ownerName, m.farmName));
    }

    /** One reading of the clock bounds the lease on both sides. */
    method ClaimGrant(token: string, email: string, claimReference: string, now: Time, faults: set<Store.Stage>)
      returns (answer: Answer)
      requires Valid(store.Rows())
      modifies store
      ensures match NormalizeOperation(env, token, email, claimReference)
        case Refused(e) => answer == Failed(e) && store.Rows() == old(store.Rows())
        case Operation(address, claim) =>
          var req := Claim(env.sha(token), address, claim, now, now + claimLifetime);
          Store.Atomically(old(store.Rows()), req, store.Rows(), answer, faults)
    {
      hide Valid, Store.Atomically, NormalizeOperation;
      var op := NormalizeOperation(env, token, email, claimReference);
      if op.Refused? { return Failed(op.error); }
      answer := store.ClaimGrant(env.sha(token), op.email, op.claim, now, now + claimLifetime, faults);
    }

    method ReleaseGrant(token: string, email: string, claimReference: string, now: Time, faults: set<Store.Stage>)
      returns (answer: Answer)
      requires Valid(store.Rows())
      modifies store
      ensures match NormalizeOperation(env, token, email, claimReference)
        case Refused(e) => answer == Failed(e) && store.Rows() == old(store.Rows())
        case Operation(address, claim) =>
          var req := Release(env.sha(token), address, claim, now);
          Store.Atomically(old(store.Rows()), req, store.Rows(), answer, faults)
    {
      hide Valid, Store.Atomically, NormalizeOperation;
      var op := NormalizeOperation(env, token, email, claimReference);
      if op.Refused? { return Failed(op.error); }
      answer := store.ReleaseGrant(env.sha(token), op.email, op.claim, now, faults);
    }
  }

  lemma AnswerOf(db: Db, req: Request, after: Db, answer: Answer, faults: set<Store.Stage>)
    requires Store.Atomically(db, req, after, answer, faults) && answer.GrantIs?
    ensures answer == Exec(db, req).1
  {
    hide Exec;
  }
}
