/** What holds in every reachable world, crashes, failed deletes and lost commits included:
    rows, stored tokens, calls in flight and messages agree on digests. */
module Messages {
  import opened Base
  import opened Schema
  import opened Transactions
  import opened Lifecycle
  import opened Decisions
  import opened Tokens
  import opened Protocol

  /** SHA-256 is any function to 32-byte digests. Collisions are not excluded. */
  ghost predicate IsDigest(sha: string -> Digest) {
    forall t :: |sha(t).bytes| == DIGEST_LENGTH
  }

  /** Tokens are stored under the digest of their text. */
  ghost predicate VaultOk(sha: string -> Digest, vault: map<Reference, string>) {
    forall r :: r in vault ==> r == Ref(REVIEW, sha(vault[r])) || r == Ref(SIGNUP, sha(vault[r]))
  }

  ghost predicate RowReferences(db: Db) {
    && (forall d :: d in db.reviews ==> db.reviews[d].reference == Ref(REVIEW, d))
    && (forall d :: d in db.grants ==> db.grants[d].reference == Ref(SIGNUP, d))
  }

  /** The terms of an approval are those of a grant row. */
  predicate OnFile(db: Db, a: Approval) {
    && a.digest in db.grants
    && var g := db.grants[a.digest];
       a.application == g.submissionId && a.email == g.email && a.reference == g.reference && a.expiresAt == g.expiresAt
  }

  predicate IsConsumed(db: Db, d: Digest) {
    d in db.grants && db.grants[d].status == Consumed
  }

  predicate Reviewable(db: Db, d: Digest, id: Id, expiresAt: Time) {
    d in db.reviews && db.reviews[d].submissionId == id && db.reviews[d].expiresAt == expiresAt
  }

  predicate CallAgrees(sha: string -> Digest, db: Db, call: Call) {
    match call
    case Discarding(_, _, next) => next.ReadBack? ==> OnFile(db, next.approval)
    case Reading(a) => OnFile(db, a)
    case Verifying(a, _) => OnFile(db, a)
    case Sending(a, token) => OnFile(db, a) && sha(token) == a.digest
    case Notifying(id, token, expiresAt) => Reviewable(db, sha(token), id, expiresAt) && id in db.submissions
    case Cleaning(d, reference, _) => IsConsumed(db, d) && reference == db.grants[d].reference
    case _ => true
  }

  /** A message carries the token, the address and the expiry of the one grant of its application. */
  predicate MailAgrees(sha: string -> Digest, db: Db, m: Mail) {
    && sha(m.token) in db.grants
    && var g := db.grants[sha(m.token)];
       m.application == g.submissionId && m.recipient == g.email && m.expiresAt == g.expiresAt
  }

  predicate NoticeAgrees(sha: string -> Digest, db: Db, n: Notice) {
    Reviewable(db, sha(n.token), n.application, n.expiresAt) && n.application in db.submissions
  }

  ghost predicate CallsAgree(sha: string -> Digest, db: Db, calls: map<nat, Call>) {
    forall c :: c in calls ==> CallAgrees(sha, db, calls[c])
  }

  ghost predicate SentAgree(sha: string -> Digest, db: Db, mail: seq<Mail>, notices: seq<Notice>) {
    && (forall i :: 0 <= i < |mail| ==> MailAgrees(sha, db, mail[i]))
    && (forall i :: 0 <= i < |notices| ==> NoticeAgrees(sha, db, notices[i]))
  }

  /** No application is announced to the review team twice. */
  ghost predicate NotifiedOnce(calls: map<nat, Call>, notices: seq<Notice>) {
    && (forall i, j :: 0 <= i < j < |notices| ==> notices[i].application != notices[j].application)
    && (forall c, i :: c in calls && calls[c].Notifying? && 0 <= i < |notices| ==>
          calls[c].application != notices[i].application)
    && (forall c, e :: c in calls && e in calls && c != e && calls[c].Notifying? && calls[e].Notifying? ==>
          calls[c].application != calls[e].application)
  }

  ghost predicate Agrees(sha: string -> Digest, w: World) {
    && Valid(w.db) && RowReferences(w.db) && VaultOk(sha, w.vault)
    && CallsAgree(sha, w.db, w.calls) && SentAgree(sha, w.db, w.mail, w.notices) && NotifiedOnce(w.calls, w.notices)
  }

  // ---- Database steps ---------------------------------------------------------------------------

  /** What no transaction undoes. */
  ghost predicate Grows(db: Db, db': Db) {
    && (forall d :: d in db.grants ==> d in db'.grants && SameGrant(db.grants[d], db'.grants[d]))
    && (forall d :: IsConsumed(db, d) ==> IsConsumed(db', d))
    && (forall d :: d in db.reviews ==> d in db'.reviews && SameReview(db.reviews[d], db'.reviews[d]))
    && (forall id :: id in db.submissions ==> id in db'.submissions)
  }

  lemma ExecGrows(db: Db, req: Request)
    requires Valid(db)
    ensures Grows(db, Exec(db, req).0)
  {
    hide Valid, Exec, GrantMove, ReviewMove, SubmissionMove;
    ExecMoves(db, req);
    var db' := Exec(db, req).0;
    forall d | d in db.grants
      ensures SameGrant(db.grants[d], db'.grants[d])
      ensures db.grants[d].status == Consumed ==> db'.grants[d].status == Consumed
    {
      MoveKeepsGrant(req, d, db.grants[d], db'.grants[d]);
    }
    forall d | d in db.reviews ensures SameReview(db.reviews[d], db'.reviews[d]) {
      MoveKeepsReview(req, d, db.reviews[d], db'.reviews[d]);
    }
  }

  lemma MoveKeepsGrant(req: Request, d: Digest, g: Grant, h: Grant)
    requires GrantMove(req, d, g, h)
    ensures SameGrant(g, h) && (g.status == Consumed ==> h.status == Consumed)
  {
  }

  lemma MoveKeepsReview(req: Request, d: Digest, r: Review, q: Review)
    requires ReviewMove(req, d, r, q)
    ensures SameReview(r, q)
  {
  }

  /** Where new grants, new reviews and consumed grants come from. */
  ghost predicate Sources(db: Db, req: Request, db': Db) {
    && (forall d :: d in db'.grants && d !in db.grants ==>
          && req.Approve? && d == req.candidate.digest
          && db'.grants[d].reference == req.candidate.reference && db'.grants[d].status == Active)
    && (forall d :: d in db'.reviews && d !in db.reviews ==>
          && req.Create? && req.capability.Some? && d == req.capability.value.digest
          && db'.reviews[d].reference == req.capability.value.reference)
    && (forall d :: IsConsumed(db', d) && !IsConsumed(db, d) ==> req.Consume? && req.grant == d)
  }

  lemma NewlyConsumed(db: Db, req: Request, db': Db)
    requires forall d :: d in db.grants ==> d in db'.grants && GrantMove(req, d, db.grants[d], db'.grants[d])
    requires forall d :: d in db'.grants && d !in db.grants ==> db'.grants[d].status == Active
    ensures forall d :: IsConsumed(db', d) && !IsConsumed(db, d) ==> req.Consume? && req.grant == d
  {
  }

  lemma ExecSources(db: Db, req: Request)
    requires Valid(db)
    ensures Sources(db, req, Exec(db, req).0)
  {
    hide Valid, Exec, Insertable, Storable, PlanApprove, PlanDecline, GrantMove, SubmissionMove, ReviewMove;
    ExecMoves(db, req);
    var db' := Exec(db, req).0;
    assert forall d :: d in db'.grants && d !in db.grants ==>
      && req.Approve? && d == req.candidate.digest
      && db'.grants[d].reference == req.candidate.reference && db'.grants[d].status == Active by { NewGrants(db, req); }
    assert forall d :: d in db'.reviews && d !in db.reviews ==>
      && req.Create? && req.capability.Some? && d == req.capability.value.digest
      && db'.reviews[d].reference == req.capability.value.reference by { NewReviews(db, req); }
    NewlyConsumed(db, req, db');
  }

  lemma NewGrants(db: Db, req: Request)
    requires Valid(db)
    ensures var db' := Exec(db, req).0;
      forall d :: d in db'.grants && d !in db.grants ==>
        && req.Approve? && d == req.candidate.digest
        && db'.grants[d].reference == req.candidate.reference && db'.grants[d].status == Active
  {
    hide Valid, Exec, Insertable, Storable, PlanApprove, PlanDecline, GrantMove;
    match req
    case Approve(review, c, now, start) => ApproveCases(db, review, c, now, start);
    case Decline(review, now) => DeclineCases(db, review, now);
    case Create(form, since, capability, id, start) => CreateCases(db, form, since, capability, id, start);
    case CloseReview(r, closing, now) => CloseReviewCases(db, r, closing, now);
    case _ => GrantCases(db, req);
  }

  lemma NewReviews(db: Db, req: Request)
    requires Valid(db)
    ensures var db' := Exec(db, req).0;
      forall d :: d in db'.reviews && d !in db.reviews ==>
        && req.Create? && req.capability.Some? && d == req.capability.value.digest
        && db'.reviews[d].reference == req.capability.value.reference
  {
    hide Valid, Exec, Insertable, Storable, GrantMove;
    match req
    case Approve(review, c, now, start) => ApproveCases(db, review, c, now, start);
    case Decline(review, now) => DeclineCases(db, review, now);
    case Create(form, since, capability, id, start) => CreateCases(db, form, since, capability, id, start);
    case CloseReview(r, closing, now) => CloseReviewCases(db, r, closing, now);
    case _ => GrantCases(db, req);
  }

  /** The requests calls make name references as Put returns them. */
  predicate WellNamed(req: Request) {
    && (req.Approve? ==> req.candidate.reference == Ref(SIGNUP, req.candidate.digest))
    && (req.Create? && req.capability.Some? ==>
      req.capability.value.reference == Ref(REVIEW, req.capability.value.digest))
  }

  lemma ReferencesKept(db: Db, req: Request, db': Db)
    requires RowReferences(db) && Grows(db, db') && Sources(db, req, db') && WellNamed(req)
    ensures RowReferences(db')
  {
    hide Ref;
  }

  lemma CallsKept(sha: string -> Digest, db: Db, db': Db, calls: map<nat, Call>)
    requires CallsAgree(sha, db, calls) && Grows(db, db')
    ensures CallsAgree(sha, db', calls)
  {
    forall c | c in calls ensures CallAgrees(sha, db', calls[c]) {
      assert CallAgrees(sha, db, calls[c]);
    }
  }

  lemma SentKept(sha: string -> Digest, db: Db, db': Db, mail: seq<Mail>, notices: seq<Notice>)
    requires SentAgree(sha, db, mail, notices) && Grows(db, db')
    ensures SentAgree(sha, db', mail, notices)
  {
    forall i | 0 <= i < |mail| ensures MailAgrees(sha, db', mail[i]) { assert MailAgrees(sha, db, mail[i]); }
    forall i | 0 <= i < |notices|
      ensures NoticeAgrees(sha, db', notices[i])
    {
      assert NoticeAgrees(sha, db, notices[i]);
    }
  }

  // ---- The answers calls resume with ------------------------------------------------------------

  lemma ApproveResumes(db: Db, review: Digest, c: Candidate, now: Time, start: Time)
    requires Valid(db)
    ensures var (db', answer) := Exec(db, Approve(review, c, now, start));
      answer.ApprovedAs? ==>
        OnFile(db', answer.approval)
        && (answer.usedCandidate ==> answer.approval.digest == c.digest && answer.approval.reference == c.reference
                                     && c.digest !in db.grants)
        && (!answer.usedCandidate ==> db' == db)
  {
    hide Valid, Exec;
    ApproveSucceeds(db, review, c, now, start);
  }

  lemma ConsumeResumes(db: Db, d: Digest, email: string, claim: Digest, now: Time)
    requires Valid(db)
    ensures var (db', answer) := Exec(db, Consume(d, email, claim, now));
      answer.GrantIs? ==> IsConsumed(db', d) && answer.grant.reference == db'.grants[d].reference
  {
    hide Valid;
    GrantShape(db, d);
    ApplyOne(SetConsumed(d, now), db);
    OverlayOneRow(db);
  }

  lemma CreateResumes(db: Db, form: Form, since: Time, c: Candidate, id: Id, start: Time)
    requires Valid(db)
    ensures var (db', answer) := Exec(db, Create(form, since, Some(c), id, start));
      answer.Submitted? && answer.created ==>
        answer.id == id && Reviewable(db', c.digest, id, c.expiresAt) && id in db'.submissions && id !in db.submissions
  {
    hide Valid, Exec;
    CreateCases(db, form, since, Some(c), id, start);
  }

  // ---- Every step -------------------------------------------------------------------------------

  /** A step that changes one program counter only. */
  lemma LocalAgrees(sha: string -> Digest, w: World, c: nat, call: Call)
    requires Agrees(sha, w) && CallAgrees(sha, w.db, call) && !call.Notifying?
    ensures Agrees(sha, WithCall(w, c, call))
  {
    hide Valid, RowReferences, VaultOk, CallAgrees, SentAgree;
  }

  lemma PutAgrees(sha: string -> Digest, w: World, c: nat, scope: string, token: string, call: Call)
    requires Agrees(sha, w) && (scope == REVIEW || scope == SIGNUP) && (call.Approving? || call.Submitting?)
    ensures Agrees(sha, PutToken(sha, w, c, scope, token, call))
  {
    LocalAgrees(sha, w, c, call);
    LocalAgrees(sha, w, c, Done(Rejected(Storage)));
    hide Valid, RowReferences, CallsAgree, SentAgree, NotifiedOnce, Ref;
  }

  lemma CallAt(sha: string -> Digest, w: World, c: nat)
    requires Agrees(sha, w) && c in w.calls
    ensures CallAgrees(sha, w.db, w.calls[c])
  {
    hide Valid, RowReferences, VaultOk, SentAgree, NotifiedOnce, CallAgrees;
  }

  lemma TokenGone(sha: string -> Digest, w: World, r: Reference, ok: bool)
    requires Agrees(sha, w)
    ensures Agrees(sha, w.(vault := if ok then w.vault - {r} else w.vault, leaky := w.leaky || !ok))
  {
    hide Valid, RowReferences, CallsAgree, SentAgree, NotifiedOnce, Ref;
  }

  lemma AfterAgrees(sha: string -> Digest, db: Db, call: Call)
    requires call.Discarding? && CallAgrees(sha, db, call)
    ensures CallAgrees(sha, db, After(call.next)) && !After(call.next).Notifying?
  {
  }

  lemma DeleteAgrees(sha: string -> Digest, w: World, c: nat, ok: bool)
    requires Agrees(sha, w) && c in w.calls
    ensures Agrees(sha, StepDelete(w, c, ok))
  {
    CallAt(sha, w, c);
    match w.calls[c]
    case Discarding(scope, d, next) =>
      AfterAgrees(sha, w.db, w.calls[c]);
      hide Agrees, CallAgrees, After, Ref;
      LocalAgrees(sha, w, c, After(next));
      TokenGone(sha, WithCall(w, c, After(next)), Ref(scope, d), ok);
    case Cleaning(_, reference, g) =>
      LocalAgrees(sha, w, c, Done(ConsumedAs(g)));
      hide Agrees, CallAgrees;
      TokenGone(sha, WithCall(w, c, Done(ConsumedAs(g))), reference, ok);
    case _ =>
  }

  lemma MailSent(sha: string -> Digest, w: World, m: Mail)
    requires Agrees(sha, w) && MailAgrees(sha, w.db, m)
    ensures Agrees(sha, w.(mail := w.mail + [m]))
  {
    hide Valid, RowReferences, VaultOk, CallsAgree, NotifiedOnce, MailAgrees, NoticeAgrees;
  }

  lemma NoticeSent(sha: string -> Digest, w: World, c: nat, n: Notice)
    requires Agrees(sha, w) && c in w.calls && w.calls[c].Notifying? && w.calls[c].application == n.application
    requires NoticeAgrees(sha, w.db, n)
    ensures Agrees(sha, WithCall(w, c, Done(Accepted)).(notices := w.notices + [n]))
  {
    hide MailAgrees, NoticeAgrees, NotifiedOnce;
    LocalAgrees(sha, w, c, Done(Accepted));
    hide Valid, RowReferences, VaultOk, CallsAgree;
    NotifiedKept(w.calls, w.notices, c, n);
  }

  lemma NotifiedKept(calls: map<nat, Call>, notices: seq<Notice>, c: nat, n: Notice)
    requires NotifiedOnce(calls, notices) && c in calls && calls[c].Notifying? && calls[c].application == n.application
    ensures NotifiedOnce(calls[c := Done(Accepted)], notices + [n])
  {
  }

  /** What a call waiting to read, to compare, to send or to notify knows. */
  lemma Waiting(sha: string -> Digest, w: World, c: nat)
    requires Agrees(sha, w) && c in w.calls
    ensures w.calls[c].Reading? || w.calls[c].Verifying? ==> OnFile(w.db, w.calls[c].approval)
    ensures w.calls[c].Sending? ==>
      var a := w.calls[c].approval;
      MailAgrees(sha, w.db, Mail(a.application, a.email, w.calls[c].token, a.expiresAt))
    ensures w.calls[c].Notifying? ==>
      var call := w.calls[c]; NoticeAgrees(sha, w.db, Notice(call.application, call.token, call.expiresAt))
  {
    CallAt(sha, w, c);
    hide Agrees;
  }

  lemma SendAgrees(sha: string -> Digest, w: World, c: nat, delivered: bool, reported: bool)
    requires Agrees(sha, w) && c in w.calls
    ensures Agrees(sha, StepSend(w, c, delivered, reported))
  {
    hide Agrees, MailAgrees, NoticeAgrees, OnFile;
    Waiting(sha, w, c);
    match w.calls[c]
    case Sending(a, token) =>
      var done := Done(if reported then Delivered else DeliveryFailed);
      LocalAgrees(sha, w, c, done);
      MailSent(sha, WithCall(w, c, done), Mail(a.application, a.email, token, a.expiresAt));
    case Notifying(id, token, expiresAt) =>
      LocalAgrees(sha, w, c, Done(Accepted));
      NoticeSent(sha, w, c, Notice(id, token, expiresAt));
    case _ =>
  }

  lemma CrashAgrees(sha: string -> Digest, w: World, c: nat)
    requires Agrees(sha, w)
    ensures Agrees(sha, w.(calls := w.calls - {c}, leaky := true))
  {
    hide Valid, RowReferences, VaultOk, CallAgrees, SentAgree;
  }

  /** The database moves on under every other call. */
  lemma DatabaseAgrees(sha: string -> Digest, w: World, req: Request)
    requires Agrees(sha, w) && WellNamed(req)
    ensures Agrees(sha, w.(db := Exec(w.db, req).0))
  {
    hide Valid, RowReferences, VaultOk, CallsAgree, SentAgree, NotifiedOnce, Exec, Grows, Sources, WellNamed;
    var db' := Exec(w.db, req).0;
    ExecValid(w.db, req);
    ExecGrows(w.db, req);
    ExecSources(w.db, req);
    ReferencesKept(w.db, req, db');
    CallsKept(sha, w.db, db', w.calls);
    SentKept(sha, w.db, db', w.mail, w.notices);
  }

  lemma ResumeAgrees(sha: string -> Digest, db: Db, call: Call, now: Time, start: Time, id: Id, fate: Fate)
    requires Valid(db) && RequestOf(sha, call, now, start, id).Some?
    ensures var (db', answer) := Outcome(db, RequestOf(sha, call, now, start, id).value, fate);
      CallAgrees(sha, db', Resume(sha, call, answer))
  {
    hide Valid, Exec;
    match call
    case Approving(review, token, expiresAt) =>
      ApproveResumes(db, review, CandidateOf(sha, SIGNUP, token, expiresAt), now, start);
    case Submitting(form, since, token, expiresAt) =>
      CreateResumes(db, form, since, CandidateOf(sha, REVIEW, token, expiresAt), id, start);
    case Consuming(d, email, claim) => ConsumeResumes(db, d, email, claim, now);
    case SubmittingPlain(_, _) =>
  }

  lemma ResumeFresh(sha: string -> Digest, db: Db, call: Call, now: Time, start: Time, id: Id, fate: Fate)
    requires Valid(db) && RequestOf(sha, call, now, start, id).Some?
    ensures var (db', answer) := Outcome(db, RequestOf(sha, call, now, start, id).value, fate);
      var call' := Resume(sha, call, answer); call'.Notifying? ==> call'.application !in db.submissions
  {
    hide Valid, Exec;
    if call.Submitting? {
      CreateResumes(db, call.form, call.since, CandidateOf(sha, REVIEW, call.token, call.expiresAt), id, start);
    }
  }

  lemma NotifiedFresh(sha: string -> Digest, db: Db, calls: map<nat, Call>, mail: seq<Mail>, notices: seq<Notice>,
      c: nat, call: Call)
    requires NotifiedOnce(calls, notices) && CallsAgree(sha, db, calls) && SentAgree(sha, db, mail, notices)
    requires call.Notifying? ==> call.application !in db.submissions
    ensures NotifiedOnce(calls[c := call], notices)
  {
    forall i | 0 <= i < |notices|
      ensures notices[i].application in db.submissions
    {
      assert NoticeAgrees(sha, db, notices[i]);
    }
    forall e | e in calls && calls[e].Notifying?
      ensures calls[e].application in db.submissions
    {
      assert CallAgrees(sha, db, calls[e]);
    }
  }

  lemma TransactAgrees(sha: string -> Digest, w: World, c: nat, now: Time, start: Time, id: Id, fate: Fate)
    requires Agrees(sha, w) && c in w.calls
    ensures Agrees(sha, StepTransact(sha, w, c, now, start, id, fate))
  {
    var call := w.calls[c];
    match RequestOf(sha, call, now, start, id)
    case None =>
    case Some(req) =>
      ResumeAgrees(sha, w.db, call, now, start, id, fate);
      ResumeFresh(sha, w.db, call, now, start, id, fate);
      DatabaseAgrees(sha, w, req);
      hide Valid, Exec, CallAgrees, SentAgree, RowReferences, VaultOk;
      var call' := Resume(sha, call, Outcome(w.db, req, fate).1);
      NotifiedFresh(sha, w.db, w.calls, w.mail, w.notices, c, call');
      hide NotifiedOnce, Resume, RequestOf;
  }

  lemma ReadAgrees(sha: string -> Digest, w: World, c: nat, ok: bool)
    requires Agrees(sha, w) && c in w.calls
    ensures Agrees(sha, StepRead(w, c, ok))
  {
    hide Agrees, MailAgrees, NoticeAgrees, OnFile;
    Waiting(sha, w, c);
    match w.calls[c]
    case Reading(a) =>
      LocalAgrees(sha, w, c, Done(Unavailable));
      if a.reference in w.vault { LocalAgrees(sha, w, c, Verifying(a, w.vault[a.reference])); }
    case _ =>
  }

  lemma VerifyAgrees(sha: string -> Digest, w: World, c: nat)
    requires Agrees(sha, w) && c in w.calls
    ensures Agrees(sha, StepVerify(sha, w, c))
  {
    hide Agrees, MailAgrees, NoticeAgrees, OnFile;
    Waiting(sha, w, c);
    match w.calls[c]
    case Verifying(a, token) =>
      LocalAgrees(sha, w, c, Done(IntegrityFailed));
      if sha(token) == a.digest { LocalAgrees(sha, w, c, Sending(a, token)); }
    case _ =>
  }

  lemma StartAgrees(sha: string -> Digest, w: World, l: Label)
    requires Agrees(sha, w) && (l.StartApprove? || l.StartSubmit? || l.StartConsume?) && l.call !in w.calls
    ensures Agrees(sha, Step(sha, w, l))
  {
    hide Agrees, PutToken, ValidToken;
    match l
    case StartApprove(c, reviewToken, token, expiresAt) =>
      LocalAgrees(sha, w, c, Done(Rejected(InvalidReview)));
      PutAgrees(sha, w, c, SIGNUP, token, Approving(sha(reviewToken), token, expiresAt));
    case StartSubmit(c, form, since, token, expiresAt) =>
      LocalAgrees(sha, w, c, SubmittingPlain(form, since));
      PutAgrees(sha, w, c, REVIEW, token, Submitting(form, since, token, expiresAt));
    case StartConsume(c, grantToken, email, claim) =>
      LocalAgrees(sha, w, c, Done(Rejected(InvalidGrant)));
      LocalAgrees(sha, w, c, Consuming(sha(grantToken), email, claim));
  }

  lemma DirectAgrees(sha: string -> Digest, w: World, req: Request, fate: Fate)
    requires Agrees(sha, w) && DatabaseOnly(req)
    ensures Agrees(sha, w.(db := Outcome(w.db, req, fate).0))
  {
    hide Agrees, Exec;
    DatabaseAgrees(sha, w, req);
  }

  /** Every step of every call keeps the agreement. */
  lemma StepAgrees(sha: string -> Digest, w: World, l: Label)
    requires Agrees(sha, w)
    ensures Agrees(sha, Step(sha, w, l))
  {
    hide Agrees, PutToken, ValidToken, WithCall, StepTransact, StepDelete, StepRead, StepVerify, StepSend, Outcome,
      DatabaseOnly;
    match l
    case Transact(c, now, start, id, fate) => if c in w.calls { TransactAgrees(sha, w, c, now, start, id, fate); }
    case Direct(req, fate) => if DatabaseOnly(req) { DirectAgrees(sha, w, req, fate); }
    case Delete(c, ok) => if c in w.calls { DeleteAgrees(sha, w, c, ok); }
    case Read(c, ok) => if c in w.calls { ReadAgrees(sha, w, c, ok); }
    case Verify(c) => if c in w.calls { VerifyAgrees(sha, w, c); }
    case Send(c, delivered, reported) => if c in w.calls { SendAgrees(sha, w, c, delivered, reported); }
    case Crash(c) => CrashAgrees(sha, w, c);
    case _ => if l.call !in w.calls { StartAgrees(sha, w, l); }
  }

  lemma {:induction false} RunAgrees(sha: string -> Digest, w: World, labels: seq<Label>)
    requires Agrees(sha, w)
    ensures Agrees(sha, Run(sha, w, labels))
  {
    hide Agrees, Step;
    if labels != [] {
      RunAgrees(sha, w, labels[..|labels| - 1]);
      StepAgrees(sha, Run(sha, w, labels[..|labels| - 1]), labels[|labels| - 1]);
    }
  }

  /** A database with applications but no capabilities yet, as migration 3 leaves it. */
  ghost predicate Fresh(db: Db) {
    Valid(db) && db.reviews == map[] && db.grants == map[]
  }

  lemma InitialAgrees(sha: string -> Digest, db: Db)
    requires Fresh(db)
    ensures Agrees(sha, Initial(db))
  {
  }

  // ---- Theorems ---------------------------------------------------------------------------------

  /** Over any run, crashes, delivery failures, failed deletes and lost commits included, all
      approval messages for one application name the same recipient and expiry and carry tokens
      with the digest of its stored grant: the same token, unless the hash has a collision. */
  lemma MessagesAgree(sha: string -> Digest, db: Db, labels: seq<Label>, i: nat, j: nat)
    requires Fresh(db)
    requires var w := Run(sha, Initial(db), labels);
      i < |w.mail| && j < |w.mail| && w.mail[i].application == w.mail[j].application
    ensures var w := Run(sha, Initial(db), labels);
      && sha(w.mail[i].token) == sha(w.mail[j].token)
      && w.mail[i].recipient == w.mail[j].recipient && w.mail[i].expiresAt == w.mail[j].expiresAt
      && sha(w.mail[i].token) in w.db.grants
      && w.db.grants[sha(w.mail[i].token)].submissionId == w.mail[i].application
      && w.db.grants[sha(w.mail[i].token)].email == w.mail[i].recipient
      && ((forall s, t :: sha(s) == sha(t) ==> s == t) ==> w.mail[i].token == w.mail[j].token)
  {
    hide Run;
    InitialAgrees(sha, db);
    RunAgrees(sha, Initial(db), labels);
    var w := Run(sha, Initial(db), labels);
    hide SubmissionsOk, ReviewsOk, GrantsOk, UniqueReviews, VaultOk, RowReferences, CallsAgree, NotifiedOnce;
    assert MailAgrees(sha, w.db, w.mail[i]) && MailAgrees(sha, w.db, w.mail[j]);
  }

  /** The review team is notified of an application at most once, with the token of its review. */
  lemma OneNotice(sha: string -> Digest, db: Db, labels: seq<Label>, i: nat, j: nat)
    requires Fresh(db)
    requires var w := Run(sha, Initial(db), labels);
      i < |w.notices| && j < |w.notices| && w.notices[i].application == w.notices[j].application
    ensures var w := Run(sha, Initial(db), labels);
      i == j && sha(w.notices[i].token) in w.db.reviews
      && w.db.reviews[sha(w.notices[i].token)].submissionId == w.notices[i].application
  {
    hide Run;
    InitialAgrees(sha, db);
    RunAgrees(sha, Initial(db), labels);
    var w := Run(sha, Initial(db), labels);
    hide Valid, VaultOk, RowReferences, CallsAgree;
    assert NoticeAgrees(sha, w.db, w.notices[i]);
  }
}
