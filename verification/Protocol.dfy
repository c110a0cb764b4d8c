/** The services over two stores: every call is a sequence of steps on the protected-token store,
    the database and the mailer, interleaved with the steps of all other calls, and can be cut
    off by a crash between any two of them. A transaction is one step here, executed atomically
    (modules Interleaving and Serializability say why that is sound). */
module Protocol {
  import opened Base
  import opened Schema
  import opened Transactions
  import opened Tokens

  /** An approval message, as far as its content depends on the grant. */
  datatype Mail = Mail(application: Id, recipient: string, token: string, expiresAt: Time)

  /** A notification to the review team. */
  datatype Notice = Notice(application: Id, token: string, expiresAt: Time)

  datatype Result =
    | Rejected(error: Error)
    | Unavailable       // the token of the standing approval cannot be read
    | IntegrityFailed
    | DeliveryFailed
    | Delivered
    | Accepted          // Submit returned nil
    | ConsumedAs(grant: GrantView)

  /** What a call does after it has deleted the token it put. */
  datatype Next = Report(result: Result) | ReadBack(approval: Approval)

  /** The program counter of a call, with the variables that are live there. */
  datatype Call =
    | Approving(review: Digest, token: string, expiresAt: Time)                  // token put, transaction next
    | Discarding(scope: string, digest: Digest, next: Next)                       // delete of the call's own token next
    | Reading(approval: Approval)                                                  // read of the standing token next
    | Verifying(approval: Approval, token: string)                                 // digest comparison next
    | Sending(approval: Approval, token: string)                                   // delivery next
    | Submitting(form: Form, since: Time, token: string, expiresAt: Time)          // early access: token put
    | SubmittingPlain(form: Form, since: Time)                                     // waitlist: no token
    | Notifying(application: Id, token: string, expiresAt: Time)
    | Consuming(grant: Digest, email: string, claim: Digest)
    | Cleaning(digest: Digest, reference: Reference, view: GrantView)              // delete of the consumed token next
    | Done(result: Result)

  /** `orphaned` records that a commit put a row in charge of a token whose call, having seen an
      error, is about to delete it;
      `leaky` that a call crashed or a delete failed. Neither is part of the program. */
  datatype World = World(
    db: Db, vault: map<Reference, string>, calls: map<nat, Call>,
    mail: seq<Mail>, notices: seq<Notice>, orphaned: bool, leaky: bool)

  datatype Fate = Commits | RollsBack | CommitLost

  /** Everything the environment chooses is in the label: random bytes, clocks, faults. */
  datatype Label =
    | StartApprove(call: nat, reviewToken: string, token: string, expiresAt: Time)
    | StartSubmit(call: nat, form: Form, since: Time, token: string, expiresAt: Time)
    | StartConsume(call: nat, grantToken: string, email: string, claim: Digest)
    | Transact(call: nat, now: Time, start: Time, id: Id, fate: Fate)
    | Direct(req: Request, fate: Fate)  // Decline, Claim, Release and the operator touch the database only
    | Delete(call: nat, ok: bool)
    | Read(call: nat, ok: bool)
    | Verify(call: nat)
    | Send(call: nat, delivered: bool, reported: bool)
    | Crash(call: nat)

  function WithCall(w: World, c: nat, call: Call): World {
    w.(calls := w.calls[c := call])
  }

  /** Put: insert if absent. A refused or failed put ends the call. */
  function PutToken(sha: string -> Digest, w: World, c: nat, scope: string, token: string, call: Call): World {
    var reference := Ref(scope, sha(token));
    if token == "" || reference in w.vault then WithCall(w, c, Done(Rejected(Storage)))
    else WithCall(w, c, call).(vault := w.vault[reference := token])
  }

  function CandidateOf(sha: string -> Digest, scope: string, token: string, expiresAt: Time): Candidate {
    Candidate(sha(token), Ref(scope, sha(token)), expiresAt)
  }

  /** The transaction a call is about to run. */
  function RequestOf(sha: string -> Digest, call: Call, now: Time, start: Time, id: Id): Option<Request> {
    match call
    case Approving(review, token, expiresAt) =>
      Some(Approve(review, CandidateOf(sha, SIGNUP, token, expiresAt), now, start))
    case Submitting(form, since, token, expiresAt) =>
      Some(Create(form, since, Some(CandidateOf(sha, REVIEW, token, expiresAt)), id, start))
    case SubmittingPlain(form, since) => Some(Create(form, since, None, id, start))
    case Consuming(d, email, claim) => Some(Consume(d, email, claim, now))
    case _ => None
  }

  /** Where a call continues once its transaction has answered. */
  function Resume(sha: string -> Digest, call: Call, answer: Answer): Call {
    match call
    case Approving(_, token, _) =>
      (match answer
       case ApprovedAs(a, used) =>
         if used then Verifying(a, token) else Discarding(SIGNUP, sha(token), ReadBack(a))
       case Failed(e) => Discarding(SIGNUP, sha(token), Report(Rejected(e)))
       case _ => Discarding(SIGNUP, sha(token), Report(Rejected(Storage))))
    case Submitting(_, _, token, expiresAt) =>
      (match answer
       case Submitted(id, created) =>
         if created then Notifying(id, token, expiresAt) else Discarding(REVIEW, sha(token), Report(Accepted))
       case Failed(e) => Discarding(REVIEW, sha(token), Report(Rejected(e)))
       case _ => Discarding(REVIEW, sha(token), Report(Rejected(Storage))))
    case Consuming(d, _, _) =>
      (match answer
       case GrantIs(g) => Cleaning(d, g.reference, g)
       case Failed(e) => Done(Rejected(e))
       case _ => Done(Rejected(Storage)))
    case _ => Done(if answer.Failed? then Rejected(answer.error) else Accepted)
  }

  ghost function Outcome(db: Db, req: Request, fate: Fate): (Db, Answer) {
    match fate
    case Commits => Exec(db, req)
    case RollsBack => (db, Failed(Storage))
    case CommitLost => (Exec(db, req).0, Failed(Storage))
  }

  predicate DatabaseOnly(req: Request) {
    req.Decline? || req.Claim? || req.Release? || req.CloseGrant? || req.CloseReview?
  }

  /** A new row names the token of a call that was told of an error and will delete it. */
  predicate Orphans(call: Call, before: Db, after: Db, fate: Fate) {
    fate == CommitLost && after != before && (call.Approving? || call.Submitting?)
  }

  /** A grant is consumed, and the call that should delete its token was told of an error. */
  predicate Forgets(call: Call, before: Db, after: Db, fate: Fate) {
    fate == CommitLost && after != before && call.Consuming?
  }

  /** The database moves on, and what a lost commit did is noted. */
  function Recorded(w: World, call: Call, db: Db, fate: Fate): World {
    w.(db := db,
       orphaned := w.orphaned || Orphans(call, w.db, db, fate), leaky := w.leaky || Forgets(call, w.db, db, fate))
  }

  ghost function StepTransact(sha: string -> Digest, w: World, c: nat, now: Time, start: Time, id: Id,
      fate: Fate): World
    requires c in w.calls
  {
    match RequestOf(sha, w.calls[c], now, start, id)
    case None => w
    case Some(req) =>
      var (db', answer) := Outcome(w.db, req, fate);
      Recorded(WithCall(w, c, Resume(sha, w.calls[c], answer)), w.calls[c], db', fate)
  }

  /** Where a call continues once it has deleted its own token. */
  function After(next: Next): Call {
    match next
    case Report(result) => Done(result)
    case ReadBack(a) => Reading(a)
  }

  /** A delete that fails leaves the token and is ignored. */
  function StepDelete(w: World, c: nat, ok: bool): World
    requires c in w.calls
  {
    match w.calls[c]
    case Discarding(scope, d, next) =>
      WithCall(w, c, After(next)).(vault := if ok then w.vault - {Ref(scope, d)} else w.vault, leaky := w.leaky || !ok)
    case Cleaning(_, reference, g) =>
      WithCall(w, c, Done(ConsumedAs(g))).(
        vault := if ok then w.vault - {reference} else w.vault, leaky := w.leaky || !ok)
    case _ => w
  }

  function StepRead(w: World, c: nat, ok: bool): World
    requires c in w.calls
  {
    match w.calls[c]
    case Reading(a) =>
      if ok && a.reference in w.vault then WithCall(w, c, Verifying(a, w.vault[a.reference]))
      else WithCall(w, c, Done(Unavailable))
    case _ => w
  }

  function StepVerify(sha: string -> Digest, w: World, c: nat): World
    requires c in w.calls
  {
    match w.calls[c]
    case Verifying(a, token) =>
      WithCall(w, c, if sha(token) == a.digest then Sending(a, token) else Done(IntegrityFailed))
    case _ => w
  }

  /** The sender may report an error for a message that was in fact delivered. */
  function StepSend(w: World, c: nat, delivered: bool, reported: bool): World
    requires c in w.calls
  {
    match w.calls[c]
    case Sending(a, token) =>
      WithCall(w, c, Done(if reported then Delivered else DeliveryFailed)).(
        mail := if delivered || reported then w.mail + [Mail(a.application, a.email, token, a.expiresAt)] else w.mail)
    case Notifying(id, token, expiresAt) =>
      WithCall(w, c, Done(Accepted)).(
        notices := if delivered || reported then w.notices + [Notice(id, token, expiresAt)] else w.notices)
    case _ => w
  }

  /** One step of one call, or of the environment. A label that is not enabled changes nothing. */
  ghost function Step(sha: string -> Digest, w: World, l: Label): World {
    match l
    case StartApprove(c, reviewToken, token, expiresAt) =>
      if c in w.calls then w
      else if !ValidToken(reviewToken) then WithCall(w, c, Done(Rejected(InvalidReview)))
      else PutToken(sha, w, c, SIGNUP, token, Approving(sha(reviewToken), token, expiresAt))
    case StartSubmit(c, form, since, token, expiresAt) =>
      if c in w.calls then w
      else if form.kind == Waitlist then WithCall(w, c, SubmittingPlain(form, since))
      else PutToken(sha, w, c, REVIEW, token, Submitting(form, since, token, expiresAt))
    case StartConsume(c, grantToken, email, claim) =>
      if c in w.calls then w
      else if !ValidToken(grantToken) then WithCall(w, c, Done(Rejected(InvalidGrant)))
      else WithCall(w, c, Consuming(sha(grantToken), email, claim))
    case Transact(c, now, start, id, fate) => if c in w.calls then StepTransact(sha, w, c, now, start, id, fate) else w
    case Direct(req, fate) => if DatabaseOnly(req) then w.(db := Outcome(w.db, req, fate).0) else w
    case Delete(c, ok) => if c in w.calls then StepDelete(w, c, ok) else w
    case Read(c, ok) => if c in w.calls then StepRead(w, c, ok) else w
    case Verify(c) => if c in w.calls then StepVerify(sha, w, c) else w
    case Send(c, delivered, reported) => if c in w.calls then StepSend(w, c, delivered, reported) else w
    case Crash(c) => if c in w.calls then w.(calls := w.calls - {c}, leaky := true) else w
  }

  ghost function Run(sha: string -> Digest, w: World, labels: seq<Label>): World {
    if labels == [] then w else Step(sha, Run(sha, w, labels[..|labels| - 1]), labels[|labels| - 1])
  }

  lemma RunMore(sha: string -> Digest, w: World, labels: seq<Label>, l: Label)
    ensures Run(sha, w, labels + [l]) == Step(sha, Run(sha, w, labels), l)
  {
    hide Step;
    assert (labels + [l])[..|labels|] == labels;
  }

  lemma RunOne(sha: string -> Digest, w: World, l: Label)
    ensures Run(sha, w, [l]) == Step(sha, w, l)
  {
    assert [l][..0] == [];
    assert Run(sha, w, []) == w;
    hide Step;
  }

  lemma RunTwo(sha: string -> Digest, w: World, l: Label, m: Label)
    ensures Run(sha, w, [l, m]) == Step(sha, Step(sha, w, l), m)
  {
    assert [l] + [m] == [l, m];
    RunOne(sha, w, l);
    RunMore(sha, w, [l], m);
    hide Step;
  }

  lemma {:induction false} RunAppend(sha: string -> Digest, w: World, a: seq<Label>, b: seq<Label>)
    ensures Run(sha, w, a + b) == Run(sha, Run(sha, w, a), b)
  {
    hide Step;
    if b == [] {
      assert a + b == a;
    } else {
      assert (a + b)[..|a + b| - 1] == a + b[..|b| - 1];
      RunAppend(sha, w, a, b[..|b| - 1]);
    }
  }

  /** Whatever the calls in flight do, any other transaction can run beside them, and nothing but the
      rows changes. The three requests that calls make are not run this way. */
  lemma DirectRuns(sha: string -> Digest, w: World, req: Request)
    ensures Run(sha, w, [Direct(req, Commits)]) ==
      if req.Approve? || req.Create? || req.Consume? then w else w.(db := Exec(w.db, req).0)
    ensures Run(sha, w, [Direct(req, RollsBack)]) == w
  {
    RunOne(sha, w, Direct(req, Commits));
    RunOne(sha, w, Direct(req, RollsBack));
    hide Run, Exec;
  }

  function Initial(db: Db): World {
    World(db, map[], map[], [], [], false, false)
  }
}
