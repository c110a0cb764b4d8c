/** What follows once the token of a standing grant is gone, or an application was stored without
    its call learning of it: no message is sent any more, whoever calls and whatever fails. */
module Aftermath {
  import opened Base
  import opened Schema
  import opened Transactions
  import opened Lifecycle
  import opened Decisions
  import opened Tokens
  import opened Protocol
  import opened Messages
  import opened Coherence

  /** The grant stands, its token is gone, and no call is about to send it. */
  ghost predicate Lost(sha: string -> Digest, w: World, d: Digest) {
    && d in w.db.grants && Ref(SIGNUP, d) !in w.vault
    && forall c :: c in w.calls && (w.calls[c].Verifying? || w.calls[c].Sending?) ==> w.calls[c].approval.digest != d
  }

  /** No later call draws a token with this digest. */
  predicate Draws(sha: string -> Digest, l: Label, d: Digest) {
    l.StartApprove? && sha(l.token) == d
  }

  // ---- Once lost, never sent --------------------------------------------------------------------

  lemma LostPut(sha: string -> Digest, w: World, c: nat, scope: string, token: string, call: Call, d: Digest)
    requires Lost(sha, w, d) && (call.Approving? || call.Submitting?)
    requires (scope == SIGNUP && sha(token) != d) || scope == REVIEW
    ensures Lost(sha, PutToken(sha, w, c, scope, token, call), d)
  {
    assert REVIEW[0] != SIGNUP[0];
    OtherReference(scope, sha(token), SIGNUP, d);
    hide Ref;
  }

  lemma LostLocal(sha: string -> Digest, w: World, w': World, c: nat, d: Digest)
    requires Lost(sha, w, d) && w'.db == w.db && w'.vault.Keys <= w.vault.Keys && c in w'.calls
    requires w'.calls == w.calls[c := w'.calls[c]]
    requires w'.calls[c].Verifying? || w'.calls[c].Sending? ==> w'.calls[c].approval.digest != d
    ensures Lost(sha, w', d)
  {
    hide Ref;
  }

  lemma LostDatabase(sha: string -> Digest, w: World, db: Db, d: Digest)
    requires Lost(sha, w, d) && Grows(w.db, db)
    ensures Lost(sha, w.(db := db), d)
  {
    hide Ref;
  }

  lemma LostTransact(sha: string -> Digest, w: World, c: nat, now: Time, start: Time, id: Id, fate: Fate, d: Digest)
    requires Valid(w.db) && Lost(sha, w, d) && c in w.calls
    ensures Lost(sha, StepTransact(sha, w, c, now, start, id, fate), d)
  {
    var call := w.calls[c];
    hide Valid, Exec, Ref, Grows, Lost;
    match RequestOf(sha, call, now, start, id)
    case None =>
    case Some(req) =>
      var w' := StepTransact(sha, w, c, now, start, id, fate);
      if call.Approving? { ApproveResumes(w.db, call.review, req.candidate, now, start); }
      LostDigest(sha, w, d);
      hide RequestOf;
      Resumption(sha, call, Outcome(w.db, req, fate).1);
      hide Resume;
      OutcomeGrows(w.db, req, fate);
      LostDatabase(sha, w, w'.db, d);
      LostLocal(sha, w.(db := w'.db), w', c, d);
  }

  lemma LostDigest(sha: string -> Digest, w: World, d: Digest)
    requires Lost(sha, w, d)
    ensures d in w.db.grants
  {
  }

  lemma Resumption(sha: string -> Digest, call: Call, answer: Answer)
    ensures var call' := Resume(sha, call, answer);
      && !call'.Sending?
      && (call'.Verifying? ==>
            call.Approving? && answer.ApprovedAs? && answer.usedCandidate && call'.approval == answer.approval)
  {
  }

  lemma OutcomeGrows(db: Db, req: Request, fate: Fate)
    requires Valid(db)
    ensures Grows(db, Outcome(db, req, fate).0)
  {
    hide Valid, Exec, Grows;
    ExecGrows(db, req);
    Grew(db);
  }

  lemma LostStart(sha: string -> Digest, w: World, l: Label, d: Digest)
    requires Lost(sha, w, d) && !Draws(sha, l, d)
    requires (l.StartApprove? || l.StartSubmit? || l.StartConsume?) && l.call !in w.calls
    ensures Lost(sha, Step(sha, w, l), d)
  {
    hide Lost, PutToken, ValidToken;
    match l
    case StartApprove(c, reviewToken, token, expiresAt) =>
      LostLocal(sha, w, WithCall(w, c, Done(Rejected(InvalidReview))), c, d);
      LostPut(sha, w, c, SIGNUP, token, Approving(sha(reviewToken), token, expiresAt), d);
    case StartSubmit(c, form, since, token, expiresAt) =>
      LostLocal(sha, w, WithCall(w, c, SubmittingPlain(form, since)), c, d);
      LostPut(sha, w, c, REVIEW, token, Submitting(form, since, token, expiresAt), d);
    case StartConsume(c, grantToken, email, claim) =>
      LostLocal(sha, w, WithCall(w, c, Done(Rejected(InvalidGrant))), c, d);
      LostLocal(sha, w, WithCall(w, c, Consuming(sha(grantToken), email, claim)), c, d);
  }

  lemma LostDelete(sha: string -> Digest, w: World, c: nat, ok: bool, d: Digest)
    requires Lost(sha, w, d) && c in w.calls
    ensures Lost(sha, StepDelete(w, c, ok), d)
  {
    hide Lost, Ref;
    if w.calls[c].Discarding? || w.calls[c].Cleaning? { LostLocal(sha, w, StepDelete(w, c, ok), c, d); }
  }

  lemma LostGone(sha: string -> Digest, w: World, d: Digest)
    requires Lost(sha, w, d)
    ensures Ref(SIGNUP, d) !in w.vault
  {
  }

  /** A call that reads the token back finds nothing. */
  lemma LostRead(sha: string -> Digest, w: World, c: nat, ok: bool, d: Digest)
    requires Agrees(sha, w) && Lost(sha, w, d) && c in w.calls
    ensures Lost(sha, StepRead(w, c, ok), d)
    ensures w.calls[c].Reading? && w.calls[c].approval.digest == d ==>
      StepRead(w, c, ok) == WithCall(w, c, Done(Unavailable))
  {
    hide Agrees, Ref, Lost;
    if w.calls[c].Reading? {
      ReadingNames(sha, w, c);
      LostGone(sha, w, d);
      LostLocal(sha, w, StepRead(w, c, ok), c, d);
    }
  }

  lemma LostVerify(sha: string -> Digest, w: World, c: nat, d: Digest)
    requires Lost(sha, w, d) && c in w.calls
    ensures Lost(sha, StepVerify(sha, w, c), d)
  {
    hide Ref;
  }

  ghost predicate NotSent(w: World, d: Digest, from: nat) {
    && d in w.db.grants && from <= |w.mail|
    && forall i :: from <= i < |w.mail| ==> w.mail[i].application != w.db.grants[d].submissionId
  }

  lemma LostSend(sha: string -> Digest, w: World, c: nat, delivered: bool, reported: bool, d: Digest)
    requires Lost(sha, w, d) && c in w.calls
    ensures Lost(sha, StepSend(w, c, delivered, reported), d)
  {
    hide Lost;
    if w.calls[c].Sending? || w.calls[c].Notifying? { LostLocal(sha, w, StepSend(w, c, delivered, reported), c, d); }
  }

  lemma SentElsewhere(sha: string -> Digest, w: World, c: nat, delivered: bool, reported: bool, d: Digest, from: nat)
    requires Agrees(sha, w) && Lost(sha, w, d) && NotSent(w, d, from) && c in w.calls
    ensures NotSent(StepSend(w, c, delivered, reported), d, from)
  {
    hide Agrees, Lost;
    if w.calls[c].Sending? { OtherApplication(sha, w, c, d); }
  }

  lemma OtherApplication(sha: string -> Digest, w: World, c: nat, d: Digest)
    requires Agrees(sha, w) && Lost(sha, w, d) && c in w.calls && w.calls[c].Sending?
    ensures w.calls[c].approval.application != w.db.grants[d].submissionId
  {
    CallAt(sha, w, c);
    hide RowReferences, VaultOk, CallsAgree, SentAgree, NotifiedOnce, SubmissionsOk, ReviewsOk, GrantsOk,
      UniqueReviews, Ref;
  }

  lemma SameMail(w: World, w': World, d: Digest, from: nat)
    requires NotSent(w, d, from) && w'.mail == w.mail && Grows(w.db, w'.db)
    ensures NotSent(w', d, from)
  {
  }

  lemma Grew(db: Db)
    ensures Grows(db, db)
  {
  }

  lemma StepLost(sha: string -> Digest, w: World, l: Label, d: Digest, from: nat)
    requires Agrees(sha, w) && Lost(sha, w, d) && NotSent(w, d, from) && !Draws(sha, l, d)
    ensures Lost(sha, Step(sha, w, l), d) && NotSent(Step(sha, w, l), d, from)
  {
    StepStaysLost(sha, w, l, d);
    hide Agrees, Lost, NotSent, Grows, StepSend;
    if l.Send? {
      if l.call in w.calls { SentElsewhere(sha, w, l.call, l.delivered, l.reported, d, from); }
    } else {
      StepGrows(sha, w, l);
      hide Step;
      SameMail(w, Step(sha, w, l), d, from);
    }
  }

  lemma LostReply(sha: string -> Digest, w: World, l: Label, d: Digest)
    requires Agrees(sha, w) && Lost(sha, w, d) && (l.Delete? || l.Read? || l.Verify? || l.Send?) && l.call in w.calls
    ensures Lost(sha, Step(sha, w, l), d)
  {
    hide Agrees, Lost, WithCall, StepDelete, StepRead, StepVerify, StepSend;
    match l
    case Delete(c, ok) => LostDelete(sha, w, c, ok, d);
    case Read(c, ok) => LostRead(sha, w, c, ok, d);
    case Verify(c) => LostVerify(sha, w, c, d);
    case Send(c, delivered, reported) => LostSend(sha, w, c, delivered, reported, d);
  }

  lemma LostDirect(sha: string -> Digest, w: World, req: Request, fate: Fate, d: Digest)
    requires Agrees(sha, w) && Lost(sha, w, d)
    ensures Lost(sha, w.(db := Outcome(w.db, req, fate).0), d)
  {
    ValidIn(sha, w);
    hide Agrees, Valid, Lost, Outcome, Grows;
    OutcomeGrows(w.db, req, fate);
    LostDatabase(sha, w, Outcome(w.db, req, fate).0, d);
  }

  lemma StepStaysLost(sha: string -> Digest, w: World, l: Label, d: Digest)
    requires Agrees(sha, w) && Lost(sha, w, d) && !Draws(sha, l, d)
    ensures Lost(sha, Step(sha, w, l), d)
  {
    hide Agrees, Valid, Lost, PutToken, ValidToken, WithCall, StepTransact, StepDelete, StepRead, StepVerify,
      StepSend, Outcome, DatabaseOnly, Draws;
    ValidIn(sha, w);
    match l
    case Transact(c, now, start, id, fate) => if c in w.calls { LostTransact(sha, w, c, now, start, id, fate, d); }
    case Direct(req, fate) => LostDirect(sha, w, req, fate, d);
    case Crash(c) => LostCrash(sha, w, c, d);
    case Delete(c, _) => if c in w.calls { LostReply(sha, w, l, d); }
    case Read(c, _) => if c in w.calls { LostReply(sha, w, l, d); }
    case Verify(c) => if c in w.calls { LostReply(sha, w, l, d); }
    case Send(c, _, _) => if c in w.calls { LostReply(sha, w, l, d); }
    case _ => if l.call !in w.calls { LostStart(sha, w, l, d); }
  }

  lemma LostCrash(sha: string -> Digest, w: World, c: nat, d: Digest)
    requires Lost(sha, w, d)
    ensures Lost(sha, w.(calls := w.calls - {c}, leaky := true), d)
  {
    hide Ref;
  }

  predicate SameRows(w: World, w': World) {
    w'.db == w.db && w'.mail == w.mail
  }

  lemma ReplyKeepsRows(sha: string -> Digest, w: World, c: nat, ok: bool)
    requires c in w.calls
    ensures SameRows(w, StepDelete(w, c, ok)) && SameRows(w, StepRead(w, c, ok)) && SameRows(w, StepVerify(sha, w, c))
  {
    hide Ref, After;
  }

  lemma PutKeepsRows(sha: string -> Digest, w: World, c: nat, scope: string, token: string, call: Call)
    ensures SameRows(w, PutToken(sha, w, c, scope, token, call))
  {
    hide Ref;
  }

  lemma StepKeepsRows(sha: string -> Digest, w: World, l: Label)
    requires !l.Send? && !l.Transact? && !l.Direct?
    ensures SameRows(w, Step(sha, w, l))
  {
    hide PutToken, ValidToken, StepDelete, StepRead, StepVerify;
    match l
    case Delete(c, ok) => if c in w.calls { ReplyKeepsRows(sha, w, c, ok); }
    case Read(c, ok) => if c in w.calls { ReplyKeepsRows(sha, w, c, ok); }
    case Verify(c) => if c in w.calls { ReplyKeepsRows(sha, w, c, true); }
    case StartApprove(c, r, token, expiresAt) =>
      PutKeepsRows(sha, w, c, SIGNUP, token, Approving(sha(r), token, expiresAt));
    case StartSubmit(c, form, since, token, expiresAt) =>
      PutKeepsRows(sha, w, c, REVIEW, token, Submitting(form, since, token, expiresAt));
    case _ =>
  }

  lemma StepGrows(sha: string -> Digest, w: World, l: Label)
    requires Agrees(sha, w) && !l.Send?
    ensures Grows(w.db, Step(sha, w, l).db) && Step(sha, w, l).mail == w.mail
  {
    ValidIn(sha, w);
    Grew(w.db);
    hide Agrees, Valid, Grows, Resume, RequestOf, PutToken, StepDelete, StepRead, StepVerify, StepSend, ValidToken,
      Outcome, DatabaseOnly;
    match l
    case Transact(c, now, start, id, fate) =>
      if c in w.calls && RequestOf(sha, w.calls[c], now, start, id).Some? {
        OutcomeGrows(w.db, RequestOf(sha, w.calls[c], now, start, id).value, fate);
      }
    case Direct(req, fate) => OutcomeGrows(w.db, req, fate);
    case _ => StepKeepsRows(sha, w, l);
  }

  // ---- Every later call through the review ------------------------------------------------------

  /** Where a call through the review of a lost approval can be. */
  predicate Doomed(call: Call, review: Digest, d: Digest) {
    match call
    case Approving(r, _, _) => r == review
    case Discarding(_, _, Report(result)) => result.Rejected?
    case Discarding(_, _, ReadBack(a)) => a.digest == d
    case Reading(a) => a.digest == d
    case Done(result) => result.Rejected? || result.Unavailable?
    case _ => false
  }

  predicate ReviewOf(db: Db, review: Digest, d: Digest) {
    review in db.reviews && d in db.grants && db.reviews[review].submissionId == db.grants[d].submissionId
  }

  lemma OneGrant(db: Db, review: Digest, a: Approval, d: Digest)
    requires Valid(db) && StandsApproved(db, review, a) && ReviewOf(db, review, d)
    ensures a.digest == d
  {
    hide SubmissionsOk, ReviewsOk, GrantsOk, UniqueReviews;
  }

  lemma ReviewStays(db: Db, db': Db, review: Digest, d: Digest)
    requires ReviewOf(db, review, d) && Grows(db, db')
    ensures ReviewOf(db', review, d)
  {
  }

  /** A standing approval is never granted afresh: its one grant is reported. */
  lemma Replayed(db: Db, review: Digest, d: Digest, c: Candidate, now: Time, start: Time)
    requires Valid(db) && ReviewOf(db, review, d)
    ensures var answer := Exec(db, Approve(review, c, now, start)).1;
      answer.ApprovedAs? ==> !answer.usedCandidate && answer.approval.digest == d
  {
    hide Valid, Exec, Grows, StandsApproved;
    var req := Approve(review, c, now, start);
    var (db', answer) := Exec(db, req);
    ApproveSucceeds(db, review, c, now, start);
    ExecGrows(db, req);
    ExecValid(db, req);
    ReviewStays(db, db', review, d);
    if answer.ApprovedAs? { OneGrant(db', review, answer.approval, d); }
  }

  lemma DoomedTransact(sha: string -> Digest, w: World, c: nat, review: Digest, d: Digest, now: Time, start: Time,
      id: Id, fate: Fate)
    requires Valid(w.db) && ReviewOf(w.db, review, d) && c in w.calls && Doomed(w.calls[c], review, d)
    ensures var w' := StepTransact(sha, w, c, now, start, id, fate); c in w'.calls && Doomed(w'.calls[c], review, d)
  {
    hide Valid, Exec, Ref, ReviewOf;
    if w.calls[c].Approving? {
      var req := RequestOf(sha, w.calls[c], now, start, id).value;
      Replayed(w.db, review, d, req.candidate, now, start);
    }
  }

  /** Starting and running call `c` only through this review. */
  predicate Through(sha: string -> Digest, l: Label, c: nat, review: Digest) {
    && (l.StartApprove? && l.call == c ==> sha(l.reviewToken) == review)
    && (l.StartSubmit? || l.StartConsume? ==> l.call != c)
  }

  lemma DoomedStep(sha: string -> Digest, w: World, l: Label, c: nat, review: Digest, d: Digest)
    requires Agrees(sha, w) && Lost(sha, w, d) && ReviewOf(w.db, review, d) && Through(sha, l, c, review)
    requires c in w.calls ==> Doomed(w.calls[c], review, d)
    ensures var w' := Step(sha, w, l); c in w'.calls ==> Doomed(w'.calls[c], review, d)
  {
    ValidIn(sha, w);
    if l.Transact? {
      hide Agrees, Valid, Lost, StepTransact, ReviewOf, Doomed;
      if l.call in w.calls {
        if l.call == c { DoomedTransact(sha, w, c, review, d, l.now, l.start, l.id, l.fate); }
        else { OtherCall(sha, w, l, c); }
      }
    } else if l.Read? {
      DoomedRead(sha, w, l, c, review, d);
    } else {
      DoomedElse(sha, w, l, c, review, d);
    }
  }

  lemma OtherCall(sha: string -> Digest, w: World, l: Label, c: nat)
    requires l.Transact? && l.call != c && l.call in w.calls
    ensures var w' := StepTransact(sha, w, l.call, l.now, l.start, l.id, l.fate);
      (c in w'.calls <==> c in w.calls) && (c in w.calls ==> w'.calls[c] == w.calls[c])
  {
    hide Outcome, Resume, RequestOf;
  }

  predicate SameCall(w: World, w': World, c: nat) {
    (c in w'.calls <==> c in w.calls) && (c in w.calls ==> w'.calls[c] == w.calls[c])
  }

  lemma OthersRead(sha: string -> Digest, w: World, e: nat, ok: bool, c: nat)
    requires e in w.calls && e != c
    ensures SameCall(w, StepRead(w, e, ok), c) && SameCall(w, StepVerify(sha, w, e), c)
  {
  }

  lemma OthersSend(w: World, e: nat, ok: bool, delivered: bool, reported: bool, c: nat)
    requires e in w.calls && e != c
    ensures SameCall(w, StepDelete(w, e, ok), c) && SameCall(w, StepSend(w, e, delivered, reported), c)
  {
    hide Ref, After;
  }

  lemma OthersReply(sha: string -> Digest, w: World, l: Label, c: nat)
    requires (l.Read? || l.Verify? || l.Send? || l.Delete?) && l.call != c
    ensures SameCall(w, Step(sha, w, l), c)
  {
    hide StepRead, StepVerify, StepSend, StepDelete;
    if l.call in w.calls {
      match l
      case Read(e, ok) => OthersRead(sha, w, e, ok, c);
      case Verify(e) => OthersRead(sha, w, e, true, c);
      case Send(e, delivered, reported) => OthersSend(w, e, true, delivered, reported, c);
      case Delete(e, ok) => OthersSend(w, e, ok, true, true, c);
    }
  }

  lemma DoomedRead(sha: string -> Digest, w: World, l: Label, c: nat, review: Digest, d: Digest)
    requires Agrees(sha, w) && Lost(sha, w, d) && l.Read?
    requires c in w.calls ==> Doomed(w.calls[c], review, d)
    ensures var w' := Step(sha, w, l); c in w'.calls ==> Doomed(w'.calls[c], review, d)
  {
    hide Step, Agrees, Lost, Doomed;
    if l.call != c {
      OthersReply(sha, w, l, c);
    } else {
      DoomedOwnRead(sha, w, c, l.ok, review, d);
    }
  }

  lemma DoomedOwnRead(sha: string -> Digest, w: World, c: nat, ok: bool, review: Digest, d: Digest)
    requires Agrees(sha, w) && Lost(sha, w, d)
    requires c in w.calls ==> Doomed(w.calls[c], review, d)
    ensures var w' := Step(sha, w, Read(c, ok)); c in w'.calls ==> Doomed(w'.calls[c], review, d)
  {
    hide Agrees, Lost, StepRead;
    if c in w.calls {
      LostRead(sha, w, c, ok, d);
      if !w.calls[c].Reading? { NothingToRead(w, c, ok); }
    }
  }

  lemma NothingToRead(w: World, c: nat, ok: bool)
    requires c in w.calls && !w.calls[c].Reading?
    ensures StepRead(w, c, ok) == w
  {
  }

  lemma DoomedReply(sha: string -> Digest, w: World, l: Label, c: nat, review: Digest, d: Digest)
    requires l.Verify? || l.Send? || l.Delete?
    requires c in w.calls ==> Doomed(w.calls[c], review, d)
    ensures var w' := Step(sha, w, l); c in w'.calls ==> Doomed(w'.calls[c], review, d)
  {
    if l.call != c {
      hide Step, Agrees, Lost, Doomed;
      OthersReply(sha, w, l, c);
    } else if c in w.calls {
      hide Ref;
    }
  }

  lemma DoomedElse(sha: string -> Digest, w: World, l: Label, c: nat, review: Digest, d: Digest)
    requires Through(sha, l, c, review) && !l.Read? && !l.Transact?
    requires c in w.calls ==> Doomed(w.calls[c], review, d)
    ensures var w' := Step(sha, w, l); c in w'.calls ==> Doomed(w'.calls[c], review, d)
  {
    if l.Verify? || l.Send? || l.Delete? {
      hide *;
      DoomedReply(sha, w, l, c, review, d);
    } else {
      hide Ref, ValidToken, Outcome, StepVerify, StepSend, StepDelete;
    }
  }

  ghost predicate Stranded(sha: string -> Digest, w: World, d: Digest, review: Digest, c: nat, from: nat) {
    && Agrees(sha, w) && Lost(sha, w, d) && NotSent(w, d, from) && ReviewOf(w.db, review, d)
    && (c in w.calls ==> Doomed(w.calls[c], review, d))
  }

  lemma SendKeepsRows(w: World, c: nat, delivered: bool, reported: bool)
    requires c in w.calls
    ensures StepSend(w, c, delivered, reported).db == w.db
  {
  }

  lemma StrandedStep(sha: string -> Digest, w: World, l: Label, d: Digest, review: Digest, c: nat, from: nat)
    requires Stranded(sha, w, d, review, c, from) && !Draws(sha, l, d) && Through(sha, l, c, review)
    ensures Stranded(sha, Step(sha, w, l), d, review, c, from)
  {
    hide Agrees, Lost, NotSent, Doomed, Grows, ReviewOf, Draws, Through, StepSend;
    StepAgrees(sha, w, l);
    StepLost(sha, w, l, d, from);
    DoomedStep(sha, w, l, c, review, d);
    if l.Send? {
      if l.call in w.calls { SendKeepsRows(w, l.call, l.delivered, l.reported); }
    } else {
      StepGrows(sha, w, l);
      hide Step;
      ReviewStays(w.db, Step(sha, w, l).db, review, d);
    }
  }

  /** From any world where a standing approval has lost its token, however it did: along every
      run that draws no token with its digest again, no message is sent for the application,
      and every call started through its review ends, if it ends, with an error, or with the
      report that the approved token is unavailable. */
  lemma {:induction false} LostIsUnavailable(
    sha: string -> Digest, w: World, labels: seq<Label>, d: Digest, review: Digest, c: nat)
    requires Agrees(sha, w) && Lost(sha, w, d) && ReviewOf(w.db, review, d) && c !in w.calls
    requires forall i :: 0 <= i < |labels| ==> !Draws(sha, labels[i], d) && Through(sha, labels[i], c, review)
    ensures Stranded(sha, Run(sha, w, labels), d, review, c, |w.mail|)
  {
    hide Agrees, Lost, Step, Draws, Through, ReviewOf;
    if labels == [] {
      LostDigest(sha, w, d);
    } else {
      hide Stranded;
      LostIsUnavailable(sha, w, labels[..|labels| - 1], d, review, c);
      StrandedStep(sha, Run(sha, w, labels[..|labels| - 1]), labels[|labels| - 1], d, review, c, |w.mail|);
    }
  }

  /** A retry after the loss, run to its end: the approval is on record, and so the call reports
      that its token is unavailable, exactly when the review is decided and not yet expired. */
  lemma RetryReportsUnavailable(sha: string -> Digest, w: World, c: nat, now: Time, start: Time, id: Id, ok: bool,
      read: bool, d: Digest, review: Digest)
    requires Agrees(sha, w) && Lost(sha, w, d) && ReviewOf(w.db, review, d)
    requires c in w.calls && w.calls[c].Approving? && w.calls[c].review == review
    ensures var w' := Run(sha, w, [Transact(c, now, start, id, Commits), Delete(c, ok), Read(c, read)]);
      var r := w.db.reviews[review];
      && w'.db == w.db && w'.mail == w.mail && c in w'.calls
      && w'.calls[c] == Done(
           if Replays(r, now) then Unavailable
           else Rejected(if now >= r.expiresAt then ReviewClosed else InvalidReview))
  {
    hide Agrees, Lost, ReviewOf, Run, Step;
    var first, second, third := Transact(c, now, start, id, Commits), Delete(c, ok), Read(c, read);
    RunTwo(sha, w, first, second);
    RunMore(sha, w, [first, second], third);
    assert [first, second] + [third] == [first, second, third];
    RetryTransacts(sha, w, c, now, start, id, d, review);
    GrantOnRecord(sha, w, review, d);
    RetryDeletes(sha, Step(sha, w, first), c, ok);
    RetryReads(sha, Step(sha, Step(sha, w, first), second), c, read);
  }

  predicate Replays(r: Review, now: Time) {
    now < r.expiresAt && r.status == Decided
  }

  lemma RetryTransacts(sha: string -> Digest, w: World, c: nat, now: Time, start: Time, id: Id, d: Digest,
      review: Digest)
    requires Agrees(sha, w) && Lost(sha, w, d) && ReviewOf(w.db, review, d)
    requires c in w.calls && w.calls[c].Approving? && w.calls[c].review == review
    ensures w.db.grants[d].submissionId in w.db.submissions && review in w.db.reviews
    ensures var r := w.db.reviews[review];
      Step(sha, w, Transact(c, now, start, id, Commits)) == WithCall(w, c, Discarding(SIGNUP, sha(w.calls[c].token),
        if Replays(r, now) then ReadBack(ApprovalFrom(w.db, w.db.grants[d].submissionId, d))
        else Report(Rejected(if now >= r.expiresAt then ReviewClosed else InvalidReview))))
  {
    var call := w.calls[c];
    ValidIn(sha, w);
    GrantOnRecord(sha, w, review, d);
    hide Agrees, Valid, Lost, ReviewOf, StandsApproved, Ref, Replays, Resume, Step;
    var a := ApprovalFrom(w.db, w.db.grants[d].submissionId, d);
    ApprovedReplays(w.db, review, a, CandidateOf(sha, SIGNUP, call.token, call.expiresAt), now, start);
    ApproveCommits(sha, w, c, now, start, id);
    hide Exec, StandsApproved;
    ResumeReplayed(sha, call, a, now, w.db.reviews[review]);
  }

  lemma ApproveCommits(sha: string -> Digest, w: World, c: nat, now: Time, start: Time, id: Id)
    requires c in w.calls && w.calls[c].Approving?
    ensures var call := w.calls[c];
      var k := CandidateOf(sha, SIGNUP, call.token, call.expiresAt);
      var (db, answer) := Exec(w.db, Approve(call.review, k, now, start));
      Step(sha, w, Transact(c, now, start, id, Commits)) == WithCall(w, c, Resume(sha, call, answer)).(db := db)
  {
    hide Exec, Resume, CandidateOf;
  }

  lemma ResumeReplayed(sha: string -> Digest, call: Call, a: Approval, now: Time, r: Review)
    requires call.Approving?
    ensures Resume(sha, call, if now < r.expiresAt && r.status == Decided then ApprovedAs(a, false)
                              else Failed(if now >= r.expiresAt then ReviewClosed else InvalidReview))
         == Discarding(SIGNUP, sha(call.token),
              if Replays(r, now) then ReadBack(a)
              else Report(Rejected(if now >= r.expiresAt then ReviewClosed else InvalidReview)))
  {
  }

  lemma RetryDeletes(sha: string -> Digest, w: World, c: nat, ok: bool)
    requires c in w.calls && w.calls[c].Discarding?
    ensures var w' := Step(sha, w, Delete(c, ok));
      && c in w'.calls && w'.calls[c] == After(w.calls[c].next)
      && w'.db == w.db && w'.mail == w.mail && w'.vault.Keys <= w.vault.Keys
  {
    hide Ref;
  }

  lemma RetryReads(sha: string -> Digest, w: World, c: nat, read: bool)
    requires c in w.calls && (w.calls[c].Reading? ==> w.calls[c].approval.reference !in w.vault)
    ensures var w' := Step(sha, w, Read(c, read));
      && c in w'.calls && w'.db == w.db && w'.mail == w.mail
      && w'.calls[c] == if w.calls[c].Reading? then Done(Unavailable) else w.calls[c]
  {
  }

  lemma GrantOnRecord(sha: string -> Digest, w: World, review: Digest, d: Digest)
    requires Agrees(sha, w) && Lost(sha, w, d) && ReviewOf(w.db, review, d)
    ensures w.db.grants[d].submissionId in w.db.submissions
    ensures var a := ApprovalFrom(w.db, w.db.grants[d].submissionId, d);
      StandsApproved(w.db, review, a) && a.digest == d && a.reference !in w.vault
  {
    hide VaultOk, CallsAgree, SentAgree, NotifiedOnce, SubmissionsOk, ReviewsOk, UniqueReviews, UniqueGrants, Ref;
  }

  // ---- An application nobody was told of --------------------------------------------------------

  /** The application is stored, and no notice of it is on its way or has been sent since. */
  ghost predicate Silent(w: World, id: Id, from: nat) {
    && id in w.db.submissions && from <= |w.notices|
    && (forall i :: from <= i < |w.notices| ==> w.notices[i].application != id)
    && (forall c :: c in w.calls && w.calls[c].Notifying? ==> w.calls[c].application != id)
  }

  lemma SilentTransact(sha: string -> Digest, w: World, c: nat, now: Time, start: Time, id: Id, fate: Fate,
      application: Id, from: nat)
    requires Valid(w.db) && Silent(w, application, from) && c in w.calls
    ensures Silent(StepTransact(sha, w, c, now, start, id, fate), application, from)
  {
    hide Valid, Resume, RequestOf, Exec;
    if RequestOf(sha, w.calls[c], now, start, id).Some? {
      ResumeFresh(sha, w.db, w.calls[c], now, start, id, fate);
      OutcomeGrows(w.db, RequestOf(sha, w.calls[c], now, start, id).value, fate);
    }
  }

  /** A step of one call that neither announces anything nor is about to. */
  lemma SilentLocal(w: World, c: nat, w': World, application: Id, from: nat)
    requires Silent(w, application, from) && c in w'.calls && w'.calls == w.calls[c := w'.calls[c]]
    requires !w'.calls[c].Notifying? && w'.db == w.db && w'.notices == w.notices
    ensures Silent(w', application, from)
  {
  }

  lemma SilentPut(sha: string -> Digest, w: World, c: nat, scope: string, token: string, call: Call, id: Id, from: nat)
    requires Silent(w, id, from) && !call.Notifying?
    ensures Silent(PutToken(sha, w, c, scope, token, call), id, from)
  {
    hide Silent, Ref;
    SilentLocal(w, c, PutToken(sha, w, c, scope, token, call), id, from);
  }

  lemma SilentReply(sha: string -> Digest, w: World, c: nat, ok: bool, id: Id, from: nat)
    requires Silent(w, id, from) && c in w.calls
    ensures Silent(StepRead(w, c, ok), id, from) && Silent(StepVerify(sha, w, c), id, from)
    ensures Silent(StepDelete(w, c, ok), id, from)
  {
    hide Silent, Ref;
    match w.calls[c]
    case Reading(_) => SilentLocal(w, c, StepRead(w, c, ok), id, from);
    case Verifying(_, _) => SilentLocal(w, c, StepVerify(sha, w, c), id, from);
    case Discarding(_, _, _) => SilentLocal(w, c, StepDelete(w, c, ok), id, from);
    case Cleaning(_, _, _) => SilentLocal(w, c, StepDelete(w, c, ok), id, from);
    case _ =>
  }

  lemma SilentSend(w: World, c: nat, delivered: bool, reported: bool, id: Id, from: nat)
    requires Silent(w, id, from) && c in w.calls
    ensures Silent(StepSend(w, c, delivered, reported), id, from)
  {
  }

  lemma SilentStart(sha: string -> Digest, w: World, l: Label, id: Id, from: nat)
    requires Silent(w, id, from) && (l.StartApprove? || l.StartSubmit? || l.StartConsume?) && l.call !in w.calls
    ensures Silent(Step(sha, w, l), id, from)
  {
    hide Silent, PutToken, ValidToken;
    match l
    case StartApprove(c, r, token, expiresAt) =>
      SilentLocal(w, c, WithCall(w, c, Done(Rejected(InvalidReview))), id, from);
      SilentPut(sha, w, c, SIGNUP, token, Approving(sha(r), token, expiresAt), id, from);
    case StartSubmit(c, form, since, token, expiresAt) =>
      SilentLocal(w, c, WithCall(w, c, SubmittingPlain(form, since)), id, from);
      SilentPut(sha, w, c, REVIEW, token, Submitting(form, since, token, expiresAt), id, from);
    case StartConsume(c, token, email, claim) =>
      SilentLocal(w, c, WithCall(w, c, Done(Rejected(InvalidGrant))), id, from);
      SilentLocal(w, c, WithCall(w, c, Consuming(sha(token), email, claim)), id, from);
  }

  lemma SilentDirect(w: World, req: Request, fate: Fate, id: Id, from: nat)
    requires Valid(w.db) && Silent(w, id, from)
    ensures Silent(w.(db := Outcome(w.db, req, fate).0), id, from)
  {
    OutcomeGrows(w.db, req, fate);
    hide Valid, Outcome;
  }

  lemma SilentCrash(w: World, c: nat, id: Id, from: nat)
    requires Silent(w, id, from)
    ensures Silent(w.(calls := w.calls - {c}, leaky := true), id, from)
  {
  }

  lemma SilentStep(sha: string -> Digest, w: World, l: Label, id: Id, from: nat)
    requires Valid(w.db) && Silent(w, id, from)
    ensures Silent(Step(sha, w, l), id, from)
  {
    hide Valid, Silent, PutToken, ValidToken, WithCall, StepTransact, StepDelete, StepRead, StepVerify, StepSend,
      Outcome, DatabaseOnly;
    match l
    case Transact(c, now, start, tx, fate) =>
      if c in w.calls { SilentTransact(sha, w, c, now, start, tx, fate, id, from); }
    case Direct(req, fate) => SilentDirect(w, req, fate, id, from);
    case Delete(c, ok) => if c in w.calls { SilentReply(sha, w, c, ok, id, from); }
    case Read(c, ok) => if c in w.calls { SilentReply(sha, w, c, ok, id, from); }
    case Verify(c) => if c in w.calls { SilentReply(sha, w, c, true, id, from); }
    case Send(c, delivered, reported) => if c in w.calls { SilentSend(w, c, delivered, reported, id, from); }
    case Crash(c) => SilentCrash(w, c, id, from);
    case _ => if l.call !in w.calls { SilentStart(sha, w, l, id, from); }
  }

  /** An application stored without a notice on its way is never announced, in any run. */
  lemma {:induction false} NeverAnnounced(sha: string -> Digest, w: World, labels: seq<Label>, id: Id, from: nat)
    requires Agrees(sha, w) && Silent(w, id, from)
    ensures Silent(Run(sha, w, labels), id, from)
  {
    hide Agrees, Valid, Silent, Step;
    if labels != [] {
      var before := labels[..|labels| - 1];
      NeverAnnounced(sha, w, before, id, from);
      RunAgrees(sha, w, before);
      ValidIn(sha, Run(sha, w, before));
      SilentStep(sha, Run(sha, w, before), labels[|labels| - 1], id, from);
    }
  }
}
