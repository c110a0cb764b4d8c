/** A commit that takes effect although its client sees an error: exactly which such losses break
    store coherence, and that they can happen. Approve and Submit both delete their own token on
    any repository error, so a loss that inserted the row naming that token leaves it dangling. */
module LostCommits {
  import opened Base
  import opened Schema
  import opened Transactions
  import opened Lifecycle
  import opened Tokens
  import opened Protocol
  import opened Messages
  import opened Coherence
  import opened Quiescence
  import opened Aftermath
  import Store

  // ---- A lost approval --------------------------------------------------------------------------

  /** A live grant names a token that is not there. */
  ghost predicate Dangling(sha: string -> Digest, w: World, d: Digest) {
    && Lost(sha, w, d) && w.db.grants[d].status == Active && w.db.grants[d].reference == Ref(SIGNUP, d)
    && !Coherent(w.db, w.vault)
  }

  function ApproveRequest(sha: string -> Digest, call: Call, now: Time, start: Time): Request
    requires call.Approving?
  {
    Approve(call.review, CandidateOf(sha, SIGNUP, call.token, call.expiresAt), now, start)
  }

  /** The approval would succeed with its own candidate. */
  ghost predicate WouldUse(sha: string -> Digest, db: Db, call: Call, now: Time, start: Time)
    requires call.Approving?
  {
    var answer := Exec(db, ApproveRequest(sha, call, now, start)).1;
    answer.ApprovedAs? && answer.usedCandidate
  }

  /** What a lost commit leads to, from any world: whenever an approval that uses its candidate
      commits but reports an error and its cleanup succeeds, the grant dangles. */
  lemma LostCommitDangles(sha: string -> Digest, w: World, c: nat, now: Time, start: Time, id: Id)
    requires Agrees(sha, w) && c in w.calls && w.calls[c].Approving? && WouldUse(sha, w.db, w.calls[c], now, start)
    ensures var w' := Run(sha, w, [Transact(c, now, start, id, CommitLost), Delete(c, true)]);
      && Dangling(sha, w', sha(w.calls[c].token)) && w'.orphaned
      && c in w'.calls && w'.calls[c] == Done(Rejected(Storage))
  {
    RunTwo(sha, w, Transact(c, now, start, id, CommitLost), Delete(c, true));
    ValidIn(sha, w);
    UsedGrant(sha, w.db, w.calls[c], now, start);
    NobodySends(sha, w, sha(w.calls[c].token));
    hide *;
    CommitIsLost(sha, w, c, now, start, id);
    var w1 := Step(sha, w, Transact(c, now, start, id, CommitLost));
    Dangles(sha, w1, c);
  }

  lemma CommitIsLost(sha: string -> Digest, w: World, c: nat, now: Time, start: Time, id: Id)
    requires c in w.calls && w.calls[c].Approving?
    ensures var w1 := Step(sha, w, Transact(c, now, start, id, CommitLost));
      && c in w1.calls && w1.calls == w.calls[c := w1.calls[c]]
      && (w1.db != w.db ==> w1.orphaned)
      && w1.calls[c] == Discarding(SIGNUP, sha(w.calls[c].token), Report(Rejected(Storage)))
      && w1.db == Exec(w.db, ApproveRequest(sha, w.calls[c], now, start)).0
  {
    hide Exec, Ref;
  }

  lemma UsedGrant(sha: string -> Digest, db: Db, call: Call, now: Time, start: Time)
    requires Valid(db) && call.Approving? && WouldUse(sha, db, call, now, start)
    ensures var d := sha(call.token);
      var db' := Exec(db, ApproveRequest(sha, call, now, start)).0;
      && d !in db.grants && d in db'.grants
      && db'.grants[d].status == Active && db'.grants[d].reference == Ref(SIGNUP, d)
  {
    var req := ApproveRequest(sha, call, now, start);
    hide Valid, Exec, Ref;
    ApproveResumes(db, call.review, req.candidate, now, start);
    NewGrants(db, req);
  }

  lemma Dangles(sha: string -> Digest, w: World, c: nat)
    requires c in w.calls && w.calls[c].Discarding? && w.calls[c].scope == SIGNUP && w.calls[c].next.Report?
    requires var d := w.calls[c].digest;
      && d in w.db.grants && w.db.grants[d].status == Active && w.db.grants[d].reference == Ref(SIGNUP, d)
      && forall e :: e in w.calls && (w.calls[e].Verifying? || w.calls[e].Sending?) ==> w.calls[e].approval.digest != d
    ensures var w' := Step(sha, w, Delete(c, true));
      && Dangling(sha, w', w.calls[c].digest) && w'.orphaned == w.orphaned
      && c in w'.calls && w'.calls[c] == Done(w.calls[c].next.result)
  {
    hide Ref;
    assert !IsConsumed(w.db, w.calls[c].digest);
  }

  lemma NobodySends(sha: string -> Digest, w: World, d: Digest)
    requires Agrees(sha, w) && d !in w.db.grants
    ensures forall c :: c in w.calls && (w.calls[c].Verifying? || w.calls[c].Sending?) ==>
      w.calls[c].approval.digest != d
  {
    hide Agrees;
    forall c | c in w.calls && (w.calls[c].Verifying? || w.calls[c].Sending?) ensures w.calls[c].approval.digest != d {
      CallAt(sha, w, c);
    }
  }

  // ---- A lost submission ------------------------------------------------------------------------

  /** A review waits for a decision, its token is gone, and nobody will be told of it. */
  ghost predicate Unreachable(w: World, d: Digest) {
    && d in w.db.reviews && w.db.reviews[d].status == Open && w.db.reviews[d].reference == Ref(REVIEW, d)
    && Ref(REVIEW, d) !in w.vault && !Coherent(w.db, w.vault)
    && Silent(w, w.db.reviews[d].submissionId, |w.notices|)
  }

  function CreateRequest(sha: string -> Digest, call: Call, start: Time, id: Id): Request
    requires call.Submitting?
  {
    Create(call.form, call.since, Some(CandidateOf(sha, REVIEW, call.token, call.expiresAt)), id, start)
  }

  /** The application and its review would be stored. */
  ghost predicate WouldStore(sha: string -> Digest, db: Db, call: Call, start: Time, id: Id)
    requires call.Submitting?
  {
    var answer := Exec(db, CreateRequest(sha, call, start, id)).1;
    answer.Submitted? && answer.created
  }

  /** From any world: whenever a submission that stores its review commits but reports an error
      and its cleanup succeeds, the review dangles, and its application has not been announced. */
  lemma LostSubmitDangles(sha: string -> Digest, w: World, c: nat, now: Time, start: Time, id: Id)
    requires Agrees(sha, w) && c in w.calls && w.calls[c].Submitting? && WouldStore(sha, w.db, w.calls[c], start, id)
    ensures var w' := Run(sha, w, [Transact(c, now, start, id, CommitLost), Delete(c, true)]);
      var d := sha(w.calls[c].token);
      && Unreachable(w', d) && w'.db.reviews[d].submissionId == id && id !in w.db.submissions
      && w'.orphaned && w'.notices == w.notices
      && c in w'.calls && w'.calls[c] == Done(Rejected(Storage))
  {
    RunTwo(sha, w, Transact(c, now, start, id, CommitLost), Delete(c, true));
    ValidIn(sha, w);
    StoredReview(sha, w.db, w.calls[c], start, id);
    NobodyNotifies(sha, w, id);
    hide Agrees, Valid, Exec, Run, WouldStore, Unreachable, Silent;
    SubmitIsLost(sha, w, c, now, start, id);
    hide Step;
    var w1 := Step(sha, w, Transact(c, now, start, id, CommitLost));
    NobodyStillNotifies(w, c, w1, id);
    SubmitDangles(sha, w1, c);
  }

  lemma StoredReview(sha: string -> Digest, db: Db, call: Call, start: Time, id: Id)
    requires Valid(db) && call.Submitting? && WouldStore(sha, db, call, start, id)
    ensures var d := sha(call.token); var db' := Exec(db, CreateRequest(sha, call, start, id)).0;
      && db' != db && id !in db.submissions && id in db'.submissions && d in db'.reviews
      && db'.reviews[d].status == Open && db'.reviews[d].reference == Ref(REVIEW, d)
      && db'.reviews[d].submissionId == id
  {
    var req := CreateRequest(sha, call, start, id);
    hide Valid, Exec, Ref;
    CreateCases(db, call.form, call.since, req.capability, id, start);
  }

  lemma SubmitIsLost(sha: string -> Digest, w: World, c: nat, now: Time, start: Time, id: Id)
    requires c in w.calls && w.calls[c].Submitting?
    ensures var w1 := Step(sha, w, Transact(c, now, start, id, CommitLost));
      && c in w1.calls && w1.calls == w.calls[c := w1.calls[c]] && w1.notices == w.notices
      && w1.calls[c] == Discarding(REVIEW, sha(w.calls[c].token), Report(Rejected(Storage)))
      && w1.db == Exec(w.db, CreateRequest(sha, w.calls[c], start, id)).0
      && (w1.db != w.db ==> w1.orphaned)
  {
    hide Exec, Ref;
  }

  ghost predicate NoneNotifies(calls: map<nat, Call>, id: Id) {
    forall e :: e in calls && calls[e].Notifying? ==> calls[e].application != id
  }

  lemma NobodyNotifies(sha: string -> Digest, w: World, id: Id)
    requires Agrees(sha, w) && id !in w.db.submissions
    ensures NoneNotifies(w.calls, id)
  {
    hide Agrees;
    forall e | e in w.calls && w.calls[e].Notifying? ensures w.calls[e].application != id { CallAt(sha, w, e); }
  }

  lemma NobodyStillNotifies(w: World, c: nat, w1: World, id: Id)
    requires NoneNotifies(w.calls, id) && c in w1.calls && w1.calls == w.calls[c := w1.calls[c]]
    requires !w1.calls[c].Notifying?
    ensures NoneNotifies(w1.calls, id)
  {
  }

  lemma SubmitDangles(sha: string -> Digest, w: World, c: nat)
    requires c in w.calls && w.calls[c].Discarding? && w.calls[c].scope == REVIEW && w.calls[c].next.Report?
    requires var d := w.calls[c].digest;
      && d in w.db.reviews && w.db.reviews[d].status == Open && w.db.reviews[d].reference == Ref(REVIEW, d)
      && w.db.reviews[d].submissionId in w.db.submissions && NoneNotifies(w.calls, w.db.reviews[d].submissionId)
    ensures var w' := Step(sha, w, Delete(c, true));
      && Unreachable(w', w.calls[c].digest) && w'.orphaned == w.orphaned && w'.db == w.db && w'.notices == w.notices
      && c in w'.calls && w'.calls[c] == Done(w.calls[c].next.result)
  {
    hide Ref;
  }

  /** And it never will be announced: however the run goes on, no notice names the application. */
  lemma LostSubmitIsNeverAnnounced(
    sha: string -> Digest, w: World, c: nat, now: Time, start: Time, id: Id, labels: seq<Label>)
    requires Agrees(sha, w) && c in w.calls && w.calls[c].Submitting? && WouldStore(sha, w.db, w.calls[c], start, id)
    ensures var w' := Run(sha, w, [Transact(c, now, start, id, CommitLost), Delete(c, true)] + labels);
      Silent(w', id, |w.notices|)
  {
    hide Agrees, WouldStore, Run;
    var lose := [Transact(c, now, start, id, CommitLost), Delete(c, true)];
    LostSubmitDangles(sha, w, c, now, start, id);
    RunAgrees(sha, w, lose);
    NeverAnnounced(sha, Run(sha, w, lose), labels, id, |w.notices|);
    RunAppend(sha, w, lose, labels);
  }

  // ---- Exactly which losses break coherence -----------------------------------------------------

  lemma ChangedIsUsed(sha: string -> Digest, w: World, l: Label)
    requires Valid(w.db) && Harmful(sha, w, l)
    ensures w.calls[l.call].Approving? ==> WouldUse(sha, w.db, w.calls[l.call], l.now, l.start)
    ensures w.calls[l.call].Submitting? ==> WouldStore(sha, w.db, w.calls[l.call], l.start, l.id)
  {
    hide Valid, Exec, Resume, Ref;
    var call := w.calls[l.call];
    if call.Approving? {
      var req := ApproveRequest(sha, call, l.now, l.start);
      ApproveQuiet(w.db, req.review, req.candidate, l.now, l.start);
    } else {
      var req := CreateRequest(sha, call, l.start, l.id);
      CreateQuiet(w.db, req.form, req.since, req.capability, l.id, l.start);
    }
  }

  lemma HarmBreaks(sha: string -> Digest, w: World, l: Label)
    requires Agrees(sha, w) && Harmful(sha, w, l)
    ensures var w' := Run(sha, w, [l, Delete(l.call, true)]); !Coherent(w'.db, w'.vault)
  {
    ValidIn(sha, w);
    ChangedIsUsed(sha, w, l);
    HarmIsLoss(sha, w, l);
    hide Agrees, Valid, Run, WouldUse, WouldStore, Harmful, Coherent, Lost, Silent;
    if w.calls[l.call].Approving? { LostCommitDangles(sha, w, l.call, l.now, l.start, l.id); }
    else { LostSubmitDangles(sha, w, l.call, l.now, l.start, l.id); }
  }

  lemma HarmIsLoss(sha: string -> Digest, w: World, l: Label)
    requires Harmful(sha, w, l)
    ensures l == Transact(l.call, l.now, l.start, l.id, CommitLost) && l.call in w.calls
    ensures w.calls[l.call].Approving? || w.calls[l.call].Submitting?
  {
    hide StepTransact;
  }

  lemma HarmlessKeeps(sha: string -> Digest, w: World, l: Label, c: nat)
    requires Agrees(sha, w) && Sound(sha, w) && !Harmful(sha, w, l)
    ensures var w' := Run(sha, w, [l, Delete(c, true)]); Coherent(w'.db, w'.vault)
  {
    RunTwo(sha, w, l, Delete(c, true));
    hide Agrees, Run, Step, CallsSound, Exclusive, MailSound, Coherent, Harmful;
    StepAgrees(sha, w, l);
    StepSound(sha, w, l);
    DeleteHarmless(sha, Step(sha, w, l), c);
    StepSound(sha, Step(sha, w, l), Delete(c, true));
  }

  lemma DeleteHarmless(sha: string -> Digest, w: World, c: nat)
    ensures !Harmful(sha, w, Delete(c, true))
  {
  }

  /** What the transaction finds before it: a review that can still be decided and a candidate
      whose grant can be inserted, or an empty window and a submission that no constraint rejects. */
  predicate WouldInsert(sha: string -> Digest, db: Db, call: Call, now: Time, start: Time, id: Id) {
    match call
    case Approving(review, token, expiresAt) =>
      && Store.Resolvable(db, review, now) && now < expiresAt
      && var application := db.reviews[review].submissionId;
         var k := CandidateOf(sha, SIGNUP, token, expiresAt);
         Insertable(db, k.digest, NewGrant(application, db.submissions[application].form.email, k, start))
    case Submitting(form, since, token, expiresAt) =>
      && form.kind == EarlyAccess && Recent(db, form.fingerprint, since) == map[]
      && Storable(db, form, Some(CandidateOf(sha, REVIEW, token, expiresAt)), id, start)
    case _ => false
  }

  lemma NotBlank(scope: string, d: Digest)
    requires scope == REVIEW || scope == SIGNUP
    ensures !Blank(Ref(scope, d).text)
  {
    assert Ref(scope, d).text[0] == scope[0];
    assert REVIEW[0] != ' ' && SIGNUP[0] != ' ';
  }

  lemma ApprovalInserts(sha: string -> Digest, db: Db, call: Call, now: Time, start: Time)
    requires Valid(db) && call.Approving?
    ensures Exec(db, ApproveRequest(sha, call, now, start)).0 != db <==> WouldInsert(sha, db, call, now, start, 0)
  {
    var k := CandidateOf(sha, SIGNUP, call.token, call.expiresAt);
    Store.ApproveExec(db, call.review, k, now, start);
    NotBlank(SIGNUP, k.digest);
    hide Valid, Exec, Ref, ApprovalOf;
    if PlanApprove(db, call.review, k, now, start).Write? {
      assert AfterApprove(db, call.review, k, now, start).reviews[call.review].status != db.reviews[call.review].status;
    }
  }

  lemma SubmissionInserts(sha: string -> Digest, db: Db, call: Call, start: Time, id: Id)
    requires Valid(db) && call.Submitting?
    ensures Exec(db, CreateRequest(sha, call, start, id)).0 != db <==> WouldInsert(sha, db, call, 0, start, id)
  {
    var k := CandidateOf(sha, REVIEW, call.token, call.expiresAt);
    Store.CreateExec(db, call.form, call.since, Some(k), id, start);
    hide Valid, Exec, Ref, SubmissionCheck, ReviewCheck;
    assert id in AfterCreate(db, call.form, Some(k), id, start).submissions;
  }

  /** A loss is harmful iff the transaction found these conditions. */
  lemma HarmIsGuarded(sha: string -> Digest, w: World, l: Label)
    requires Valid(w.db) && l.Transact? && l.call in w.calls
    ensures Harmful(sha, w, l) <==>
      l.fate == CommitLost && WouldInsert(sha, w.db, w.calls[l.call], l.now, l.start, l.id)
  {
    var call := w.calls[l.call];
    hide Valid, Exec, Ref, Resume, Insertable, Storable, Store.Resolvable;
    if call.Approving? { ApprovalInserts(sha, w.db, call, l.now, l.start); }
    if call.Submitting? { SubmissionInserts(sha, w.db, call, l.start, l.id); }
  }

  /** Exactness, step by step: a transaction of a call, with whatever fate, followed by the call's
      successful cleanup leaves the stores coherent iff its commit was not lost or it had found
      nothing to insert. */
  lemma LossIsExact(sha: string -> Digest, w: World, c: nat, now: Time, start: Time, id: Id, fate: Fate)
    requires Agrees(sha, w) && Sound(sha, w) && c in w.calls
    ensures var l := Transact(c, now, start, id, fate); var w' := Run(sha, w, [l, Delete(c, true)]);
      Coherent(w'.db, w'.vault) <==> !(fate == CommitLost && WouldInsert(sha, w.db, w.calls[c], now, start, id))
  {
    ValidIn(sha, w);
    hide Agrees, Sound, Run, Coherent, Harmful, Valid, WouldInsert;
    var l := Transact(c, now, start, id, fate);
    HarmIsGuarded(sha, w, l);
    if Harmful(sha, w, l) { HarmBreaks(sha, w, l); } else { HarmlessKeeps(sha, w, l, c); }
  }

  /** After the first i steps of a run, a successful cleanup by call c leaves no live row dangling. */
  ghost predicate Spares(sha: string -> Digest, db: Db, labels: seq<Label>, i: nat, c: nat)
    requires i <= |labels|
  {
    var w := Run(sha, Initial(db), labels[..i] + [Delete(c, true)]); Coherent(w.db, w.vault)
  }

  lemma {:induction false} OrphanedStays(sha: string -> Digest, w: World, labels: seq<Label>, i: nat)
    requires i <= |labels| && Run(sha, w, labels[..i]).orphaned
    ensures Run(sha, w, labels).orphaned
    decreases |labels| - i
  {
    hide Step, Harmful;
    if i == |labels| {
      assert labels[..i] == labels;
    } else {
      FlagsTell(sha, Run(sha, w, labels[..i]), labels[i]);
      assert labels[..i + 1][..i] == labels[..i];
      OrphanedStays(sha, w, labels, i + 1);
    }
  }

  lemma {:induction false} FirstHarm(sha: string -> Digest, w: World, labels: seq<Label>) returns (i: nat)
    requires !w.orphaned && Run(sha, w, labels).orphaned
    ensures i < |labels| && !Run(sha, w, labels[..i]).orphaned && Harmful(sha, Run(sha, w, labels[..i]), labels[i])
  {
    hide Step, Harmful;
    var n := |labels|;
    assert n > 0;
    if Run(sha, w, labels[..n - 1]).orphaned {
      i := FirstHarm(sha, w, labels[..n - 1]);
      assert labels[..n - 1][..i] == labels[..i] && labels[..n - 1][i] == labels[i];
    } else {
      i := n - 1;
      FlagsTell(sha, Run(sha, w, labels[..n - 1]), labels[n - 1]);
    }
  }

  lemma HarmShows(sha: string -> Digest, db: Db, labels: seq<Label>) returns (i: nat, c: nat)
    requires Fresh(db) && Run(sha, Initial(db), labels).orphaned
    ensures i <= |labels| && !Spares(sha, db, labels, i, c)
  {
    hide Run, Harmful, Coherent, Agrees, Valid;
    var k := FirstHarm(sha, Initial(db), labels);
    var w := Run(sha, Initial(db), labels[..k]);
    HarmIsLoss(sha, w, labels[k]);
    InitialAgrees(sha, db);
    RunAgrees(sha, Initial(db), labels[..k]);
    HarmBreaks(sha, w, labels[k]);
    i, c := k + 1, labels[k].call;
    assert labels[..i] + [Delete(c, true)] == labels[..k] + [labels[k], Delete(c, true)];
    RunAppend(sha, Initial(db), labels[..k], [labels[k], Delete(c, true)]);
  }

  lemma HarmlessSpares(sha: string -> Digest, db: Db, labels: seq<Label>, i: nat, c: nat)
    requires Fresh(db) && !Run(sha, Initial(db), labels).orphaned && i <= |labels|
    ensures Spares(sha, db, labels, i, c)
  {
    if Run(sha, Initial(db), labels[..i]).orphaned { OrphanedStays(sha, Initial(db), labels, i); }
    RunMore(sha, Initial(db), labels[..i], Delete(c, true));
    DeleteKeepsRows(sha, Run(sha, Initial(db), labels[..i]), c);
    hide Run, Step, Agrees, Coherent, Accounted;
    InitialSafe(sha, db);
    RunSafe(sha, Initial(db), labels[..i] + [Delete(c, true)]);
  }

  /** Exactness over whole runs: at every moment of a run every cleanup spares the tokens of live
      rows iff no step of the run harmfully loses a commit. */
  lemma CoherentIff(sha: string -> Digest, db: Db, labels: seq<Label>)
    requires Fresh(db)
    ensures (forall i: nat, c: nat :: i <= |labels| ==> Spares(sha, db, labels, i, c))
      <==> !Run(sha, Initial(db), labels).orphaned
  {
    hide Run, Spares, Valid;
    if Run(sha, Initial(db), labels).orphaned {
      var i, c := HarmShows(sha, db, labels);
    } else {
      forall i: nat, c: nat | i <= |labels|
        ensures Spares(sha, db, labels, i, c)
      {
        HarmlessSpares(sha, db, labels, i, c);
      }
    }
  }

  // ---- Both losses can happen -------------------------------------------------------------------

  /** The first application ever submitted, stored with its review. */
  lemma FirstSubmission(sha: string -> Digest, form: Form, token: string)
    requires IsDigest(sha) && form.kind == EarlyAccess && SubmissionCheck(NewSubmission(form, 0)) && token != ""
    ensures var w := Run(sha, Initial(EMPTY), [StartSubmit(0, form, -1, token, 100), Transact(0, 0, 0, 0, Commits)]);
      && w.db == AfterCreate(EMPTY, form, Some(CandidateOf(sha, REVIEW, token, 100)), 0, 0)
      && w.vault == map[Ref(REVIEW, sha(token)) := token] && w.calls.Keys == {0}
  {
    hide Exec, Run, Storable, SubmissionCheck, Ref;
    RunTwo(sha, Initial(EMPTY), StartSubmit(0, form, -1, token, 100), Transact(0, 0, 0, 0, Commits));
    FirstCreate(form, CandidateOf(sha, REVIEW, token, 100));
  }

  lemma FirstCreate(form: Form, c: Candidate)
    requires form.kind == EarlyAccess && SubmissionCheck(NewSubmission(form, 0))
    requires |c.digest.bytes| == DIGEST_LENGTH && c.reference == Ref(REVIEW, c.digest) && c.expiresAt == 100
    ensures Exec(EMPTY, Create(form, -1, Some(c), 0, 0))
      == (AfterCreate(EMPTY, form, Some(c), 0, 0), Submitted(0, true))
  {
    NotBlank(REVIEW, c.digest);
    EmptyIsFresh();
    Store.CreateExec(EMPTY, form, -1, Some(c), 0, 0);
    hide Exec, SubmissionCheck, Ref, Valid;
    assert Recent(EMPTY, form.fingerprint, -1) == map[];
  }

  lemma FirstApproval(sha: string -> Digest, db: Db, form: Form, k: Candidate, call: Call)
    requires IsDigest(sha) && form.kind == EarlyAccess && SubmissionCheck(NewSubmission(form, 0))
    requires Valid(db) && db == AfterCreate(EMPTY, form, Some(k), 0, 0) && k.expiresAt == 100
    requires call.Approving? && call.review == k.digest && call.expiresAt == 100
    ensures WouldUse(sha, db, call, 0, 0)
  {
    var c := CandidateOf(sha, SIGNUP, call.token, 100);
    NotBlank(SIGNUP, c.digest);
    Store.ApproveExec(db, call.review, c, 0, 0);
    assert Insertable(db, c.digest, NewGrant(0, form.email, c, 0));
    hide Valid, Exec, Insertable, Ref;
    assert c.reference.text != "" by { NotBlank(SIGNUP, c.digest); }
  }

  /** The loss is reachable: for every application and any two tokens, an empty database and four
      more steps of two calls are enough. */
  lemma LostCommitReachable(sha: string -> Digest, form: Form, review: string, token: string)
    returns (labels: seq<Label>)
    requires IsDigest(sha) && form.kind == EarlyAccess && SubmissionCheck(NewSubmission(form, 0))
    requires ValidToken(review) && review != "" && token != ""
    ensures Dangling(sha, Run(sha, Initial(EMPTY), labels), sha(token))
  {
    hide ValidToken, Ref, Run, Exec, Dangling, WouldUse, SubmissionCheck, Valid, Agrees;
    var submit := [StartSubmit(0, form, -1, review, 100), Transact(0, 0, 0, 0, Commits)];
    var approve := StartApprove(1, review, token, 100);
    var lose := [Transact(1, 0, 0, 0, CommitLost), Delete(1, true)];
    FirstSubmission(sha, form, review);
    EmptyIsFresh();
    InitialAgrees(sha, EMPTY);
    RunAgrees(sha, Initial(EMPTY), submit + [approve]);
    var w := Run(sha, Initial(EMPTY), submit);
    RunMore(sha, Initial(EMPTY), submit, approve);
    assert REVIEW[0] != SIGNUP[0];
    OtherReference(REVIEW, sha(review), SIGNUP, sha(token));
    var w1 := Step(sha, w, approve);
    ValidIn(sha, w1);
    FirstApproval(sha, w1.db, form, CandidateOf(sha, REVIEW, review, 100), w1.calls[1]);
    LostCommitDangles(sha, w1, 1, 0, 0, 0);
    RunAppend(sha, Initial(EMPTY), submit + [approve], lose);
    labels := submit + [approve] + lose;
  }

  lemma EmptyIsFresh()
    ensures Fresh(EMPTY)
  {
  }

  /** And so is the loss of a submission: its own three steps are enough. */
  lemma LostSubmitReachable(sha: string -> Digest, form: Form, token: string) returns (labels: seq<Label>)
    requires IsDigest(sha) && form.kind == EarlyAccess && SubmissionCheck(NewSubmission(form, 0)) && token != ""
    ensures Unreachable(Run(sha, Initial(EMPTY), labels), sha(token))
  {
    hide Ref, Run, Exec, Unreachable, SubmissionCheck, Valid, Agrees;
    var start := StartSubmit(0, form, -1, token, 100);
    var lose := [Transact(0, 0, 0, 0, CommitLost), Delete(0, true)];
    RunOne(sha, Initial(EMPTY), start);
    EmptyIsFresh();
    InitialAgrees(sha, EMPTY);
    RunAgrees(sha, Initial(EMPTY), [start]);
    FirstCreate(form, CandidateOf(sha, REVIEW, token, 100));
    LostSubmitDangles(sha, Step(sha, Initial(EMPTY), start), 0, 0, 0, 0);
    RunAppend(sha, Initial(EMPTY), [start], lose);
    labels := [start] + lose;
  }
}
