/** What is in the token store, and the theorems about the two stores together. */
module Quiescence {
  import opened Base
  import opened Schema
  import opened Transactions
  import opened Lifecycle
  import opened Tokens
  import opened Protocol
  import opened Messages
  import opened Coherence

  /** The references of all review rows and of all grant rows that are not consumed. */
  ghost function Secrets(db: Db): set<Reference> {
    (set d | d in db.reviews :: db.reviews[d].reference)
    + (set d | d in db.grants && db.grants[d].status != Consumed :: db.grants[d].reference)
  }

  /** The token a call in flight will delete, or hand over to a row. */
  function Owes(sha: string -> Digest, call: Call): Option<Reference> {
    match call
    case Approving(_, token, _) => Some(Ref(SIGNUP, sha(token)))
    case Submitting(_, _, token, _) => Some(Ref(REVIEW, sha(token)))
    case Discarding(scope, d, _) => Some(Ref(scope, d))
    case Cleaning(_, reference, _) => Some(reference)
    case _ => None
  }

  ghost predicate Owed(sha: string -> Digest, calls: map<nat, Call>, r: Reference) {
    exists c :: c in calls && Owes(sha, calls[c]) == Some(r)
  }

  /** Every stored token belongs to a live row or to a call in flight. */
  ghost predicate Accounted(sha: string -> Digest, w: World) {
    forall r :: r in w.vault ==> r in Secrets(w.db) || Owed(sha, w.calls, r)
  }

  /** A call moves on: whatever it owed, put or made ownerless is now a row's or still owed. */
  lemma CallAccounts(sha: string -> Digest, w: World, c: nat, w': World)
    requires Accounted(sha, w) && c in w'.calls && w'.calls == w.calls[c := w'.calls[c]]
    requires forall r | r in w'.vault
      && (r !in w.vault || r in Secrets(w.db) || (c in w.calls && Owes(sha, w.calls[c]) == Some(r))) ::
      r in Secrets(w'.db) || Owes(sha, w'.calls[c]) == Some(r)
    ensures Accounted(sha, w')
  {
    hide Secrets, Owes;
    forall r | r in w'.vault ensures r in Secrets(w'.db) || Owed(sha, w'.calls, r) {
      if r in w.vault && r !in Secrets(w.db) && Owes(sha, w'.calls[c]) != Some(r) {
        var e :| e in w.calls && Owes(sha, w.calls[e]) == Some(r);
        assert e in w'.calls && (e != c ==> w'.calls[e] == w.calls[e]);
      }
    }
  }

  /** Only a consumption takes a reference out of the live ones. */
  lemma SecretsKept(db: Db, req: Request)
    requires Valid(db)
    ensures var db' := Exec(db, req).0;
      forall r :: r in Secrets(db) && r !in Secrets(db') ==>
        req.Consume? && db' != db && req.grant in db'.grants && r == db'.grants[req.grant].reference
  {
    hide Valid, Exec;
    ExecGrows(db, req);
    ExecSources(db, req);
    var db' := Exec(db, req).0;
    forall r | r in Secrets(db) && r !in Secrets(db')
      ensures req.Consume? && db' != db && req.grant in db'.grants && r == db'.grants[req.grant].reference
    {
      assert forall d :: d in db.reviews ==> db'.reviews[d].reference in Secrets(db');
      var d :| d in db.grants && db.grants[d].status != Consumed && db.grants[d].reference == r;
      assert IsConsumed(db', d);
    }
  }

  lemma ConsumeAnswers(db: Db, req: Request)
    requires req.Consume?
    ensures Exec(db, req).1.Failed? || Exec(db, req).1.GrantIs?
    ensures Exec(db, req).1.Failed? ==> Exec(db, req).0 == db
  {
    hide ApplyAll;
  }

  lemma ResumeConsuming(sha: string -> Digest, call: Call, answer: Answer)
    requires call.Consuming? && (answer.Failed? || answer.GrantIs?)
    ensures Owes(sha, call).None?
    ensures answer.GrantIs? ==> Owes(sha, Resume(sha, call, answer)) == Some(answer.grant.reference)
  {
  }

  lemma ConsumeAccounts(sha: string -> Digest, w: World, c: nat, d: Digest, email: string, claim: Digest, now: Time)
    requires Valid(w.db) && Accounted(sha, w) && c in w.calls && w.calls[c] == Consuming(d, email, claim)
    ensures Accounted(sha, Ran(sha, w, c, Consume(d, email, claim, now)))
  {
    hide Valid, Exec, Secrets, Accounted, Owes, Resume;
    var req := Consume(d, email, claim, now);
    SecretsKept(w.db, req);
    ConsumeAnswers(w.db, req);
    ConsumeResumes(w.db, d, email, claim, now);
    ResumeConsuming(sha, w.calls[c], Exec(w.db, req).1);
    CallAccounts(sha, w, c, Ran(sha, w, c, req));
  }

  /** A transaction that consumes nothing, and whose call hands its token to a row or keeps it. */
  lemma KeepAccounts(sha: string -> Digest, w: World, c: nat, req: Request)
    requires Valid(w.db) && Accounted(sha, w) && c in w.calls && !req.Consume?
    requires var w' := Ran(sha, w, c, req);
      Owes(sha, w.calls[c]).Some? ==>
        Owes(sha, w'.calls[c]) == Owes(sha, w.calls[c]) || Owes(sha, w.calls[c]).value in Secrets(w'.db)
    ensures Accounted(sha, Ran(sha, w, c, req))
  {
    hide Valid, Exec, Secrets, Accounted, Owes, Resume;
    SecretsKept(w.db, req);
    CallAccounts(sha, w, c, Ran(sha, w, c, req));
  }

  lemma RanState(sha: string -> Digest, w: World, c: nat, req: Request)
    requires c in w.calls
    ensures var w' := Ran(sha, w, c, req);
      c in w'.calls && w'.calls[c] == Resume(sha, w.calls[c], Exec(w.db, req).1) && w'.db == Exec(w.db, req).0
  {
    hide Resume, Exec;
  }

  lemma ApprovingAccounts(sha: string -> Digest, w: World, c: nat, k: Candidate, now: Time, start: Time)
    requires Valid(w.db) && Accounted(sha, w) && c in w.calls && w.calls[c].Approving?
    requires k.digest == sha(w.calls[c].token) && k.reference == Ref(SIGNUP, k.digest)
    ensures Accounted(sha, Ran(sha, w, c, Approve(w.calls[c].review, k, now, start)))
  {
    var req := Approve(w.calls[c].review, k, now, start);
    hide Valid, Exec, Accounted, Ref, Resume, OnFile, Secrets, Ran;
    RanState(sha, w, c, req);
    var answer := Exec(w.db, req).1;
    ResumeApproving(sha, w.calls[c], answer);
    if answer.ApprovedAs? && answer.usedCandidate {
      ApproveResumes(w.db, req.review, k, now, start);
      GrantAppears(w.db, req);
    }
    KeepAccounts(sha, w, c, req);
  }

  lemma GrantAppears(db: Db, req: Request)
    requires Valid(db) && req.Approve? && req.candidate.digest !in db.grants
    requires Exec(db, req).1.ApprovedAs? && Exec(db, req).1.usedCandidate
    ensures req.candidate.reference in Secrets(Exec(db, req).0)
  {
    hide Valid, Exec;
    NewGrants(db, req);
    ApproveResumes(db, req.review, req.candidate, req.now, req.start);
    assert req.candidate.digest in Exec(db, req).0.grants;
  }

  lemma SubmittingAccounts(sha: string -> Digest, w: World, c: nat, k: Candidate, start: Time, id: Id)
    requires Valid(w.db) && Accounted(sha, w) && c in w.calls && w.calls[c].Submitting?
    requires k.digest == sha(w.calls[c].token) && k.reference == Ref(REVIEW, k.digest)
    ensures Accounted(sha, Ran(sha, w, c, Create(w.calls[c].form, w.calls[c].since, Some(k), id, start)))
  {
    var req := Create(w.calls[c].form, w.calls[c].since, Some(k), id, start);
    hide Valid, Exec, Accounted, Ref, Resume, Secrets, Ran;
    RanState(sha, w, c, req);
    var answer := Exec(w.db, req).1;
    ResumeSubmitting(sha, w.calls[c], answer);
    if answer.Submitted? && answer.created {
      ReviewAppears(w.db, req);
    }
    KeepAccounts(sha, w, c, req);
  }

  lemma ReviewAppears(db: Db, req: Request)
    requires Valid(db) && req.Create? && req.capability.Some?
    requires Exec(db, req).1.Submitted? && Exec(db, req).1.created
    ensures req.capability.value.reference in Secrets(Exec(db, req).0)
  {
    hide Valid, Exec, Storable;
    CreateCases(db, req.form, req.since, req.capability, req.id, req.start);
    assert req.capability.value.digest in Exec(db, req).0.reviews;
  }

  lemma RolledBackAccounts(sha: string -> Digest, w: World, c: nat, now: Time, start: Time, id: Id)
    requires Accounted(sha, w) && c in w.calls && RequestOf(sha, w.calls[c], now, start, id).Some?
    ensures Accounted(sha, StepTransact(sha, w, c, now, start, id, RollsBack))
  {
    hide Accounted, Secrets, Exec, Ref;
    CallAccounts(sha, w, c, WithCall(w, c, Resume(sha, w.calls[c], Failed(Storage))));
    var w' := WithCall(w, c, Resume(sha, w.calls[c], Failed(Storage)));
    SameAccounts(sha, w', StepTransact(sha, w, c, now, start, id, RollsBack));
  }

  lemma SameAccounts(sha: string -> Digest, w: World, w': World)
    requires Accounted(sha, w) && w'.db == w.db && w'.vault == w.vault && w'.calls == w.calls
    ensures Accounted(sha, w')
  {
  }

  lemma RanAccounts(sha: string -> Digest, w: World, c: nat, now: Time, start: Time, id: Id)
    requires Valid(w.db) && Accounted(sha, w) && c in w.calls && RequestOf(sha, w.calls[c], now, start, id).Some?
    ensures Accounted(sha, Ran(sha, w, c, RequestOf(sha, w.calls[c], now, start, id).value))
  {
    hide Valid, Accounted, Exec, Ran, Ref;
    match w.calls[c]
    case Approving(_, token, expiresAt) =>
      ApprovingAccounts(sha, w, c, CandidateOf(sha, SIGNUP, token, expiresAt), now, start);
    case Submitting(_, _, token, expiresAt) =>
      SubmittingAccounts(sha, w, c, CandidateOf(sha, REVIEW, token, expiresAt), start, id);
    case SubmittingPlain(form, since) => KeepAccounts(sha, w, c, Create(form, since, None, id, start));
    case Consuming(d, email, claim) => ConsumeAccounts(sha, w, c, d, email, claim, now);
  }

  lemma LostAccounts(sha: string -> Digest, w: World, c: nat, now: Time, start: Time, id: Id)
    requires Valid(w.db) && Accounted(sha, w) && c in w.calls && w.calls[c].SubmittingPlain?
    ensures Accounted(sha, StepTransact(sha, w, c, now, start, id, CommitLost))
  {
    hide Valid, Accounted, Exec, Secrets;
    var req := Create(w.calls[c].form, w.calls[c].since, None, id, start);
    SecretsKept(w.db, req);
    CallAccounts(sha, w, c, StepTransact(sha, w, c, now, start, id, CommitLost));
  }

  lemma TransactAccounts(sha: string -> Digest, w: World, c: nat, now: Time, start: Time, id: Id, fate: Fate)
    requires Valid(w.db) && Accounted(sha, w) && c in w.calls
    requires var db := StepTransact(sha, w, c, now, start, id, fate).db;
      !Orphans(w.calls[c], w.db, db, fate) && !Forgets(w.calls[c], w.db, db, fate)
    ensures Accounted(sha, StepTransact(sha, w, c, now, start, id, fate))
  {
    hide Valid, Accounted, Exec, Resume, Ref;
    if RequestOf(sha, w.calls[c], now, start, id).Some? {
      match fate
      case RollsBack => RolledBackAccounts(sha, w, c, now, start, id);
      case Commits =>
        RanAccounts(sha, w, c, now, start, id);
        var req := RequestOf(sha, w.calls[c], now, start, id).value;
        SameAccounts(sha, Ran(sha, w, c, req), StepTransact(sha, w, c, now, start, id, fate));
      case CommitLost =>
        if StepTransact(sha, w, c, now, start, id, fate).db == w.db {
          LostIsRolledBack(sha, w, c, now, start, id);
          RolledBackAccounts(sha, w, c, now, start, id);
        } else {
          LostAccounts(sha, w, c, now, start, id);
        }
    }
  }

  lemma DirectAccounts(sha: string -> Digest, w: World, req: Request, fate: Fate)
    requires Valid(w.db) && Accounted(sha, w) && DatabaseOnly(req)
    ensures Accounted(sha, w.(db := Outcome(w.db, req, fate).0))
  {
    hide Valid, Exec, Secrets, Owed;
    SecretsKept(w.db, req);
  }

  lemma DeleteAccounts(sha: string -> Digest, w: World, c: nat, ok: bool)
    requires Accounted(sha, w) && c in w.calls && (w.calls[c].Discarding? || w.calls[c].Cleaning? ==> ok)
    ensures Accounted(sha, StepDelete(w, c, ok))
  {
    hide Accounted, Secrets, Ref;
    if w.calls[c].Discarding? || w.calls[c].Cleaning? {
      CallAccounts(sha, w, c, StepDelete(w, c, true));
    }
  }

  /** A step that touches neither rows nor tokens, of a call that owes nothing. */
  lemma FreeAccounts(sha: string -> Digest, w: World, c: nat, call: Call)
    requires Accounted(sha, w) && (c in w.calls ==> Owes(sha, w.calls[c]).None?)
    ensures Accounted(sha, WithCall(w, c, call))
  {
    hide Accounted, Secrets, Owes;
    CallAccounts(sha, w, c, WithCall(w, c, call));
  }

  lemma ReplyAccounts(sha: string -> Digest, w: World, c: nat, ok: bool, delivered: bool, reported: bool)
    requires Accounted(sha, w) && c in w.calls
    ensures Accounted(sha, StepRead(w, c, ok)) && Accounted(sha, StepVerify(sha, w, c))
    ensures Accounted(sha, StepSend(w, c, delivered, reported))
  {
    hide Accounted;
    match w.calls[c]
    case Reading(a) => FreeAccounts(sha, w, c, StepRead(w, c, ok).calls[c]);
    case Verifying(_, _) => FreeAccounts(sha, w, c, StepVerify(sha, w, c).calls[c]);
    case Sending(_, _) =>
      var w' := StepSend(w, c, delivered, reported);
      FreeAccounts(sha, w, c, w'.calls[c]);
      SameAccounts(sha, WithCall(w, c, w'.calls[c]), w');
    case Notifying(_, _, _) =>
      FreeAccounts(sha, w, c, Done(Accepted));
      SameAccounts(sha, WithCall(w, c, Done(Accepted)), StepSend(w, c, delivered, reported));
    case _ =>
  }

  lemma StartConsumeAccounts(sha: string -> Digest, w: World, c: nat, grantToken: string, email: string, claim: Digest)
    requires Accounted(sha, w) && c !in w.calls
    ensures Accounted(sha, Step(sha, w, StartConsume(c, grantToken, email, claim)))
  {
    hide Accounted, ValidToken;
    FreeAccounts(sha, w, c, Done(Rejected(InvalidGrant)));
    FreeAccounts(sha, w, c, Consuming(sha(grantToken), email, claim));
  }

  lemma PutAccounts(sha: string -> Digest, w: World, c: nat, scope: string, token: string, call: Call)
    requires Accounted(sha, w) && c !in w.calls && Owes(sha, call) == Some(Ref(scope, sha(token)))
    ensures Accounted(sha, PutToken(sha, w, c, scope, token, call))
  {
    hide Accounted, Secrets, Ref;
    CallAccounts(sha, w, c, PutToken(sha, w, c, scope, token, call));
  }

  lemma StartAccounts(sha: string -> Digest, w: World, l: Label)
    requires Accounted(sha, w) && (l.StartApprove? || l.StartSubmit?) && l.call !in w.calls
    ensures Accounted(sha, Step(sha, w, l))
  {
    hide Accounted, Secrets, Ref, PutToken, ValidToken;
    match l
    case StartApprove(c, reviewToken, token, expiresAt) =>
      CallAccounts(sha, w, c, WithCall(w, c, Done(Rejected(InvalidReview))));
      PutAccounts(sha, w, c, SIGNUP, token, Approving(sha(reviewToken), token, expiresAt));
    case StartSubmit(c, form, since, token, expiresAt) =>
      CallAccounts(sha, w, c, WithCall(w, c, SubmittingPlain(form, since)));
      PutAccounts(sha, w, c, REVIEW, token, Submitting(form, since, token, expiresAt));
  }

  /** A crash, a failed delete, or a consumption that its client never learns of. */
  ghost predicate Leaks(sha: string -> Digest, w: World, l: Label) {
    || (l.Crash? && l.call in w.calls)
    || (l.Delete? && !l.ok && l.call in w.calls && (w.calls[l.call].Discarding? || w.calls[l.call].Cleaning?))
    || (&& l.Transact? && l.call in w.calls
        && Forgets(w.calls[l.call], w.db, StepTransact(sha, w, l.call, l.now, l.start, l.id, l.fate).db, l.fate))
  }

  lemma StepAccounts(sha: string -> Digest, w: World, l: Label)
    requires Agrees(sha, w) && Accounted(sha, w) && !Harmful(sha, w, l) && !Leaks(sha, w, l)
    ensures Accounted(sha, Step(sha, w, l))
  {
    ValidIn(sha, w);
    hide Agrees, Valid, Accounted, PutToken, ValidToken, WithCall, StepTransact, StepDelete, StepRead, StepVerify,
      StepSend, Outcome, DatabaseOnly;
    match l
    case Transact(c, now, start, id, fate) => if c in w.calls { TransactAccounts(sha, w, c, now, start, id, fate); }
    case Direct(req, fate) => if DatabaseOnly(req) { DirectAccounts(sha, w, req, fate); }
    case Delete(c, ok) => if c in w.calls { DeleteAccounts(sha, w, c, ok); }
    case StartApprove(c, _, _, _) => if c !in w.calls { StartAccounts(sha, w, l); }
    case StartSubmit(c, _, _, _, _) => if c !in w.calls { StartAccounts(sha, w, l); }
    case StartConsume(c, grantToken, email, claim) =>
      if c !in w.calls { StartConsumeAccounts(sha, w, c, grantToken, email, claim); }
    case Read(c, ok) => if c in w.calls { ReplyAccounts(sha, w, c, ok, true, true); }
    case Verify(c) => if c in w.calls { ReplyAccounts(sha, w, c, true, true, true); }
    case Send(c, delivered, reported) => if c in w.calls { ReplyAccounts(sha, w, c, true, delivered, reported); }
    case Crash(_) =>
  }

  // ---- Theorems ---------------------------------------------------------------------------------

  ghost predicate SafeSoFar(sha: string -> Digest, w: World) {
    Agrees(sha, w) && (!w.orphaned ==> Sound(sha, w)) && (!w.orphaned && !w.leaky ==> Accounted(sha, w))
  }

  lemma FlagsTell(sha: string -> Digest, w: World, l: Label)
    ensures var w' := Step(sha, w, l);
      && (w'.orphaned <==> w.orphaned || Harmful(sha, w, l))
      && (w'.leaky <==> w.leaky || Leaks(sha, w, l))
  {
    hide Exec, Ref, Resume, RequestOf;
  }

  lemma StepSafe(sha: string -> Digest, w: World, l: Label)
    requires SafeSoFar(sha, w)
    ensures SafeSoFar(sha, Step(sha, w, l))
  {
    hide Agrees, Sound, Accounted, Step, Harmful, Leaks;
    StepAgrees(sha, w, l);
    FlagsTell(sha, w, l);
    var w' := Step(sha, w, l);
    if w' != w && !w'.orphaned {
      StepSound(sha, w, l);
      if !w'.leaky { StepAccounts(sha, w, l); }
    }
  }

  lemma {:induction false} RunSafe(sha: string -> Digest, w: World, labels: seq<Label>)
    requires SafeSoFar(sha, w)
    ensures SafeSoFar(sha, Run(sha, w, labels))
  {
    hide SafeSoFar, Step;
    if labels != [] {
      RunSafe(sha, w, labels[..|labels| - 1]);
      StepSafe(sha, Run(sha, w, labels[..|labels| - 1]), labels[|labels| - 1]);
    }
  }

  lemma InitialSafe(sha: string -> Digest, db: Db)
    requires Fresh(db)
    ensures SafeSoFar(sha, Initial(db))
  {
    InitialAgrees(sha, db);
    hide Agrees, Valid;
  }

  /** The token stored for a row hashes to the row's digest. */
  ghost predicate Backed(sha: string -> Digest, vault: map<Reference, string>, reference: Reference, d: Digest) {
    reference in vault && sha(vault[reference]) == d
  }

  lemma BackedIn(sha: string -> Digest, w: World)
    requires Agrees(sha, w) && Sound(sha, w)
    ensures forall d :: d in w.db.reviews ==> Backed(sha, w.vault, w.db.reviews[d].reference, d)
    ensures forall d :: d in w.db.grants && w.db.grants[d].status != Consumed ==>
      Backed(sha, w.vault, w.db.grants[d].reference, d)
  {
    hide Valid, CallsAgree, SentAgree, NotifiedOnce, CallsSound, Exclusive, MailSound, Ref;
    forall d | d in w.db.reviews ensures Backed(sha, w.vault, w.db.reviews[d].reference, d) {
      NamedBy(sha, w.vault[Ref(REVIEW, d)], REVIEW, d);
    }
    forall d | d in w.db.grants && w.db.grants[d].status != Consumed
      ensures Backed(sha, w.vault, w.db.grants[d].reference, d)
    {
      NamedBy(sha, w.vault[Ref(SIGNUP, d)], SIGNUP, d);
    }
  }

  lemma NamedBy(sha: string -> Digest, token: string, scope: string, d: Digest)
    requires ValidScope(scope) && (Ref(scope, d) == Ref(REVIEW, sha(token)) || Ref(scope, d) == Ref(SIGNUP, sha(token)))
    ensures sha(token) == d
  {
    if Ref(scope, d) == Ref(REVIEW, sha(token)) { RefInjective(scope, d, REVIEW, sha(token)); }
    else { RefInjective(scope, d, SIGNUP, sha(token)); }
  }

  /** Store coherence. In every world reachable without a harmful lost commit, whatever crashes,
      rollbacks, failed deletes and other lost commits there were, each review row and each grant
      row not consumed has its secret reference in the store, with a token of the row's digest. */
  lemma StoresCohere(sha: string -> Digest, db: Db, labels: seq<Label>)
    requires Fresh(db) && !Run(sha, Initial(db), labels).orphaned
    ensures var w := Run(sha, Initial(db), labels);
      && (forall d :: d in w.db.reviews ==> Backed(sha, w.vault, w.db.reviews[d].reference, d))
      && (forall d :: d in w.db.grants && w.db.grants[d].status != Consumed ==>
        Backed(sha, w.vault, w.db.grants[d].reference, d))
  {
    hide Run, Agrees, Sound, Accounted, Backed;
    InitialSafe(sha, db);
    RunSafe(sha, Initial(db), labels);
    BackedIn(sha, Run(sha, Initial(db), labels));
  }

  /** No cleanup removes a live token: whichever call deletes next, because it lost, failed, was a
      duplicate or has consumed, every reference of a live row stays in the store. */
  lemma CleanupSparesLiveTokens(sha: string -> Digest, db: Db, labels: seq<Label>, c: nat)
    requires Fresh(db) && !Run(sha, Initial(db), labels).orphaned
    ensures var w := Run(sha, Initial(db), labels);
      forall r :: r in Secrets(w.db) ==> r in Step(sha, w, Delete(c, true)).vault
  {
    var w := Run(sha, Initial(db), labels);
    RunMore(sha, Initial(db), labels, Delete(c, true));
    DeleteKeepsRows(sha, w, c);
    hide Run, Step;
    StoresCohere(sha, db, labels + [Delete(c, true)]);
  }

  lemma DeleteKeepsRows(sha: string -> Digest, w: World, c: nat)
    ensures var w' := Step(sha, w, Delete(c, true)); w'.db == w.db && w'.orphaned == w.orphaned
  {
    hide Ref, After;
  }

  ghost predicate Quiescent(w: World) {
    forall c :: c in w.calls ==> w.calls[c].Done?
  }

  lemma QuietVault(sha: string -> Digest, w: World)
    requires Agrees(sha, w) && Sound(sha, w) && Accounted(sha, w) && Quiescent(w)
    ensures w.vault.Keys == Secrets(w.db)
  {
    BackedIn(sha, w);
    hide Agrees, Sound;
    NothingOwed(sha, w);
    hide Owed;
    forall r | r in Secrets(w.db) ensures r in w.vault {
    }
  }

  lemma NothingOwed(sha: string -> Digest, w: World)
    requires Quiescent(w)
    ensures forall r :: !Owed(sha, w.calls, r)
  {
    assert forall c :: c in w.calls ==> Owes(sha, w.calls[c]).None?;
  }

  /** No leaks. With no crash, no failed delete and no lost commit that inserted or consumed a row
      with a token, once no call is in flight the stored references are exactly those of the review
      rows and of the grants not consumed: losing candidates and duplicates leave nothing behind. */
  lemma NothingLeaks(sha: string -> Digest, db: Db, labels: seq<Label>)
    requires Fresh(db)
    requires var w := Run(sha, Initial(db), labels); !w.orphaned && !w.leaky && Quiescent(w)
    ensures var w := Run(sha, Initial(db), labels); w.vault.Keys == Secrets(w.db)
  {
    hide Run, Agrees, Sound, Accounted;
    InitialSafe(sha, db);
    RunSafe(sha, Initial(db), labels);
    hide Quiescent, Secrets;
    QuietVault(sha, Run(sha, Initial(db), labels));
  }

  lemma KeptToken(sha: string -> Digest, w: World, i: nat, j: nat)
    requires Sound(sha, w) && i < |w.mail| && j < |w.mail|
    requires sha(w.mail[i].token) == sha(w.mail[j].token) && !IsConsumed(w.db, sha(w.mail[i].token))
    ensures w.mail[i].token == w.mail[j].token
  {
    hide Coherent, CallsSound, Exclusive, Ref;
  }

  /** Without any assumption on the hash: while a grant is not consumed, all messages sent for its
      application carry one and the same token. */
  lemma SameTokenSent(sha: string -> Digest, db: Db, labels: seq<Label>, i: nat, j: nat)
    requires Fresh(db)
    requires var w := Run(sha, Initial(db), labels);
      && !w.orphaned && i < |w.mail| && j < |w.mail| && w.mail[i].application == w.mail[j].application
      && (sha(w.mail[i].token) in w.db.grants ==> w.db.grants[sha(w.mail[i].token)].status != Consumed)
    ensures var w := Run(sha, Initial(db), labels); w.mail[i].token == w.mail[j].token
  {
    MessagesAgree(sha, db, labels, i, j);
    hide Run, Agrees, Sound, Accounted;
    InitialSafe(sha, db);
    RunSafe(sha, Initial(db), labels);
    KeptToken(sha, Run(sha, Initial(db), labels), i, j);
  }
}
