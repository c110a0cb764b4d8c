/** The two stores stay coherent as long as no commit was harmfully lost: live rows never dangle,
    and no cleanup removes a live token. Tokens need not be fresh: insert-if-absent is all that is
    used of Put. */
module Coherence {
  import opened Base
  import opened Schema
  import opened Transactions
  import opened Lifecycle
  import opened Tokens
  import opened Protocol
  import opened Messages

  // ---- References as keys -----------------------------------------------------------------------

  lemma OtherReference(scope: string, d: Digest, other: string, e: Digest)
    requires (scope == REVIEW || scope == SIGNUP) && (other == REVIEW || other == SIGNUP)
    requires (scope, d) != (other, e)
    ensures Ref(scope, d) != Ref(other, e)
  {
    if Ref(scope, d) == Ref(other, e) { RefInjective(scope, d, other, e); }
  }

  // ---- The invariant ----------------------------------------------------------------------------

  /** Every review row and every grant row not consumed has its token in the store. */
  ghost predicate Coherent(db: Db, vault: map<Reference, string>) {
    && (forall d :: d in db.reviews ==> Ref(REVIEW, d) in vault)
    && (forall d :: d in db.grants ==> IsConsumed(db, d) || Ref(SIGNUP, d) in vault)
  }

  /** A token that no row owns yet, or that belongs to a grant already consumed. */
  predicate Unowned(db: Db, vault: map<Reference, string>, scope: string, d: Digest) {
    if scope == REVIEW then d !in db.reviews && Ref(REVIEW, d) in vault
    else scope == SIGNUP && (IsConsumed(db, d) || (d !in db.grants && Ref(SIGNUP, d) in vault))
  }

  /** The token that the store gives out for a grant, as long as the grant is not consumed. */
  predicate Kept(db: Db, vault: map<Reference, string>, d: Digest, token: string) {
    IsConsumed(db, d) || (Ref(SIGNUP, d) in vault && vault[Ref(SIGNUP, d)] == token)
  }

  /** The token a call put and has not yet handed to a row or deleted. */
  function Holds(sha: string -> Digest, call: Call): Option<(string, Digest)> {
    match call
    case Approving(_, token, _) => Some((SIGNUP, sha(token)))
    case Submitting(_, _, token, _) => Some((REVIEW, sha(token)))
    case Discarding(scope, d, _) => Some((scope, d))
    case _ => None
  }

  predicate CallSound(sha: string -> Digest, db: Db, vault: map<Reference, string>, call: Call) {
    && (Holds(sha, call).Some? ==> Unowned(db, vault, Holds(sha, call).value.0, Holds(sha, call).value.1))
    && (call.Approving? ==> Kept(db, vault, sha(call.token), call.token))
    && (call.Verifying? || call.Sending? ==> Kept(db, vault, call.approval.digest, call.token))
  }

  /** Two calls hold one token only if its grant is consumed. */
  ghost predicate Exclusive(sha: string -> Digest, db: Db, calls: map<nat, Call>) {
    forall c, e | c in calls && e in calls && c != e
      && Holds(sha, calls[c]).Some? && Holds(sha, calls[c]) == Holds(sha, calls[e]) ::
      Holds(sha, calls[c]).value.0 == SIGNUP && IsConsumed(db, Holds(sha, calls[c]).value.1)
  }

  ghost predicate CallsSound(sha: string -> Digest, db: Db, vault: map<Reference, string>, calls: map<nat, Call>) {
    forall c :: c in calls ==> CallSound(sha, db, vault, calls[c])
  }

  ghost predicate MailSound(sha: string -> Digest, db: Db, vault: map<Reference, string>, mail: seq<Mail>) {
    forall i :: 0 <= i < |mail| ==> Kept(db, vault, sha(mail[i].token), mail[i].token)
  }

  ghost predicate Sound(sha: string -> Digest, w: World) {
    && Coherent(w.db, w.vault) && CallsSound(sha, w.db, w.vault, w.calls)
    && Exclusive(sha, w.db, w.calls) && MailSound(sha, w.db, w.vault, w.mail)
  }

  // ---- Changes of one component -----------------------------------------------------------------

  /** A call moves on and holds no token it did not hold before. */
  lemma CallMoves(sha: string -> Digest, w: World, c: nat, call: Call)
    requires Sound(sha, w) && CallSound(sha, w.db, w.vault, call)
    requires Holds(sha, call).None? || (c in w.calls && Holds(sha, w.calls[c]) == Holds(sha, call))
    ensures Sound(sha, WithCall(w, c, call))
  {
    hide Coherent, CallSound, MailSound, Holds;
  }

  lemma CallGone(sha: string -> Digest, w: World, c: nat)
    requires Sound(sha, w)
    ensures Sound(sha, w.(calls := w.calls - {c}, leaky := true))
  {
    hide Coherent, CallSound, MailSound, Holds;
  }

  /** A token is put under a reference that was free. */
  lemma TokenPut(sha: string -> Digest, w: World, r: Reference, token: string)
    requires Sound(sha, w) && r !in w.vault
    ensures Sound(sha, w.(vault := w.vault[r := token]))
  {
    hide Ref, Holds, Exclusive;
  }

  /** The call that put it holds it, and no other call does. */
  lemma HolderAdded(sha: string -> Digest, w: World, c: nat, call: Call, scope: string, d: Digest)
    requires Sound(sha, w) && Holds(sha, call) == Some((scope, d)) && CallSound(sha, w.db, w.vault, call)
    requires forall e :: e in w.calls && e != c && Holds(sha, w.calls[e]) == Some((scope, d)) ==>
      scope == SIGNUP && IsConsumed(w.db, d)
    ensures Sound(sha, WithCall(w, c, call))
  {
    hide Coherent, CallSound, MailSound, Holds;
  }

  lemma FreeIsUnowned(sha: string -> Digest, w: World, scope: string, d: Digest)
    requires Sound(sha, w) && (scope == REVIEW || scope == SIGNUP) && Ref(scope, d) !in w.vault
    ensures scope == REVIEW ==> d !in w.db.reviews
    ensures scope == SIGNUP ==> d !in w.db.grants || IsConsumed(w.db, d)
    ensures forall e :: e in w.calls && Holds(sha, w.calls[e]) == Some((scope, d)) ==>
      scope == SIGNUP && IsConsumed(w.db, d)
  {
    hide Ref, MailSound, Exclusive, IsConsumed;
    forall e | e in w.calls && Holds(sha, w.calls[e]) == Some((scope, d))
      ensures scope == SIGNUP && IsConsumed(w.db, d)
    {
      assert CallSound(sha, w.db, w.vault, w.calls[e]);
      assert REVIEW[0] != SIGNUP[0];
    }
  }

  lemma KeptAfter(db: Db, vault: map<Reference, string>, scope: string, d: Digest, e: Digest, token: string)
    requires scope == REVIEW || scope == SIGNUP
    requires Kept(db, vault, e, token) && (scope == SIGNUP && d == e ==> IsConsumed(db, e))
    ensures Kept(db, vault - {Ref(scope, d)}, e, token)
  {
    assert REVIEW[0] != SIGNUP[0];
    hide Ref;
    if (scope, d) != (SIGNUP, e) { OtherReference(scope, d, SIGNUP, e); }
  }

  lemma UnownedAfter(db: Db, vault: map<Reference, string>, scope: string, d: Digest, other: string, e: Digest)
    requires scope == REVIEW || scope == SIGNUP
    requires Unowned(db, vault, other, e) && ((scope, d) == (other, e) ==> other == SIGNUP && IsConsumed(db, e))
    ensures Unowned(db, vault - {Ref(scope, d)}, other, e)
  {
    assert REVIEW[0] != SIGNUP[0];
    hide Ref;
    if (scope, d) != (other, e) { OtherReference(scope, d, other, e); }
  }

  lemma CoherentAfter(db: Db, vault: map<Reference, string>, scope: string, d: Digest)
    requires Coherent(db, vault) && (scope == REVIEW || scope == SIGNUP)
    requires if scope == REVIEW then d !in db.reviews else d in db.grants ==> IsConsumed(db, d)
    ensures Coherent(db, vault - {Ref(scope, d)})
  {
    assert REVIEW[0] != SIGNUP[0];
    hide Ref;
    forall e | e in db.reviews
      ensures Ref(REVIEW, e) in vault - {Ref(scope, d)}
    {
      OtherReference(scope, d, REVIEW, e);
    }
    forall e | e in db.grants && !IsConsumed(db, e) ensures Ref(SIGNUP, e) in vault - {Ref(scope, d)} {
      OtherReference(scope, d, SIGNUP, e);
    }
  }

  lemma CallAfter(sha: string -> Digest, db: Db, vault: map<Reference, string>, call: Call, scope: string, d: Digest)
    requires (scope == REVIEW || scope == SIGNUP) && (scope == SIGNUP && d in db.grants ==> IsConsumed(db, d))
    requires CallAgrees(sha, db, call) && CallSound(sha, db, vault, call)
    requires Holds(sha, call) == Some((scope, d)) ==> scope == SIGNUP && IsConsumed(db, d)
    ensures CallSound(sha, db, vault - {Ref(scope, d)}, call)
  {
    hide Ref, Unowned, Kept, IsConsumed;
    if Holds(sha, call).Some? {
      UnownedAfter(db, vault, scope, d, Holds(sha, call).value.0, Holds(sha, call).value.1);
    }
    if call.Approving? { KeptAfter(db, vault, scope, d, sha(call.token), call.token); }
    if call.Verifying? || call.Sending? { KeptAfter(db, vault, scope, d, call.approval.digest, call.token); }
  }

  /** Deleting a token that belongs to no live row, and to no other call, harms nothing. */
  lemma TokenRemoved(sha: string -> Digest, w: World, scope: string, d: Digest)
    requires Agrees(sha, w) && Sound(sha, w)
    requires
      if scope == REVIEW then d !in w.db.reviews else scope == SIGNUP && (d in w.db.grants ==> IsConsumed(w.db, d))
    requires forall e :: e in w.calls && Holds(sha, w.calls[e]) == Some((scope, d)) ==>
      scope == SIGNUP && IsConsumed(w.db, d)
    ensures Sound(sha, w.(vault := w.vault - {Ref(scope, d)}))
  {
    var vault' := w.vault - {Ref(scope, d)};
    hide Ref, Exclusive, Agrees, IsConsumed, Kept, Coherent, CallSound, Holds;
    assert REVIEW[0] != SIGNUP[0];
    CoherentAfter(w.db, w.vault, scope, d);
    forall c | c in w.calls ensures CallSound(sha, w.db, vault', w.calls[c]) {
      CallAt(sha, w, c);
      CallAfter(sha, w.db, w.vault, w.calls[c], scope, d);
    }
    forall i | 0 <= i < |w.mail| ensures Kept(w.db, vault', sha(w.mail[i].token), w.mail[i].token) {
      MailAt(sha, w, i);
      KeptAfter(w.db, w.vault, scope, d, sha(w.mail[i].token), w.mail[i].token);
    }
  }

  lemma MailAt(sha: string -> Digest, w: World, i: nat)
    requires Agrees(sha, w) && i < |w.mail|
    ensures sha(w.mail[i].token) in w.db.grants
  {
  }

  /** The database moves on: new rows own tokens that are stored and that no call holds. */
  lemma DatabaseMoves(sha: string -> Digest, w: World, db: Db)
    requires Sound(sha, w) && Grows(w.db, db)
    requires forall d :: d in db.grants && d !in w.db.grants ==>
      Ref(SIGNUP, d) in w.vault && forall c :: c in w.calls ==> Holds(sha, w.calls[c]) != Some((SIGNUP, d))
    requires forall d :: d in db.reviews && d !in w.db.reviews ==>
      Ref(REVIEW, d) in w.vault && forall c :: c in w.calls ==> Holds(sha, w.calls[c]) != Some((REVIEW, d))
    ensures Sound(sha, w.(db := db))
  {
    hide Ref, Holds;
    assert REVIEW[0] != SIGNUP[0];
    forall c | c in w.calls ensures CallSound(sha, db, w.vault, w.calls[c]) {
      assert CallSound(sha, w.db, w.vault, w.calls[c]);
    }
  }

  // ---- Every step -------------------------------------------------------------------------------

  lemma CallSoundAt(sha: string -> Digest, w: World, c: nat)
    requires Sound(sha, w) && c in w.calls
    ensures CallSound(sha, w.db, w.vault, w.calls[c])
    ensures Holds(sha, w.calls[c]).Some? ==>
      var (scope, d) := Holds(sha, w.calls[c]).value;
      forall e :: e in w.calls && e != c && Holds(sha, w.calls[e]) == Some((scope, d)) ==>
        scope == SIGNUP && IsConsumed(w.db, d)
  {
    hide Coherent, CallSound, MailSound, Holds, IsConsumed;
    if Holds(sha, w.calls[c]).Some? {
      var (scope, d) := Holds(sha, w.calls[c]).value;
      forall e | e in w.calls && e != c && Holds(sha, w.calls[e]) == Some((scope, d))
        ensures scope == SIGNUP && IsConsumed(w.db, d)
      {
        assert Holds(sha, w.calls[e]) == Holds(sha, w.calls[c]);
      }
    }
  }

  lemma PutSound(sha: string -> Digest, w: World, c: nat, scope: string, token: string, call: Call)
    requires Sound(sha, w) && c !in w.calls
    requires (scope == REVIEW && call.Submitting?) || (scope == SIGNUP && call.Approving?)
    requires call.token == token
    ensures Sound(sha, PutToken(sha, w, c, scope, token, call))
  {
    var r := Ref(scope, sha(token));
    if token == "" || r in w.vault {
      CallMoves(sha, w, c, Done(Rejected(Storage)));
    } else {
      FreeIsUnowned(sha, w, scope, sha(token));
      TokenPut(sha, w, r, token);
      assert REVIEW[0] != SIGNUP[0];
      hide Sound, Ref;
      HolderAdded(sha, w.(vault := w.vault[r := token]), c, call, scope, sha(token));
    }
  }

  /** New rows that own the token call c holds own a stored token that no other call holds. */
  lemma NewRowsOwn(sha: string -> Digest, w: World, c: nat, db: Db)
    requires Sound(sha, w) && c in w.calls
    requires forall d :: d in db.grants && d !in w.db.grants ==> Holds(sha, w.calls[c]) == Some((SIGNUP, d))
    requires forall d :: d in db.reviews && d !in w.db.reviews ==> Holds(sha, w.calls[c]) == Some((REVIEW, d))
    ensures forall d :: d in db.grants && d !in w.db.grants ==>
      Ref(SIGNUP, d) in w.vault && forall e :: e in w.calls && e != c ==> Holds(sha, w.calls[e]) != Some((SIGNUP, d))
    ensures forall d :: d in db.reviews && d !in w.db.reviews ==>
      Ref(REVIEW, d) in w.vault && forall e :: e in w.calls && e != c ==> Holds(sha, w.calls[e]) != Some((REVIEW, d))
  {
    hide Sound, Ref, Kept, Holds;
    CallSoundAt(sha, w, c);
    assert REVIEW[0] != SIGNUP[0];
  }

  /** A transaction whose new rows take over the token its own call holds. */
  lemma HandedOver(sha: string -> Digest, w: World, c: nat, db: Db, call: Call)
    requires Sound(sha, w) && c in w.calls && Grows(w.db, db)
    requires Holds(sha, call).None? && CallSound(sha, db, w.vault, call)
    requires forall d :: d in db.grants && d !in w.db.grants ==> Holds(sha, w.calls[c]) == Some((SIGNUP, d))
    requires forall d :: d in db.reviews && d !in w.db.reviews ==> Holds(sha, w.calls[c]) == Some((REVIEW, d))
    ensures Sound(sha, WithCall(w, c, call).(db := db))
  {
    NewRowsOwn(sha, w, c, db);
    var w1 := WithCall(w, c, Done(Accepted));
    assert Holds(sha, Done(Accepted)) == None && CallSound(sha, w.db, w.vault, Done(Accepted));
    hide Sound, Ref, Grows, CallSound, Holds;
    CallMoves(sha, w, c, Done(Accepted));
    DatabaseMoves(sha, w1, db);
    CallMoves(sha, w1.(db := db), c, call);
    assert w1.calls[c := call] == w.calls[c := call];
  }

  lemma ApproveQuiet(db: Db, review: Digest, c: Candidate, now: Time, start: Time)
    requires Valid(db)
    ensures var (db', answer) := Exec(db, Approve(review, c, now, start));
      !(answer.ApprovedAs? && answer.usedCandidate) ==> db' == db
  {
    ApproveCases(db, review, c, now, start);
    hide Valid, Exec, Insertable;
  }

  lemma CreateQuiet(db: Db, form: Form, since: Time, capability: Option<Candidate>, id: Id, start: Time)
    requires Valid(db)
    ensures var (db', answer) := Exec(db, Create(form, since, capability, id, start));
      !(answer.Submitted? && answer.created) ==> db' == db
  {
    hide Valid, Exec, Storable;
    CreateCases(db, form, since, capability, id, start);
  }

  lemma KeptGrows(db: Db, db': Db, vault: map<Reference, string>, d: Digest, token: string)
    requires Grows(db, db') && Kept(db, vault, d, token)
    ensures Kept(db', vault, d, token)
  {
    hide Ref;
  }

  /** The rows a transaction adds. */
  lemma Adds(db: Db, req: Request)
    requires Valid(db)
    ensures var db' := Exec(db, req).0;
      && Grows(db, db')
      && (forall d :: d in db'.grants && d !in db.grants ==> req.Approve? && d == req.candidate.digest)
      && (forall d :: d in db'.reviews && d !in db.reviews ==>
            req.Create? && req.capability.Some? && d == req.capability.value.digest)
  {
    hide Valid, Exec;
    ExecGrows(db, req);
    ExecSources(db, req);
    hide Grows;
  }

  /** The world after call c ran a transaction alone. */
  ghost function Ran(sha: string -> Digest, w: World, c: nat, req: Request): World
    requires c in w.calls
  {
    WithCall(w, c, Resume(sha, w.calls[c], Exec(w.db, req).1)).(db := Exec(w.db, req).0)
  }

  lemma ResumeApproving(sha: string -> Digest, call: Call, answer: Answer)
    requires call.Approving?
    ensures var call' := Resume(sha, call, answer);
      if answer.ApprovedAs? && answer.usedCandidate then call' == Verifying(answer.approval, call.token)
      else call'.Discarding? && call'.scope == SIGNUP && call'.digest == sha(call.token)
  {
  }

  lemma ApprovingSound(sha: string -> Digest, w: World, c: nat, k: Candidate, now: Time, start: Time)
    requires Valid(w.db) && Sound(sha, w) && c in w.calls && w.calls[c].Approving?
    requires k.digest == sha(w.calls[c].token)
    ensures Sound(sha, Ran(sha, w, c, Approve(w.calls[c].review, k, now, start)))
  {
    var call := w.calls[c];
    var req := Approve(call.review, k, now, start);
    hide Valid, Sound, Exec, Kept, Grows, Resume, OnFile, IsConsumed;
    CallSoundAt(sha, w, c);
    ApproveQuiet(w.db, call.review, k, now, start);
    var (db', answer) := Exec(w.db, req);
    var call' := Resume(sha, call, answer);
    ResumeApproving(sha, call, answer);
    if answer.ApprovedAs? && answer.usedCandidate {
      ApproveResumes(w.db, call.review, k, now, start);
      Adds(w.db, req);
      KeptGrows(w.db, db', w.vault, sha(call.token), call.token);
      HandedOver(sha, w, c, db', call');
    } else {
      CallMoves(sha, w, c, call');
    }
  }

  lemma ResumeSubmitting(sha: string -> Digest, call: Call, answer: Answer)
    requires call.Submitting?
    ensures var call' := Resume(sha, call, answer);
      if answer.Submitted? && answer.created then call'.Notifying?
      else call'.Discarding? && call'.scope == REVIEW && call'.digest == sha(call.token)
  {
  }

  lemma SubmittingSound(sha: string -> Digest, w: World, c: nat, k: Candidate, start: Time, id: Id)
    requires Valid(w.db) && Sound(sha, w) && c in w.calls && w.calls[c].Submitting?
    requires k.digest == sha(w.calls[c].token)
    ensures Sound(sha, Ran(sha, w, c, Create(w.calls[c].form, w.calls[c].since, Some(k), id, start)))
  {
    var call := w.calls[c];
    var req := Create(call.form, call.since, Some(k), id, start);
    hide Valid, Sound, Exec, Grows, Kept, Resume, IsConsumed;
    CallSoundAt(sha, w, c);
    CreateQuiet(w.db, call.form, call.since, Some(k), id, start);
    var (db', answer) := Exec(w.db, req);
    var call' := Resume(sha, call, answer);
    ResumeSubmitting(sha, call, answer);
    if answer.Submitted? && answer.created {
      Adds(w.db, req);
      HandedOver(sha, w, c, db', call');
    } else {
      CallMoves(sha, w, c, call');
    }
  }

  lemma OtherSound(sha: string -> Digest, w: World, c: nat, req: Request)
    requires Valid(w.db) && Sound(sha, w) && c in w.calls
    requires !req.Approve? && !(req.Create? && req.capability.Some?)
    requires Holds(sha, Resume(sha, w.calls[c], Exec(w.db, req).1)).None?
    requires !Resume(sha, w.calls[c], Exec(w.db, req).1).Verifying?
    requires !Resume(sha, w.calls[c], Exec(w.db, req).1).Sending?
    ensures Sound(sha, Ran(sha, w, c, req))
  {
    hide Valid, Sound, Exec, Grows, Resume;
    Adds(w.db, req);
    HandedOver(sha, w, c, Exec(w.db, req).0, Resume(sha, w.calls[c], Exec(w.db, req).1));
  }

  lemma RanSound(sha: string -> Digest, w: World, c: nat, now: Time, start: Time, id: Id)
    requires Valid(w.db) && Sound(sha, w) && c in w.calls && RequestOf(sha, w.calls[c], now, start, id).Some?
    ensures Sound(sha, Ran(sha, w, c, RequestOf(sha, w.calls[c], now, start, id).value))
  {
    hide Valid, Sound, Exec, Ran, Ref;
    match w.calls[c]
    case Approving(_, token, expiresAt) =>
      ApprovingSound(sha, w, c, CandidateOf(sha, SIGNUP, token, expiresAt), now, start);
    case Submitting(_, _, token, expiresAt) =>
      SubmittingSound(sha, w, c, CandidateOf(sha, REVIEW, token, expiresAt), start, id);
    case SubmittingPlain(form, since) => OtherSound(sha, w, c, Create(form, since, None, id, start));
    case Consuming(d, email, claim) => OtherSound(sha, w, c, Consume(d, email, claim, now));
  }

  lemma RolledBackSound(sha: string -> Digest, w: World, c: nat, now: Time, start: Time, id: Id)
    requires Sound(sha, w) && c in w.calls
    ensures Sound(sha, StepTransact(sha, w, c, now, start, id, RollsBack))
  {
    hide Sound, Exec;
    CallSoundAt(sha, w, c);
    CallMoves(sha, w, c, Resume(sha, w.calls[c], Failed(Storage)));
  }

  /** A lost commit that changed nothing is a rollback as far as anyone can see. */
  lemma LostIsRolledBack(sha: string -> Digest, w: World, c: nat, now: Time, start: Time, id: Id)
    requires c in w.calls && StepTransact(sha, w, c, now, start, id, CommitLost).db == w.db
    ensures StepTransact(sha, w, c, now, start, id, CommitLost) == StepTransact(sha, w, c, now, start, id, RollsBack)
  {
    hide Exec, Resume, RequestOf;
  }

  lemma HoldsNothing(sha: string -> Digest, call: Call, now: Time, start: Time, id: Id)
    requires call.SubmittingPlain? || call.Consuming?
    ensures RequestOf(sha, call, now, start, id).Some?
    ensures var req := RequestOf(sha, call, now, start, id).value;
      !req.Approve? && !(req.Create? && req.capability.Some?)
    ensures Resume(sha, call, Failed(Storage)) == Done(Rejected(Storage))
  {
  }

  lemma LostSound(sha: string -> Digest, w: World, c: nat, now: Time, start: Time, id: Id)
    requires Valid(w.db) && Sound(sha, w) && c in w.calls && (w.calls[c].SubmittingPlain? || w.calls[c].Consuming?)
    ensures Sound(sha, StepTransact(sha, w, c, now, start, id, CommitLost))
  {
    hide Valid, Sound, Exec, Resume, RequestOf, Grows, IsConsumed;
    HoldsNothing(sha, w.calls[c], now, start, id);
    var req := RequestOf(sha, w.calls[c], now, start, id).value;
    Adds(w.db, req);
    HandedOver(sha, w, c, Exec(w.db, req).0, Done(Rejected(Storage)));
    var w' := WithCall(w, c, Done(Rejected(Storage))).(db := Exec(w.db, req).0);
    var end := StepTransact(sha, w, c, now, start, id, CommitLost);
    FlagsFree(sha, w', end.leaky, end.orphaned);
  }

  lemma TransactSound(sha: string -> Digest, w: World, c: nat, now: Time, start: Time, id: Id, fate: Fate)
    requires Valid(w.db) && Sound(sha, w) && c in w.calls
    requires !Orphans(w.calls[c], w.db, StepTransact(sha, w, c, now, start, id, fate).db, fate)
    ensures Sound(sha, StepTransact(sha, w, c, now, start, id, fate))
  {
    hide Valid, Sound, Exec, Resume, Ref;
    if RequestOf(sha, w.calls[c], now, start, id).Some? {
      match fate
      case Commits => RanSound(sha, w, c, now, start, id);
      case RollsBack => RolledBackSound(sha, w, c, now, start, id);
      case CommitLost =>
        if StepTransact(sha, w, c, now, start, id, fate).db == w.db {
          LostIsRolledBack(sha, w, c, now, start, id);
          RolledBackSound(sha, w, c, now, start, id);
        } else {
          LostSound(sha, w, c, now, start, id);
        }
    }
  }

  lemma DirectSound(sha: string -> Digest, w: World, req: Request, fate: Fate)
    requires Valid(w.db) && Sound(sha, w) && DatabaseOnly(req)
    ensures Sound(sha, w.(db := Outcome(w.db, req, fate).0))
  {
    hide Valid, Sound, Exec, Grows;
    Adds(w.db, req);
    if fate != RollsBack { DatabaseMoves(sha, w, Exec(w.db, req).0); }
  }

  lemma FlagsFree(sha: string -> Digest, w: World, leaky: bool, orphaned: bool)
    requires Sound(sha, w)
    ensures Sound(sha, w.(leaky := leaky, orphaned := orphaned))
  {
    hide Coherent, CallsSound, Exclusive, MailSound;
  }

  lemma CleaningNames(sha: string -> Digest, w: World, c: nat)
    requires Agrees(sha, w) && c in w.calls && w.calls[c].Cleaning?
    ensures IsConsumed(w.db, w.calls[c].digest) && w.calls[c].reference == Ref(SIGNUP, w.calls[c].digest)
  {
    CallAt(sha, w, c);
    hide Valid, VaultOk, CallsAgree, SentAgree, NotifiedOnce, Ref;
  }

  lemma ReadingNames(sha: string -> Digest, w: World, c: nat)
    requires Agrees(sha, w) && c in w.calls && w.calls[c].Reading?
    ensures w.calls[c].approval.reference == Ref(SIGNUP, w.calls[c].approval.digest)
  {
    CallAt(sha, w, c);
    hide Valid, VaultOk, CallsAgree, SentAgree, NotifiedOnce, Ref;
  }

  /** A call gives up its claim on a token and deletes it, or fails to. */
  lemma Deleted(sha: string -> Digest, w: World, c: nat, call: Call, scope: string, d: Digest, ok: bool)
    requires Agrees(sha, w) && Sound(sha, w) && c in w.calls
    requires (call.Done? || call.Reading?) && CallAgrees(sha, w.db, call)
    requires
      if scope == REVIEW then d !in w.db.reviews else scope == SIGNUP && (d in w.db.grants ==> IsConsumed(w.db, d))
    requires forall e :: e in w.calls && e != c && Holds(sha, w.calls[e]) == Some((scope, d)) ==>
      scope == SIGNUP && IsConsumed(w.db, d)
    ensures Sound(sha, WithCall(w, c, call).(
      vault := if ok then w.vault - {Ref(scope, d)} else w.vault, leaky := w.leaky || !ok))
  {
    hide Agrees, Sound, Ref, CallAgrees, IsConsumed;
    LocalAgrees(sha, w, c, call);
    CallMoves(sha, w, c, call);
    var w1 := WithCall(w, c, call);
    if ok {
      TokenRemoved(sha, w1, scope, d);
      FlagsFree(sha, w1.(vault := w.vault - {Ref(scope, d)}), w.leaky, w.orphaned);
    } else {
      FlagsFree(sha, w1, true, w.orphaned);
    }
  }

  lemma DeleteSound(sha: string -> Digest, w: World, c: nat, ok: bool)
    requires Agrees(sha, w) && Sound(sha, w) && c in w.calls
    ensures Sound(sha, StepDelete(w, c, ok))
  {
    hide Agrees, Sound, Ref, CallAgrees, After;
    assert REVIEW[0] != SIGNUP[0];
    match w.calls[c]
    case Discarding(scope, d, next) =>
      CallAt(sha, w, c);
      AfterAgrees(sha, w.db, w.calls[c]);
      AfterShape(next);
      CallSoundAt(sha, w, c);
      Deleted(sha, w, c, After(next), scope, d, ok);
    case Cleaning(d, reference, g) =>
      CleaningNames(sha, w, c);
      DoneAgrees(sha, w.db, ConsumedAs(g));
      Deleted(sha, w, c, Done(ConsumedAs(g)), SIGNUP, d, ok);
    case _ =>
  }

  lemma AfterShape(next: Next)
    ensures After(next).Done? || After(next).Reading?
  {
  }

  lemma DoneAgrees(sha: string -> Digest, db: Db, result: Result)
    ensures CallAgrees(sha, db, Done(result))
  {
  }

  lemma ReadSound(sha: string -> Digest, w: World, c: nat, ok: bool)
    requires Agrees(sha, w) && Sound(sha, w) && c in w.calls
    ensures Sound(sha, StepRead(w, c, ok))
  {
    hide Agrees, Sound, Ref;
    match w.calls[c]
    case Reading(a) =>
      ReadingNames(sha, w, c);
      CallMoves(sha, w, c, Done(Unavailable));
      if a.reference in w.vault { CallMoves(sha, w, c, Verifying(a, w.vault[a.reference])); }
    case _ =>
  }

  lemma VerifySound(sha: string -> Digest, w: World, c: nat)
    requires Sound(sha, w) && c in w.calls
    ensures Sound(sha, StepVerify(sha, w, c))
  {
    hide Sound, Kept;
    match w.calls[c]
    case Verifying(a, token) =>
      CallSoundAt(sha, w, c);
      CallMoves(sha, w, c, Done(IntegrityFailed));
      CallMoves(sha, w, c, Sending(a, token));
    case _ =>
  }

  lemma SendSound(sha: string -> Digest, w: World, c: nat, delivered: bool, reported: bool)
    requires Agrees(sha, w) && Sound(sha, w) && c in w.calls
    ensures Sound(sha, StepSend(w, c, delivered, reported))
  {
    hide Agrees, Coherent, CallsSound, Exclusive, MailSound, Kept;
    CallAt(sha, w, c);
    CallSoundAt(sha, w, c);
    match w.calls[c]
    case Sending(a, token) =>
      var done := Done(if reported then Delivered else DeliveryFailed);
      CallMoves(sha, w, c, done);
      MailGrows(sha, w.db, w.vault, w.mail, Mail(a.application, a.email, token, a.expiresAt));
    case Notifying(id, token, expiresAt) => CallMoves(sha, w, c, Done(Accepted));
    case _ =>
  }

  lemma MailGrows(sha: string -> Digest, db: Db, vault: map<Reference, string>, mail: seq<Mail>, m: Mail)
    requires MailSound(sha, db, vault, mail) && Kept(db, vault, sha(m.token), m.token)
    ensures MailSound(sha, db, vault, mail + [m])
  {
    hide Kept;
  }

  lemma StartSound(sha: string -> Digest, w: World, l: Label)
    requires Sound(sha, w) && (l.StartApprove? || l.StartSubmit? || l.StartConsume?) && l.call !in w.calls
    ensures Sound(sha, Step(sha, w, l))
  {
    hide Sound, PutToken, ValidToken;
    match l
    case StartApprove(c, reviewToken, token, expiresAt) =>
      CallMoves(sha, w, c, Done(Rejected(InvalidReview)));
      PutSound(sha, w, c, SIGNUP, token, Approving(sha(reviewToken), token, expiresAt));
    case StartSubmit(c, form, since, token, expiresAt) =>
      CallMoves(sha, w, c, SubmittingPlain(form, since));
      PutSound(sha, w, c, REVIEW, token, Submitting(form, since, token, expiresAt));
    case StartConsume(c, grantToken, email, claim) =>
      CallMoves(sha, w, c, Done(Rejected(InvalidGrant)));
      CallMoves(sha, w, c, Consuming(sha(grantToken), email, claim));
  }

  /** A lost commit that coherence does not survive: an approval that inserts its grant, or a
      submission that inserts its review. A lost consumption, a lost waitlist submission, and a
      lost commit that changed nothing are harmless. */
  ghost predicate Harmful(sha: string -> Digest, w: World, l: Label) {
    && l.Transact? && l.call in w.calls
    && Orphans(w.calls[l.call], w.db, StepTransact(sha, w, l.call, l.now, l.start, l.id, l.fate).db, l.fate)
  }

  lemma ValidIn(sha: string -> Digest, w: World)
    requires Agrees(sha, w)
    ensures Valid(w.db)
  {
    hide Valid, RowReferences, VaultOk, CallsAgree, SentAgree, NotifiedOnce;
  }

  lemma StepSound(sha: string -> Digest, w: World, l: Label)
    requires Agrees(sha, w) && Sound(sha, w) && !Harmful(sha, w, l)
    ensures Sound(sha, Step(sha, w, l))
  {
    hide Agrees, Valid, Sound, PutToken, ValidToken, WithCall, StepTransact, StepDelete, StepRead, StepVerify,
      StepSend, Outcome, DatabaseOnly;
    ValidIn(sha, w);
    match l
    case Transact(c, now, start, id, fate) => if c in w.calls { TransactSound(sha, w, c, now, start, id, fate); }
    case Direct(req, fate) => if DatabaseOnly(req) { DirectSound(sha, w, req, fate); }
    case Delete(c, ok) => if c in w.calls { DeleteSound(sha, w, c, ok); }
    case Read(c, ok) => if c in w.calls { ReadSound(sha, w, c, ok); }
    case Verify(c) => if c in w.calls { VerifySound(sha, w, c); }
    case Send(c, delivered, reported) => if c in w.calls { SendSound(sha, w, c, delivered, reported); }
    case Crash(c) => CallGone(sha, w, c);
    case _ => if l.call !in w.calls { StartSound(sha, w, l); }
  }
}
