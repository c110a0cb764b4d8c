/** What is left over. A token that its call put and then lost, by a crash or a failed delete, before
    any row was in charge of it stays in the store for good: nothing of the service removes it. */
module Leaks {
  import opened Base
  import opened Schema
  import opened Transactions
  import opened Tokens
  import opened Protocol
  import opened Messages
  import opened Coherence
  import opened Quiescence

  // ---- The two flags of a world -----------------------------------------------------------------

  /** Step i of the run leaks, or harmfully loses a commit. */
  ghost predicate LeaksAt(sha: string -> Digest, w: World, labels: seq<Label>, i: nat)
    requires i < |labels|
  {
    Leaks(sha, Run(sha, w, labels[..i]), labels[i])
  }

  ghost predicate HarmsAt(sha: string -> Digest, w: World, labels: seq<Label>, i: nat)
    requires i < |labels|
  {
    Harmful(sha, Run(sha, w, labels[..i]), labels[i])
  }

  lemma SameAt(sha: string -> Digest, w: World, labels: seq<Label>, n: nat)
    requires n <= |labels|
    ensures forall i: nat :: i < n ==> LeaksAt(sha, w, labels[..n], i) == LeaksAt(sha, w, labels, i)
    ensures forall i: nat :: i < n ==> HarmsAt(sha, w, labels[..n], i) == HarmsAt(sha, w, labels, i)
  {
    hide Run, Leaks, Harmful;
    forall i: nat | i < n
      ensures LeaksAt(sha, w, labels[..n], i) == LeaksAt(sha, w, labels, i)
      ensures HarmsAt(sha, w, labels[..n], i) == HarmsAt(sha, w, labels, i)
    {
      assert labels[..n][..i] == labels[..i];
    }
  }

  lemma LastTells(sha: string -> Digest, w: World, labels: seq<Label>)
    requires labels != []
    ensures var n: nat := |labels| - 1; var before, after := Run(sha, w, labels[..n]), Run(sha, w, labels);
      && (after.leaky <==> before.leaky || LeaksAt(sha, w, labels, n))
      && (after.orphaned <==> before.orphaned || HarmsAt(sha, w, labels, n))
  {
    hide Step, Leaks, Harmful;
    FlagsTell(sha, Run(sha, w, labels[..|labels| - 1]), labels[|labels| - 1]);
  }

  lemma {:induction false} FlagsSince(sha: string -> Digest, w: World, labels: seq<Label>)
    ensures var w' := Run(sha, w, labels);
      && (w'.leaky <==> w.leaky || exists i: nat :: i < |labels| && LeaksAt(sha, w, labels, i))
      && (w'.orphaned <==> w.orphaned || exists i: nat :: i < |labels| && HarmsAt(sha, w, labels, i))
  {
    hide LeaksAt, HarmsAt, Step;
    if labels != [] {
      var n := |labels| - 1;
      hide Run;
      FlagsSince(sha, w, labels[..n]);
      LastTells(sha, w, labels);
      SameAt(sha, w, labels, n);
    }
  }

  /** A run is leaky iff one of its steps crashes a call, fails to delete a token, or consumes a grant
      without its client learning of it; and it is orphaned iff one of its steps inserts a grant or a
      review without its client learning of it. */
  lemma FlagsIff(sha: string -> Digest, db: Db, labels: seq<Label>)
    ensures Run(sha, Initial(db), labels).leaky <==>
      exists i: nat :: i < |labels| && LeaksAt(sha, Initial(db), labels, i)
    ensures Run(sha, Initial(db), labels).orphaned <==>
      exists i: nat :: i < |labels| && HarmsAt(sha, Initial(db), labels, i)
    ensures forall i: nat :: i < |labels| ==>
      var w, l := Run(sha, Initial(db), labels[..i]), labels[i];
      && (LeaksAt(sha, Initial(db), labels, i) <==>
            && !l.Direct? && l.call in w.calls
            && (|| l.Crash?
                || (l.Delete? && !l.ok && (w.calls[l.call].Discarding? || w.calls[l.call].Cleaning?))
                || (l.Transact? && l.fate == CommitLost && w.calls[l.call].Consuming? && Step(sha, w, l).db != w.db)))
      && (HarmsAt(sha, Initial(db), labels, i) <==>
            && l.Transact? && l.fate == CommitLost && l.call in w.calls
            && (w.calls[l.call].Approving? || w.calls[l.call].Submitting?) && Step(sha, w, l).db != w.db)
  {
    FlagsSince(sha, Initial(db), labels);
    hide Run, StepTransact;
  }

  // ---- Tokens without an owner ------------------------------------------------------------------

  /** The token is stored, but no row names it and no call in flight is going to delete it. */
  ghost predicate Abandoned(sha: string -> Digest, w: World, scope: string, d: Digest) {
    && ValidScope(scope) && Ref(scope, d) in w.vault
    && (if scope == REVIEW then d !in w.db.reviews else d !in w.db.grants)
    && forall c :: c in w.calls ==> Disowns(sha, w.calls[c], scope, d)
  }

  predicate Disowns(sha: string -> Digest, call: Call, scope: string, d: Digest) {
    Holds(sha, call) != Some((scope, d)) && (call.Discarding? ==> ValidScope(call.scope))
  }

  lemma ScopesApart(scope: string, other: string, d: Digest, e: Digest)
    requires ValidScope(scope) && ValidScope(other) && (scope, d) != (other, e)
    ensures Ref(scope, d) != Ref(other, e)
  {
    OtherReference(scope, d, other, e);
  }

  lemma Stored(sha: string -> Digest, w: World, scope: string, d: Digest)
    requires Abandoned(sha, w, scope, d)
    ensures Ref(scope, d) in w.vault
  {
  }

  lemma CallAbandons(sha: string -> Digest, w: World, c: nat, w': World, scope: string, d: Digest)
    requires Abandoned(sha, w, scope, d) && w'.db == w.db && c in w'.calls && w'.calls == w.calls[c := w'.calls[c]]
    requires Disowns(sha, w'.calls[c], scope, d)
    requires Ref(scope, d) in w'.vault
    ensures Abandoned(sha, w', scope, d)
  {
    hide Ref, Disowns;
  }

  lemma PutAbandons(sha: string -> Digest, w: World, c: nat, own: string, token: string, call: Call,
      scope: string, d: Digest)
    requires Abandoned(sha, w, scope, d) && ValidScope(own)
    requires Holds(sha, call) == Some((own, sha(token))) && !call.Discarding?
    ensures var w' := PutToken(sha, w, c, own, token, call);
      Abandoned(sha, w', scope, d) && w'.vault[Ref(scope, d)] == w.vault[Ref(scope, d)]
  {
    if (own, sha(token)) != (scope, d) { ScopesApart(own, scope, sha(token), d); }
    hide Ref;
    var w' := PutToken(sha, w, c, own, token, call);
    assert Disowns(sha, w'.calls[c], scope, d);
    hide Abandoned;
    CallAbandons(sha, w, c, w', scope, d);
  }

  lemma ResumeDisowns(sha: string -> Digest, call: Call, answer: Answer, scope: string, d: Digest)
    requires Disowns(sha, call, scope, d)
    ensures Disowns(sha, Resume(sha, call, answer), scope, d)
  {
  }

  /** No transaction of another call makes a row with this token. */
  lemma RowsAbandon(sha: string -> Digest, w: World, req: Request, scope: string, d: Digest)
    requires Valid(w.db) && Abandoned(sha, w, scope, d)
    requires req.Approve? ==> (SIGNUP, req.candidate.digest) != (scope, d)
    requires req.Create? && req.capability.Some? ==> (REVIEW, req.capability.value.digest) != (scope, d)
    ensures Abandoned(sha, w.(db := Exec(w.db, req).0), scope, d)
  {
    ExecSources(w.db, req);
    hide Valid, Exec, Ref, Disowns;
  }

  lemma TransactAbandons(sha: string -> Digest, w: World, c: nat, now: Time, start: Time, id: Id, fate: Fate,
      scope: string, d: Digest)
    requires Valid(w.db) && Abandoned(sha, w, scope, d) && c in w.calls
    ensures var w' := StepTransact(sha, w, c, now, start, id, fate);
      Abandoned(sha, w', scope, d) && w'.vault == w.vault
  {
    var call := w.calls[c];
    if RequestOf(sha, call, now, start, id).Some? {
      var req := RequestOf(sha, call, now, start, id).value;
      RowsAbandon(sha, w, req, scope, d);
      ResumeDisowns(sha, call, Outcome(w.db, req, fate).1, scope, d);
      hide Valid, Exec, Ref, Resume, RequestOf, Disowns;
    }
  }

  lemma AfterDisowns(sha: string -> Digest, next: Next, scope: string, d: Digest)
    ensures Disowns(sha, After(next), scope, d)
  {
  }

  lemma DeleteAbandons(sha: string -> Digest, w: World, c: nat, ok: bool, scope: string, d: Digest)
    requires Agrees(sha, w) && Abandoned(sha, w, scope, d) && c in w.calls
    ensures var w' := StepDelete(w, c, ok);
      Abandoned(sha, w', scope, d) && w'.vault[Ref(scope, d)] == w.vault[Ref(scope, d)]
  {
    hide Ref, Agrees;
    if w.calls[c].Discarding? {
      assert Disowns(sha, w.calls[c], scope, d);
      ScopesApart(w.calls[c].scope, scope, w.calls[c].digest, d);
      AfterDisowns(sha, w.calls[c].next, scope, d);
      hide Abandoned, After, Disowns;
      CallAbandons(sha, w, c, StepDelete(w, c, ok), scope, d);
    } else if w.calls[c].Cleaning? {
      CleaningNames(sha, w, c);
      assert (SIGNUP, w.calls[c].digest) != (scope, d);
      ScopesApart(SIGNUP, scope, w.calls[c].digest, d);
      hide Abandoned;
      CallAbandons(sha, w, c, StepDelete(w, c, ok), scope, d);
    }
  }

  /** Steps that leave the rows and the store alone. */
  lemma ReplyAbandons(sha: string -> Digest, w: World, c: nat, ok: bool, delivered: bool, reported: bool,
      scope: string, d: Digest)
    requires Abandoned(sha, w, scope, d) && c in w.calls
    ensures Abandoned(sha, StepRead(w, c, ok), scope, d) && StepRead(w, c, ok).vault == w.vault
    ensures Abandoned(sha, StepVerify(sha, w, c), scope, d) && StepVerify(sha, w, c).vault == w.vault
    ensures Abandoned(sha, StepSend(w, c, delivered, reported), scope, d)
      && StepSend(w, c, delivered, reported).vault == w.vault
  {
    hide Ref;
  }

  lemma StartAbandons(sha: string -> Digest, w: World, l: Label, scope: string, d: Digest)
    requires Abandoned(sha, w, scope, d) && (l.StartApprove? || l.StartSubmit? || l.StartConsume?)
    ensures var w' := Step(sha, w, l);
      Abandoned(sha, w', scope, d) && w'.vault[Ref(scope, d)] == w.vault[Ref(scope, d)]
  {
    if l.call !in w.calls {
      hide PutToken, ValidToken, Ref, Abandoned;
      Stored(sha, w, scope, d);
      match l
      case StartApprove(c, reviewToken, token, expiresAt) =>
        CallAbandons(sha, w, c, WithCall(w, c, Done(Rejected(InvalidReview))), scope, d);
        PutAbandons(sha, w, c, SIGNUP, token, Approving(sha(reviewToken), token, expiresAt), scope, d);
      case StartSubmit(c, form, since, token, expiresAt) =>
        CallAbandons(sha, w, c, WithCall(w, c, SubmittingPlain(form, since)), scope, d);
        PutAbandons(sha, w, c, REVIEW, token, Submitting(form, since, token, expiresAt), scope, d);
      case StartConsume(c, grantToken, email, claim) =>
        CallAbandons(sha, w, c, WithCall(w, c, Done(Rejected(InvalidGrant))), scope, d);
        CallAbandons(sha, w, c, WithCall(w, c, Consuming(sha(grantToken), email, claim)), scope, d);
    }
  }

  lemma CrashAbandons(sha: string -> Digest, w: World, c: nat, scope: string, d: Digest)
    requires Abandoned(sha, w, scope, d)
    ensures Abandoned(sha, w.(calls := w.calls - {c}, leaky := true), scope, d)
  {
    hide Ref, Disowns;
  }

  lemma DirectAbandons(sha: string -> Digest, w: World, req: Request, fate: Fate, scope: string, d: Digest)
    requires Valid(w.db) && Abandoned(sha, w, scope, d) && DatabaseOnly(req)
    ensures Abandoned(sha, w.(db := Outcome(w.db, req, fate).0), scope, d)
  {
    hide Valid, Exec, Abandoned;
    RowsAbandon(sha, w, req, scope, d);
  }

  lemma StepAbandons(sha: string -> Digest, w: World, l: Label, scope: string, d: Digest)
    requires Agrees(sha, w) && Abandoned(sha, w, scope, d)
    ensures var w' := Step(sha, w, l);
      Abandoned(sha, w', scope, d) && w'.vault[Ref(scope, d)] == w.vault[Ref(scope, d)]
  {
    ValidIn(sha, w);
    hide Agrees, Valid, Abandoned, Ref, PutToken, ValidToken, StepDelete, StepRead, StepVerify, StepSend, StepTransact;
    hide Exec;
    assert Ref(scope, d) in w.vault by { Stored(sha, w, scope, d); }
    match l
    case StartApprove(_, _, _, _) => StartAbandons(sha, w, l, scope, d);
    case StartSubmit(_, _, _, _, _) => StartAbandons(sha, w, l, scope, d);
    case StartConsume(_, _, _, _) => StartAbandons(sha, w, l, scope, d);
    case Transact(c, now, start, id, fate) =>
      if c in w.calls { TransactAbandons(sha, w, c, now, start, id, fate, scope, d); }
    case Direct(req, fate) =>
      if DatabaseOnly(req) { DirectAbandons(sha, w, req, fate, scope, d); }
    case Delete(c, ok) => if c in w.calls { DeleteAbandons(sha, w, c, ok, scope, d); }
    case Read(c, ok) => if c in w.calls { ReplyAbandons(sha, w, c, ok, true, true, scope, d); }
    case Verify(c) => if c in w.calls { ReplyAbandons(sha, w, c, true, true, true, scope, d); }
    case Send(c, delivered, reported) =>
      if c in w.calls { ReplyAbandons(sha, w, c, true, delivered, reported, scope, d); }
    case Crash(c) => CrashAbandons(sha, w, c, scope, d);
  }

  lemma {:induction false} RunAbandons(sha: string -> Digest, w: World, labels: seq<Label>, scope: string, d: Digest)
    requires Agrees(sha, w) && Abandoned(sha, w, scope, d)
    ensures var w' := Run(sha, w, labels);
      Abandoned(sha, w', scope, d) && w'.vault[Ref(scope, d)] == w.vault[Ref(scope, d)]
  {
    hide Step, Abandoned, Agrees, Ref;
    if labels != [] {
      var n := |labels| - 1;
      RunAbandons(sha, w, labels[..n], scope, d);
      RunAgrees(sha, w, labels[..n]);
      StepAbandons(sha, Run(sha, w, labels[..n]), labels[n], scope, d);
    }
  }

  // ---- For good ---------------------------------------------------------------------------------

  /** The step crashes a call that has put a token and not handed it over, or fails to delete it. */
  ghost predicate Loses(sha: string -> Digest, w: World, l: Label) {
    && (l.Crash? || (l.Delete? && !l.ok && l.call in w.calls && w.calls[l.call].Discarding?))
    && l.call in w.calls && Holds(sha, w.calls[l.call]).Some?
  }

  lemma HeldIsStored(sha: string -> Digest, w: World, c: nat)
    requires Sound(sha, w) && c in w.calls && Holds(sha, w.calls[c]).Some?
    ensures var (scope, d) := Holds(sha, w.calls[c]).value;
      && ValidScope(scope) && (scope == REVIEW ==> d !in w.db.reviews)
      && ((scope == SIGNUP ==> d !in w.db.grants) ==> Ref(scope, d) in w.vault)
  {
    CallSoundAt(sha, w, c);
    hide Sound, Ref, Kept;
  }

  lemma OthersDisown(sha: string -> Digest, w: World, c: nat, e: nat)
    requires Sound(sha, w) && c in w.calls && Holds(sha, w.calls[c]).Some? && e in w.calls && e != c
    requires var (scope, d) := Holds(sha, w.calls[c]).value; scope == SIGNUP ==> d !in w.db.grants
    ensures var (scope, d) := Holds(sha, w.calls[c]).value; Disowns(sha, w.calls[e], scope, d)
  {
    if w.calls[e].Discarding? { HeldIsStored(sha, w, e); }
    hide Coherent, CallsSound, MailSound, Ref;
  }

  lemma LostAbandons(sha: string -> Digest, w: World, l: Label)
    requires Sound(sha, w) && Loses(sha, w, l)
    requires var (scope, d) := Holds(sha, w.calls[l.call]).value; scope == SIGNUP ==> d !in w.db.grants
    ensures var (scope, d) := Holds(sha, w.calls[l.call]).value; var w' := Step(sha, w, l);
      Abandoned(sha, w', scope, d) && w'.vault == w.vault
  {
    var (scope, d) := Holds(sha, w.calls[l.call]).value;
    HeldIsStored(sha, w, l.call);
    forall e | e in w.calls && e != l.call ensures Disowns(sha, w.calls[e], scope, d) {
      OthersDisown(sha, w, l.call, e);
    }
    if l.Delete? { AfterDisowns(sha, w.calls[l.call].next, scope, d); }
    hide Sound, Ref, Holds, After, Disowns;
  }

  lemma AbandonedIsNoSecret(sha: string -> Digest, w: World, scope: string, d: Digest)
    requires Agrees(sha, w) && Abandoned(sha, w, scope, d)
    ensures Ref(scope, d) !in Secrets(w.db)
  {
    hide Valid, VaultOk, CallsAgree, SentAgree, NotifiedOnce, Ref;
    forall e | e in w.db.reviews ensures w.db.reviews[e].reference != Ref(scope, d) {
      ScopesApart(REVIEW, scope, e, d);
    }
    forall e | e in w.db.grants ensures w.db.grants[e].reference != Ref(scope, d) {
      ScopesApart(SIGNUP, scope, e, d);
    }
  }

  /** The token that a call in flight has put and not yet handed over. */
  ghost predicate Carries(sha: string -> Digest, call: Call, scope: string, d: Digest) {
    || (call.Approving? && scope == "signup" && d == sha(call.token))
    || (call.Submitting? && scope == "review" && d == sha(call.token))
    || (call.Discarding? && scope == call.scope && d == call.digest)
  }

  lemma CarriesHeld(sha: string -> Digest, call: Call, scope: string, d: Digest)
    ensures Carries(sha, call, scope, d) <==> Holds(sha, call) == Some((scope, d))
  {
  }

  /** Leaks are for good. A call that crashes between its put and the row that would own the token, or
      whose delete of a token nobody owns fails, leaves that token in the store through every
      continuation of the run, while no live row ever names it. The token of a grant already consumed
      is excepted: a repeated consumption deletes that again. */
  lemma LeakedForGood(sha: string -> Digest, db: Db, labels: seq<Label>, l: Label, more: seq<Label>,
      scope: string, d: Digest)
    requires Fresh(db) && !Run(sha, Initial(db), labels).orphaned
    requires var w := Run(sha, Initial(db), labels);
      && (l.Crash? || (l.Delete? && !l.ok)) && l.call in w.calls && Carries(sha, w.calls[l.call], scope, d)
      && (l.Delete? ==> w.calls[l.call].Discarding?) && (scope == "signup" ==> d !in w.db.grants)
    ensures var w := Run(sha, Initial(db), labels); var v := Run(sha, Initial(db), labels + [l] + more);
      && Ref(scope, d) in w.vault && Ref(scope, d) in v.vault && v.vault[Ref(scope, d)] == w.vault[Ref(scope, d)]
      && Ref(scope, d) !in Secrets(v.db)
  {
    var w := Run(sha, Initial(db), labels);
    hide Run, Step, Agrees, Sound, Accounted, Abandoned, Ref, Secrets, Carries, Holds;
    CarriesHeld(sha, w.calls[l.call], scope, d);
    InitialSafe(sha, db);
    RunSafe(sha, Initial(db), labels);
    LostAbandons(sha, w, l);
    StepAgrees(sha, w, l);
    Stored(sha, Step(sha, w, l), scope, d);
    RunMore(sha, Initial(db), labels, l);
    RunAbandons(sha, Step(sha, w, l), more, scope, d);
    RunAppend(sha, Initial(db), labels + [l], more);
    RunAgrees(sha, Step(sha, w, l), more);
    var v := Run(sha, Step(sha, w, l), more);
    Stored(sha, v, scope, d);
    AbandonedIsNoSecret(sha, v, scope, d);
  }
}
