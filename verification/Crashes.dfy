/** A call that crashes while its transaction runs. The database then ends the transaction either
    way, without anybody to tell. Every such run comes to the same state as the run in which the
    call waits for the end of its transaction and crashes then, which Composition has. */
module Crashes {
  import opened Base
  import opened Schema
  import opened Transactions
  import opened Tokens
  import opened Protocol
  import opened Composition
  import Interleaving

  /** The world without call c: what its crash at this moment leaves. */
  function WithoutCall(front: World, c: nat): World {
    front.(calls := front.calls - {c}, leaky := true)
  }

  /** And what it leaves of the whole: the transaction runs on. */
  function Without(w: Whole, c: nat): Whole {
    w.(front := WithoutCall(w.front, c))
  }

  /** What can happen to the others and to the transaction. Nothing is a step of the crashed call;
      an acknowledgement nobody waits for is not lost. */
  predicate Spares(a: Act, c: nat) {
    match a
    case Service(l) => l.Direct? || l.call != c
    case LoseCommit(t) => t != c
    case Receive(e) => e != c
    case _ => true
  }

  /** The call's transaction has begun. */
  predicate Running(w: Whole, c: nat) {
    c in w.sys.txs
  }

  // ---- A step of another call -------------------------------------------------------------------

  lemma SetCommutes(w: World, c: nat, e: nat, call: Call)
    requires e != c
    ensures WithCall(WithoutCall(w, c), e, call) == WithoutCall(WithCall(w, e, call), c)
    ensures e in w.calls <==> e in WithoutCall(w, c).calls
    ensures e in w.calls ==> WithoutCall(w, c).calls[e] == w.calls[e]
  {
  }

  lemma DeleteCommutes(w: World, c: nat, e: nat, ok: bool)
    requires e != c && e in w.calls
    ensures e in WithoutCall(w, c).calls && StepDelete(WithoutCall(w, c), e, ok) == WithoutCall(StepDelete(w, e, ok), c)
  {
    hide Ref, After;
    if w.calls[e].Discarding? { SetCommutes(w, c, e, After(w.calls[e].next)); }
    else if w.calls[e].Cleaning? { SetCommutes(w, c, e, Done(ConsumedAs(w.calls[e].view))); }
  }

  lemma ReadCommutes(sha: string -> Digest, w: World, c: nat, e: nat, ok: bool)
    requires e != c && e in w.calls
    ensures e in WithoutCall(w, c).calls
    ensures StepRead(WithoutCall(w, c), e, ok) == WithoutCall(StepRead(w, e, ok), c)
    ensures StepVerify(sha, WithoutCall(w, c), e) == WithoutCall(StepVerify(sha, w, e), c)
  {
    if w.calls[e].Reading? { SetCommutes(w, c, e, StepRead(w, e, ok).calls[e]); }
    else if w.calls[e].Verifying? { SetCommutes(w, c, e, StepVerify(sha, w, e).calls[e]); }
  }

  lemma SendCommutes(w: World, c: nat, e: nat, delivered: bool, reported: bool)
    requires e != c && e in w.calls
    ensures e in WithoutCall(w, c).calls
    ensures StepSend(WithoutCall(w, c), e, delivered, reported) == WithoutCall(StepSend(w, e, delivered, reported), c)
  {
    if w.calls[e].Sending? || w.calls[e].Notifying? {
      SetCommutes(w, c, e, StepSend(w, e, delivered, reported).calls[e]);
    }
  }

  lemma PutCommutes(sha: string -> Digest, w: World, c: nat, e: nat, scope: string, token: string, call: Call)
    requires e != c
    ensures PutToken(sha, WithoutCall(w, c), e, scope, token, call)
      == WithoutCall(PutToken(sha, w, e, scope, token, call), c)
  {
    hide Ref;
    SetCommutes(w, c, e, call);
    SetCommutes(w, c, e, Done(Rejected(Storage)));
  }

  lemma StepCommutes(sha: string -> Digest, w: World, c: nat, l: Label)
    requires !l.Transact? && !l.Direct? && l.call != c
    ensures Step(sha, WithoutCall(w, c), l) == WithoutCall(Step(sha, w, l), c)
  {
    hide PutToken, WithCall, StepDelete, StepRead, StepVerify, StepSend, ValidToken;
    match l
    case Delete(e, ok) => if e in w.calls { DeleteCommutes(w, c, e, ok); }
    case Read(e, ok) => if e in w.calls { ReadCommutes(sha, w, c, e, ok); }
    case Verify(e) => if e in w.calls { ReadCommutes(sha, w, c, e, true); }
    case Send(e, delivered, reported) => if e in w.calls { SendCommutes(w, c, e, delivered, reported); }
    case Crash(e) => assert w.calls - {c} - {e} == w.calls - {e} - {c};
    case StartApprove(e, r, token, expiresAt) =>
      SetCommutes(w, c, e, Done(Rejected(InvalidReview)));
      PutCommutes(sha, w, c, e, SIGNUP, token, Approving(sha(r), token, expiresAt));
    case StartSubmit(e, form, since, token, expiresAt) =>
      SetCommutes(w, c, e, SubmittingPlain(form, since));
      PutCommutes(sha, w, c, e, REVIEW, token, Submitting(form, since, token, expiresAt));
    case StartConsume(e, token, email, claim) =>
      SetCommutes(w, c, e, Done(Rejected(InvalidGrant)));
      SetCommutes(w, c, e, Consuming(sha(token), email, claim));
  }

  // ---- A step of the whole ----------------------------------------------------------------------

  lemma DoCommutes(h: string -> int, sha: string -> Digest, w: Whole, c: nat, a: Act)
    requires Running(w, c) && Spares(a, c)
    ensures Do(h, sha, Without(w, c), a) == Without(Do(h, sha, w, a), c)
  {
    hide Step, Interleaving.Step, Resume, RequestOf, Exec;
    match a
    case Service(l) => if ServiceEnabled(w, l) { StepCommutes(sha, w.front, c, l); }
    case BeginFor(e, now, start, id) =>
    case BeginDirect(t, req) =>
    case Database(l) =>
    case LoseCommit(t) =>
    case Receive(e) =>
      if e in w.front.calls && Awaits(w.front.calls[e]) && Ended(w.sys, e) {
        SetCommutes(w.front, c, e, Resume(sha, w.front.calls[e], Reply(w.sys, w.lost, e)));
      }
  }

  lemma TransactionsStay(h: string -> int, sys: Interleaving.System, l: Interleaving.Label, t: nat)
    requires t in sys.txs
    ensures t in Interleaving.Step(h, sys, l).txs
  {
    hide Transactions.PlanOf, Exec;
  }

  lemma StillRunning(h: string -> int, sha: string -> Digest, w: Whole, c: nat, a: Act)
    requires Running(w, c)
    ensures Running(Do(h, sha, w, a), c)
  {
    hide Step, Interleaving.Step, Resume, RequestOf, Unheard;
    match a
    case BeginFor(e, now, start, id) =>
      if e in w.front.calls && Awaits(w.front.calls[e]) {
        MakesOwn(sha, w.front.calls[e], now, start, id);
        TransactionsStay(h, w.sys, Interleaving.Begin(e, RequestOf(sha, w.front.calls[e], now, start, id).value), c);
      }
    case BeginDirect(t, req) => TransactionsStay(h, w.sys, Interleaving.Begin(t, req), c);
    case Database(l) => TransactionsStay(h, w.sys, l, c);
    case LoseCommit(t) => TransactionsStay(h, w.sys, Interleaving.Commit(t), c);
    case _ =>
  }

  /** Crashing at once, or waiting while all this happens and crashing then, is the same. */
  lemma {:induction false} CrashPostponed(h: string -> int, sha: string -> Digest, w: Whole, c: nat, acts: seq<Act>)
    requires Running(w, c) && forall i :: 0 <= i < |acts| ==> Spares(acts[i], c)
    ensures DoAll(h, sha, Without(w, c), acts) == Without(DoAll(h, sha, w, acts), c)
    ensures Running(DoAll(h, sha, w, acts), c)
  {
    hide Do, Without, Running, Spares;
    if acts != [] {
      var n := |acts| - 1;
      CrashPostponed(h, sha, w, c, acts[..n]);
      DoCommutes(h, sha, DoAll(h, sha, w, acts[..n]), c, acts[n]);
      StillRunning(h, sha, DoAll(h, sha, w, acts[..n]), c, acts[n]);
    }
  }

  /** So a run in which a call crashes in the middle of its transaction is, once the transaction
      has ended, one of the runs of Composition, and until then differs from one in nothing but
      that the call is gone. */
  lemma CrashIsCovered(h: string -> int, sha: string -> Digest, db: Db, past: seq<Act>, c: nat, acts: seq<Act>)
    requires var w := DoAll(h, sha, Start(db), past); Running(w, c) && c in w.front.calls
    requires forall i :: 0 <= i < |acts| ==> Spares(acts[i], c)
    ensures var early := DoAll(h, sha, Without(DoAll(h, sha, Start(db), past), c), acts);
      var late := DoAll(h, sha, Start(db), past + acts);
      && early == Without(late, c)
      && early.sys == late.sys && early.front.vault == late.front.vault
      && early.front.mail == late.front.mail && early.front.notices == late.front.notices
      && (Ended(late.sys, c) ==> early == DoAll(h, sha, Start(db), past + acts + [Service(Crash(c))]))
  {
    hide Do, DoAll, Running, Spares, Ended;
    var w := DoAll(h, sha, Start(db), past);
    CrashPostponed(h, sha, w, c, acts);
    CallStays(h, sha, w, c, acts);
    DoAppend(h, sha, Start(db), past, acts);
    var late := DoAll(h, sha, Start(db), past + acts);
    if Ended(late.sys, c) {
      CrashNow(h, sha, late, c);
      DoOne(h, sha, late, Service(Crash(c)));
      DoAppend(h, sha, Start(db), past + acts, [Service(Crash(c))]);
    }
  }

  lemma CrashNow(h: string -> int, sha: string -> Digest, w: Whole, c: nat)
    requires Ended(w.sys, c) && c in w.front.calls
    ensures Do(h, sha, w, Service(Crash(c))) == Without(w, c)
  {
  }

  lemma DoOne(h: string -> int, sha: string -> Digest, w: Whole, a: Act)
    ensures DoAll(h, sha, w, [a]) == Do(h, sha, w, a)
  {
    hide Do;
    assert [a][..0] == [];
    assert DoAll(h, sha, w, []) == w;
  }

  lemma {:induction false} DoAppend(h: string -> int, sha: string -> Digest, w: Whole, a: seq<Act>, b: seq<Act>)
    ensures DoAll(h, sha, w, a + b) == DoAll(h, sha, DoAll(h, sha, w, a), b)
  {
    hide Do;
    if b == [] {
      assert a + b == a;
    } else {
      assert (a + b)[..|a + b| - 1] == a + b[..|b| - 1];
      DoAppend(h, sha, w, a, b[..|b| - 1]);
    }
  }

  lemma StepKeepsCall(sha: string -> Digest, w: World, c: nat, l: Label)
    requires c in w.calls && !l.Transact? && !l.Direct? && l.call != c
    ensures c in Step(sha, w, l).calls
  {
    StepOwn(sha, w, l);
    hide Step;
  }

  lemma DoKeepsCall(h: string -> int, sha: string -> Digest, w: Whole, c: nat, a: Act)
    requires c in w.front.calls && Spares(a, c)
    ensures c in Do(h, sha, w, a).front.calls
  {
    hide Step, Interleaving.Step, Resume, RequestOf;
    if a.Service? && ServiceEnabled(w, a.step) { StepKeepsCall(sha, w.front, c, a.step); }
  }

  lemma {:induction false} CallStays(h: string -> int, sha: string -> Digest, w: Whole, c: nat, acts: seq<Act>)
    requires c in w.front.calls && forall i :: 0 <= i < |acts| ==> Spares(acts[i], c)
    ensures c in DoAll(h, sha, w, acts).front.calls
  {
    hide Do, Spares;
    if acts != [] {
      CallStays(h, sha, w, c, acts[..|acts| - 1]);
      DoKeepsCall(h, sha, DoAll(h, sha, w, acts[..|acts| - 1]), c, acts[|acts| - 1]);
    }
  }
}
