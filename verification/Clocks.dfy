/** The duplicate window of the running services: the clock is read for the cut-off some time after
    the call has put its token and before its transaction begins, which sets created_at. */
module Clocks {
  import opened Base
  import opened Schema
  import opened Transactions
  import opened Protocol
  import opened Tokens
  import opened Composition
  import Window
  import Interleaving

  /** This act starts call c as a submission with this cut-off. */
  predicate Starts(a: Act, c: nat, since: Time) {
    a.Service? && a.step.StartSubmit? && a.step.call == c && a.step.since == since
  }

  /** Each cut-off lies a window before a reading of the clock, and the transaction of the call
      begins no earlier than that reading. With one clock that never goes back this is so because
      the call reads it first. */
  ghost predicate ByTheClock(acts: seq<Act>, readings: seq<Time>, window: Time) {
    && |readings| == |acts|
    && forall i, c, since :: 0 <= i < |acts| && Starts(acts[i], c, since) ==>
         && since == readings[i] - window
         && forall k :: i < k < |acts| && acts[k].BeginFor? && acts[k].call == c ==> readings[i] <= acts[k].start
  }

  /** Some act so far started the call with its cut-off. */
  ghost predicate Started(acts: seq<Act>, c: nat, since: Time) {
    exists i :: 0 <= i < |acts| && Starts(acts[i], c, since)
  }

  predicate Submits(call: Call) {
    call.Submitting? || call.SubmittingPlain?
  }

  ghost predicate AllStarted(w: Whole, acts: seq<Act>) {
    forall c :: c in w.front.calls && Submits(w.front.calls[c]) ==> Started(acts, c, w.front.calls[c].since)
  }

  lemma StartedMore(acts: seq<Act>, a: Act, c: nat, since: Time)
    requires Started(acts, c, since) || Starts(a, c, since)
    ensures Started(acts + [a], c, since)
  {
    if Started(acts, c, since) {
      var i :| 0 <= i < |acts| && Starts(acts[i], c, since);
      assert Starts((acts + [a])[i], c, since);
    } else {
      assert Starts((acts + [a])[|acts|], c, since);
    }
  }

  /** A call that submits after an act did so before it, with the same cut-off, or was started by it. */
  ghost predicate Inherits(w: Whole, a: Act, w': Whole) {
    forall c :: c in w'.front.calls && Submits(w'.front.calls[c]) ==>
      || (c in w.front.calls && w'.front.calls[c] == w.front.calls[c])
      || Starts(a, c, w'.front.calls[c].since)
  }

  lemma FreshStarts(sha: string -> Digest, w: World, l: Label)
    requires !l.Transact? && !l.Direct? && l.call !in w.calls
    ensures var w' := Step(sha, w, l);
      l.call in w'.calls && Submits(w'.calls[l.call]) ==> Starts(Service(l), l.call, w'.calls[l.call].since)
  {
    hide PutToken, ValidToken, StepDelete, StepRead, StepVerify, StepSend;
    match l
    case StartApprove(c, r, token, expiresAt) => PutCall(sha, w, c, SIGNUP, token, Approving(sha(r), token, expiresAt));
    case StartSubmit(c, form, since, token, expiresAt) =>
      PutCall(sha, w, c, REVIEW, token, Submitting(form, since, token, expiresAt));
    case _ =>
  }

  lemma PutCall(sha: string -> Digest, w: World, c: nat, scope: string, token: string, call: Call)
    ensures var w' := PutToken(sha, w, c, scope, token, call);
      c in w'.calls && (w'.calls[c] == call || w'.calls[c].Done?)
  {
    hide Ref;
  }

  lemma ServiceInherits(sha: string -> Digest, w: Whole, l: Label)
    requires !l.Transact? && !l.Direct?
    ensures Inherits(w, Service(l), w.(front := Step(sha, w.front, l)))
  {
    hide Step, Starts;
    StepOwn(sha, w.front, l);
    if l.call !in w.front.calls { FreshStarts(sha, w.front, l); }
  }

  lemma ActInherits(h: string -> int, sha: string -> Digest, w: Whole, a: Act)
    ensures Inherits(w, a, Do(h, sha, w, a))
  {
    match a
    case Service(l) =>
      hide Inherits, Step;
      if ServiceEnabled(w, l) { ServiceInherits(sha, w, l); } else { StandsStill(w, a); }
    case Receive(c) =>
      hide Resume, Reply;
      if c in w.front.calls && Awaits(w.front.calls[c]) && Ended(w.sys, c) {
        ResumeMoves(sha, w.front.calls[c], Reply(w.sys, w.lost, c));
      }
    case _ => hide Interleaving.Step, RequestOf;
  }

  lemma StandsStill(w: Whole, a: Act)
    ensures Inherits(w, a, w)
  {
  }

  lemma ActStarted(h: string -> int, sha: string -> Digest, w: Whole, acts: seq<Act>, a: Act)
    requires AllStarted(w, acts)
    ensures AllStarted(Do(h, sha, w, a), acts + [a])
  {
    ActInherits(h, sha, w, a);
    hide Do, Started, Starts;
    var w' := Do(h, sha, w, a);
    forall c | c in w'.front.calls && Submits(w'.front.calls[c])
      ensures Started(acts + [a], c, w'.front.calls[c].since)
    {
      StartedMore(acts, a, c, w'.front.calls[c].since);
    }
  }

  /** The statement-level label, if any, of an act. */
  ghost function Below(h: string -> int, sha: string -> Digest, w: Whole, a: Act): Option<Interleaving.Label> {
    match a
    case BeginFor(c, now, start, id) =>
      if c in w.front.calls && c !in w.sys.txs && Awaits(w.front.calls[c])
      then Some(Interleaving.Begin(c, RequestOf(sha, w.front.calls[c], now, start, id).value)) else None
    case BeginDirect(t, req) =>
      if t !in w.front.calls && t !in w.sys.txs && DatabaseOnly(req) then Some(Interleaving.Begin(t, req)) else None
    case Database(l) => if l.Begin? then None else Some(l)
    case LoseCommit(t) =>
      var sys := Interleaving.Step(h, w.sys, Interleaving.Commit(t));
      if Ended(sys, t) && !Ended(w.sys, t) then Some(Interleaving.Commit(t)) else None
    case _ => None
  }

  lemma BelowSteps(h: string -> int, sha: string -> Digest, w: Whole, a: Act)
    ensures var l := Below(h, sha, w, a);
      Do(h, sha, w, a).sys == if l.None? then w.sys else Interleaving.Step(h, w.sys, l.value)
  {
    hide Interleaving.Step, RequestOf, Step, Resume;
  }

  /** A transaction that begins now begins at least a window after its cut-off. */
  lemma BelowTimely(h: string -> int, sha: string -> Digest, w: Whole, acts: seq<Act>, readings: seq<Time>,
      window: Time)
    requires acts != [] && ByTheClock(acts, readings, window) && AllStarted(w, acts[..|acts| - 1])
    ensures var l := Below(h, sha, w, acts[|acts| - 1]); l.Some? && l.value.Begin? ==>
      Window.Timely(l.value.req, window)
  {
    hide Interleaving.Step;
    var n := |acts| - 1;
    var a := acts[n];
    if a.BeginFor? && a.call in w.front.calls && Submits(w.front.calls[a.call]) {
      var i :| 0 <= i < n && Starts(acts[..n][i], a.call, w.front.calls[a.call].since);
      assert Starts(acts[i], a.call, w.front.calls[a.call].since);
    }
  }

  lemma RunBelow(h: string -> int, sys: Interleaving.System, labels: seq<Interleaving.Label>, l: Interleaving.Label)
    ensures Interleaving.RunAll(h, sys, labels + [l]) == Interleaving.Step(h, Interleaving.RunAll(h, sys, labels), l)
  {
    hide Interleaving.Step;
    assert (labels + [l])[..|labels|] == labels;
  }

  ghost predicate TimelyLabels(labels: seq<Interleaving.Label>, window: Time) {
    forall i :: 0 <= i < |labels| && labels[i].Begin? ==> Window.Timely(labels[i].req, window)
  }

  lemma ClockBefore(acts: seq<Act>, readings: seq<Time>, window: Time)
    requires acts != [] && ByTheClock(acts, readings, window)
    ensures |readings| == |acts| && ByTheClock(acts[..|acts| - 1], readings[..|acts| - 1], window)
  {
    hide Starts;
    var n := |acts| - 1;
    forall i, c, since | 0 <= i < n && Starts(acts[..n][i], c, since)
      ensures since == readings[..n][i] - window
      ensures forall k :: i < k < n && acts[..n][k].BeginFor? && acts[..n][k].call == c ==>
        readings[..n][i] <= acts[..n][k].start
    {
      assert Starts(acts[i], c, since);
    }
  }

  /** The database's part of a run of the whole is a run of the statement-level machine in which
      every CreateSubmission begins at least a window after its cut-off. */
  lemma {:induction false} Projects(h: string -> int, sha: string -> Digest, db: Db, acts: seq<Act>,
      readings: seq<Time>, window: Time) returns (labels: seq<Interleaving.Label>)
    requires ByTheClock(acts, readings, window)
    ensures DoAll(h, sha, Start(db), acts).sys == Interleaving.RunAll(h, Interleaving.System(db, map[], []), labels)
    ensures TimelyLabels(labels, window) && AllStarted(DoAll(h, sha, Start(db), acts), acts)
  {
    hide Do, Interleaving.Step, Started, Below, ByTheClock;
    if acts == [] {
      labels := [];
    } else {
      var n := |acts| - 1;
      ClockBefore(acts, readings, window);
      labels := Projects(h, sha, db, acts[..n], readings[..n], window);
      hide AllStarted;
      var w := DoAll(h, sha, Start(db), acts[..n]);
      ActStarted(h, sha, w, acts[..n], acts[n]);
      assert acts[..n] + [acts[n]] == acts;
      BelowSteps(h, sha, w, acts[n]);
      BelowTimely(h, sha, w, acts, readings, window);
      var l := Below(h, sha, w, acts[n]);
      if l.Some? {
        hide Interleaving.RunAll, DoAll;
        RunBelow(h, Interleaving.System(db, map[], []), labels, l.value);
        labels := labels + [l.value];
      }
    }
  }

  /** The duplicate window. Under all interleavings of concurrent submissions, and with any
      crashes, rollbacks and lost acknowledgements, committed rows with one fingerprint are more
      than the window apart, and a span of length L holds at most floor(L / window) + 1 of them. */
  lemma DuplicatesApart(
    h: string -> int, sha: string -> Digest, db: Db, acts: seq<Act>, readings: seq<Time>, window: nat,
    fingerprint: string, from: Time, length: nat)
    requires Valid(db) && Window.Apart(db, window) && window > 0 && ByTheClock(acts, readings, window)
    ensures var now := DoAll(h, sha, Start(db), acts).sys.db;
      Window.Apart(now, window) && |Window.SpanRows(now, fingerprint, from, length)| <= length / window + 1
  {
    hide Valid, Window.Apart, Window.SpanRows, DoAll, Interleaving.RunAll, AllStarted, ByTheClock, Window.Timely;
    var labels := Projects(h, sha, db, acts, readings, window);
    Window.WindowInterleaved(h, db, labels, window, fingerprint, from, length);
  }
}
