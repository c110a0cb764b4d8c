/** The composite machine leaves nothing out either: every run of module Protocol in which no call
    number is used again after a crash is a run of calls over the statement-level database. With
    Composition.Refines the two machines have the same runs, seen at the points where transactions
    take effect. */
module Realisation {
  import opened Base
  import opened Schema
  import opened Transactions
  import opened Protocol
  import opened Composition
  import opened Progress
  import Interleaving
  import Serializability
  import Crashes

  // ---- Where a transaction takes effect ---------------------------------------------------------

  predicate Open(sys: System, t: nat) {
    t in sys.txs && !Ended(sys, t)
  }

  lemma StatementLogs(h: string -> int, sys: System, t: nat)
    requires Open(sys, t)
    ensures var sys' := Interleaving.Step(h, sys, Interleaving.Statement(t));
      && sys'.db == sys.db && t in sys'.txs && sys'.txs[t].req == sys.txs[t].req
      && (Ended(sys', t) ==> |sys'.log| == |sys.log| + 1)
  {
    hide Transactions.PlanOf, Rows, ApprovalOf;
  }

  /** The step leaves the transaction open, and everything else as it was. */
  ghost predicate StaysOpen(h: string -> int, sys: System, t: nat, sys': System) {
    && Serializability.Healthy(h, sys') && Open(sys', t) && sys'.db == sys.db && OthersStay(sys, t, sys')
    && t in sys.txs && sys'.txs[t].req == sys.txs[t].req
  }

  lemma QuietStaysOpen(h: string -> int, sys: System, t: nat, sys': System)
    requires Serializability.Healthy(h, sys) && Open(sys, t) && Serializability.Quiet(h, sys, t, sys')
    requires !Ended(sys', t)
    ensures StaysOpen(h, sys, t, sys')
  {
    QuietHealthy(h, sys, t, sys');
    hide Serializability.Healthy, Interleaving.TxOk, Interleaving.Free;
  }

  lemma QuietLogsNothing(h: string -> int, sys: System, t: nat, sys': System)
    requires Serializability.Quiet(h, sys, t, sys')
    ensures sys'.log == sys.log
  {
    hide Interleaving.TxOk, Interleaving.Free;
  }

  lemma EffectEnds(h: string -> int, sys: System, t: nat, sys': System)
    requires Serializability.Effect(h, sys, t, sys')
    ensures Ended(sys', t)
  {
    hide Exec, Interleaving.Evolves, Interleaving.Free;
  }

  /** What a step of an open transaction can be: nothing to anybody else, or its effect. */
  lemma OpenStep(h: string -> int, sys: System, t: nat, l: Interleaving.Label)
    requires Serializability.Healthy(h, sys) && Open(sys, t) && l.tx == t
    requires l.Statement? || l.Commit? || l.End?
    ensures var sys' := Interleaving.Step(h, sys, l);
      || (Ended(sys', t) && Serializability.Effect(h, sys, t, sys') && (l.Statement? || l.Commit?))
      || (!Ended(sys', t) && StaysOpen(h, sys, t, sys'))
  {
    var sys' := Interleaving.Step(h, sys, l);
    if l.Statement? {
      Serializability.StatementKeeps(h, sys, t);
      StatementLogs(h, sys, t);
      hide Serializability.Healthy, Serializability.Quiet, Serializability.Effect, Interleaving.RunStatement;
      if Serializability.Effect(h, sys, t, sys') { EffectEnds(h, sys, t, sys'); }
      else if sys' != sys {
        QuietLogsNothing(h, sys, t, sys');
        QuietStaysOpen(h, sys, t, sys');
      }
    } else if l.Commit? {
      Serializability.CommitKeeps(h, sys, t);
      hide Serializability.Healthy, Serializability.Effect, Interleaving.RunCommit;
      if sys' != sys { EffectEnds(h, sys, t, sys'); }
    } else {
      hide Serializability.Healthy;
    }
  }

  /** The step of a finished run at which its transaction takes effect. */
  lemma {:induction false} TakesEffect(h: string -> int, sys: System, t: nat, labels: seq<Interleaving.Label>)
    returns (i: nat)
    decreases |labels|
    requires Serializability.Healthy(h, sys) && Open(sys, t) && Own(labels, t)
    requires Ended(Interleaving.RunAll(h, sys, labels), t)
    ensures i < |labels| && (labels[i].Statement? || labels[i].Commit?)
    ensures var mid := Interleaving.RunAll(h, sys, labels[..i]);
      && Serializability.Healthy(h, mid) && Open(mid, t) && mid.db == sys.db && OthersStay(sys, t, mid)
      && mid.txs[t].req == sys.txs[t].req
      && Serializability.Effect(h, mid, t, Interleaving.Step(h, mid, labels[i]))
  {
    hide Serializability.Healthy, Interleaving.Step, Serializability.Effect;
    if labels == [] {
      assert false;
    } else {
      var l := labels[0];
      RunAllMore(h, sys, [], l);
      RunAllAppend(h, sys, [l], labels[1..]);
      assert [l] + labels[1..] == labels && labels[..0] == [];
      assert Interleaving.RunAll(h, sys, []) == sys;
      OpenStep(h, sys, t, l);
      var sys1 := Interleaving.Step(h, sys, l);
      if Ended(sys1, t) {
        i := 0;
      } else {
        var j := TakesEffect(h, sys1, t, labels[1..]);
        i := j + 1;
        assert labels[..i] == [l] + labels[1..][..j];
        RunAllAppend(h, sys, [l], labels[1..][..j]);
        hide Interleaving.RunAll;
      }
    }
  }

  // ---- Database acts ----------------------------------------------------------------------------

  function Acts(labels: seq<Interleaving.Label>): seq<Act> {
    seq(|labels|, i requires 0 <= i < |labels| => Database(labels[i]))
  }

  lemma {:induction false} DatabaseActs(h: string -> int, sha: string -> Digest, w: Whole,
      labels: seq<Interleaving.Label>, t: nat)
    requires Own(labels, t) && w.front.db == w.sys.db
    ensures DoAll(h, sha, w, Acts(labels)) == Beside(w, Interleaving.RunAll(h, w.sys, labels))
  {
    hide Interleaving.Step;
    if labels == [] {
      assert Acts(labels) == [];
      assert Interleaving.RunAll(h, w.sys, []) == w.sys;
    } else {
      var n := |labels| - 1;
      DatabaseActs(h, sha, w, labels[..n], t);
      assert Acts(labels)[..n] == Acts(labels[..n]) && Acts(labels)[n] == Database(labels[n]);
      DoDatabase(h, sha, DoAll(h, sha, w, Acts(labels[..n])), labels[n]);
    }
  }

  // ---- The states between two transactions ------------------------------------------------------

  /** No transaction runs, every waiting call has yet to begin its own, and the numbers below top are
      those of calls, gone only if they crashed. */
  ghost predicate Ready(h: string -> int, w: Whole, top: nat, k: nat, crashed: set<nat>) {
    && Serializability.Healthy(h, w.sys) && w.front.db == w.sys.db
    && (forall t :: t in w.sys.txs ==> Ended(w.sys, t) && w.sys.txs[t].held == {} && t < top + k)
    && (forall c :: c in w.front.calls ==> c < top && (Awaits(w.front.calls[c]) ==> c !in w.sys.txs))
    && (forall c :: c in w.sys.txs && c < top ==> c in w.front.calls || c in crashed)
    && (forall t :: t in w.lost ==> t in w.sys.txs)
  }

  lemma ReadyFree(h: string -> int, w: Whole, top: nat, k: nat, crashed: set<nat>, t: nat,
      keys: set<Interleaving.Key>)
    requires Ready(h, w, top, k, crashed)
    ensures Interleaving.Free(w.sys, t, keys)
  {
    hide Serializability.Healthy, Awaits;
  }

  // ---- One transaction, with any fate -----------------------------------------------------------

  /** What the services note when transaction t ends. */
  function Noted(front: World, t: nat, db: Db, fate: Fate): World {
    if t in front.calls then Recorded(front, front.calls[t], db, fate) else front.(db := db)
  }

  /** The transaction has begun; it is over, with this fate. */
  ghost predicate Over(sha: string -> Digest, w: Whole, t: nat, req: Request, fate: Fate, w': Whole) {
    && Ended(w'.sys, t) && w'.sys.txs[t].held == {} && OthersStay(w.sys, t, w'.sys)
    && w'.sys.db == Outcome(w.sys.db, req, fate).0
    && w'.front == Noted(w.front, t, w'.sys.db, fate)
    && (forall u :: u != t ==> (u in w'.lost <==> u in w.lost))
    && Reply(w'.sys, w'.lost, t) == Outcome(w.sys.db, req, fate).1
  }

  lemma NotedQuietly(front: World, t: nat, db: Db, fate: Fate)
    requires fate != CommitLost || db == front.db
    ensures Noted(front, t, db, fate) == front.(db := db)
  {
  }

  lemma GivesCommit(h: string -> int, sha: string -> Digest, w: Whole, t: nat, req: Request,
      labels: seq<Interleaving.Label>)
    requires w.front.db == w.sys.db && t in w.sys.txs && t !in w.lost && Own(labels, t)
    requires var sys' := Interleaving.RunAll(h, w.sys, labels);
      Completed(w.sys, t, req, sys') && sys'.txs[t].held == {}
    ensures Over(sha, w, t, req, Commits, DoAll(h, sha, w, Acts(labels)))
  {
    DatabaseActs(h, sha, w, labels, t);
    hide Interleaving.RunAll, DoAll, Exec;
    NotedQuietly(w.front, t, Exec(w.sys.db, req).0, Commits);
  }

  lemma GivesRollback(h: string -> int, sha: string -> Digest, w: Whole, t: nat, req: Request, fate: Fate)
    requires w.front.db == w.sys.db && Open(w.sys, t) && t !in w.lost
    requires fate == RollsBack || (fate == CommitLost && Exec(w.sys.db, req).0 == w.sys.db)
    ensures Over(sha, w, t, req, fate, DoAll(h, sha, w, [Database(Interleaving.Abort(t))]))
  {
    Crashes.DoOne(h, sha, w, Database(Interleaving.Abort(t)));
    DoDatabase(h, sha, w, Interleaving.Abort(t));
    Aborted(h, w.sys, t);
    hide DoAll, Do, Exec, Interleaving.Step;
    NotedQuietly(w.front, t, w.sys.db, fate);
  }

  lemma Aborted(h: string -> int, sys: System, t: nat)
    requires Open(sys, t)
    ensures var sys' := Interleaving.Step(h, sys, Interleaving.Abort(t));
      && sys'.db == sys.db && Ended(sys', t) && sys'.txs[t].held == {} && OthersStay(sys, t, sys')
      && sys'.txs[t].phase.answer == Failed(Storage)
  {
  }

  lemma CommitReleases(h: string -> int, sys: System, t: nat)
    requires Open(sys, t) && Ended(Interleaving.Step(h, sys, Interleaving.Commit(t)), t)
    ensures Interleaving.Step(h, sys, Interleaving.Commit(t)).txs[t].held == {}
  {
  }

  lemma GivesLoss(h: string -> int, sha: string -> Digest, w: Whole, t: nat, req: Request,
      labels: seq<Interleaving.Label>)
    requires w.front.db == w.sys.db && Open(w.sys, t) && t !in w.lost && Own(labels, t)
    requires var mid := Interleaving.RunAll(h, w.sys, labels);
      && Open(mid, t) && mid.db == w.sys.db && OthersStay(w.sys, t, mid) && mid.txs[t].req == req
      && Serializability.Effect(h, mid, t, Interleaving.Step(h, mid, Interleaving.Commit(t)))
    ensures Over(sha, w, t, req, CommitLost, DoAll(h, sha, w, Acts(labels) + [LoseCommit(t)]))
  {
    DatabaseActs(h, sha, w, labels, t);
    Crashes.DoAppend(h, sha, w, Acts(labels), [LoseCommit(t)]);
    var mid := Interleaving.RunAll(h, w.sys, labels);
    var sys' := Interleaving.Step(h, mid, Interleaving.Commit(t));
    var v := Beside(w, mid);
    Crashes.DoOne(h, sha, v, LoseCommit(t));
    EffectCompletes(h, mid, t, sys');
    CommitReleases(h, mid, t);
    hide Interleaving.RunAll, DoAll, Do, Exec, Serializability.Effect, Interleaving.Step;
    LossAct(h, sha, v, t);
    OthersStayBoth(w.sys, mid, sys', t);
    LossOver(sha, w, t, req, sys');
  }

  lemma LossOver(sha: string -> Digest, w: Whole, t: nat, req: Request, sys': System)
    requires w.front.db == w.sys.db && Ended(sys', t) && sys'.txs[t].held == {} && OthersStay(w.sys, t, sys')
    requires sys'.db == Exec(w.sys.db, req).0
    ensures Over(sha, w, t, req, CommitLost, Whole(sys', Noted(w.front, t, sys'.db, CommitLost), w.lost + {t}))
  {
    hide Exec, Noted, OthersStay;
  }

  lemma LossAct(h: string -> int, sha: string -> Digest, w: Whole, t: nat)
    requires Open(w.sys, t) && Ended(Interleaving.Step(h, w.sys, Interleaving.Commit(t)), t)
    ensures var sys' := Interleaving.Step(h, w.sys, Interleaving.Commit(t));
      Do(h, sha, w, LoseCommit(t)) == Whole(sys', Noted(w.front, t, sys'.db, CommitLost), w.lost + {t})
  {
    hide Interleaving.Step, Recorded;
  }

  lemma OthersStayBoth(a: System, b: System, c: System, t: nat)
    requires OthersStay(a, t, b) && OthersStay(b, t, c)
    ensures OthersStay(a, t, c)
  {
  }

  /** Whatever fate the transaction is to have, there are acts that give it. */
  lemma Fated(h: string -> int, sha: string -> Digest, w: Whole, t: nat, req: Request, fate: Fate,
      labels: seq<Interleaving.Label>)
    returns (acts: seq<Act>)
    requires Serializability.Healthy(h, w.sys) && w.front.db == w.sys.db && Open(w.sys, t) && t !in w.lost
    requires w.sys.txs[t].req == req && Own(labels, t)
    requires var sys' := Interleaving.RunAll(h, w.sys, labels);
      Completed(w.sys, t, req, sys') && sys'.txs[t].held == {}
    ensures Over(sha, w, t, req, fate, DoAll(h, sha, w, acts))
    ensures forall a :: a in acts ==> a.Database? || a.LoseCommit?
  {
    hide Serializability.Healthy, Interleaving.RunAll, DoAll, Over, Exec;
    match fate
    case Commits =>
      acts := Acts(labels);
      GivesCommit(h, sha, w, t, req, labels);
    case RollsBack =>
      acts := [Database(Interleaving.Abort(t))];
      GivesRollback(h, sha, w, t, req, fate);
    case CommitLost =>
      var i := TakesEffect(h, w.sys, t, labels);
      var mid := Interleaving.RunAll(h, w.sys, labels[..i]);
      if labels[i].Commit? {
        acts := Acts(labels[..i]) + [LoseCommit(t)];
        GivesLoss(h, sha, w, t, req, labels[..i]);
      } else {
        StatementLogs(h, mid, t);
        EffectCompletes(h, mid, t, Interleaving.Step(h, mid, labels[i]));
        acts := [Database(Interleaving.Abort(t))];
        GivesRollback(h, sha, w, t, req, fate);
      }
  }

  // ---- Beginning and ending ---------------------------------------------------------------------

  /** A transaction begins, whatever its fate is to be. */
  lemma Begins(h: string -> int, w: Whole, top: nat, k: nat, crashed: set<nat>, t: nat, req: Request)
    returns (labels: seq<Interleaving.Label>)
    requires Ready(h, w, top, k, crashed) && t !in w.sys.txs
    ensures var sys1 := Interleaving.Step(h, w.sys, Interleaving.Begin(t, req));
      && Serializability.Healthy(h, sys1) && Open(sys1, t) && sys1.txs[t].req == req && sys1.db == w.sys.db
      && t !in w.lost && OthersStay(w.sys, t, sys1) && Own(labels, t)
      && var sys' := Interleaving.RunAll(h, sys1, labels); Completed(sys1, t, req, sys') && sys'.txs[t].held == {}
  {
    ReadyFree(h, w, top, k, crashed, t, Needed(h, w.sys.db, req));
    labels := Completes(h, w.sys, t, req);
    Progress.BeginHealthy(h, w.sys, t, req);
    hide Serializability.Healthy, Interleaving.RunAll, Exec, Interleaving.Step, Interleaving.Free, Completed, Needed;
    var sys1 := Interleaving.Step(h, w.sys, Interleaving.Begin(t, req));
    RunAllMore(h, w.sys, [], Interleaving.Begin(t, req));
    RunAllAppend(h, w.sys, [Interleaving.Begin(t, req)], labels);
    SinceBegin(w.sys, t, req, Interleaving.RunAll(h, sys1, labels));
  }

  lemma SinceBegin(sys: System, t: nat, req: Request, sys': System)
    requires Completed(sys, t, req, sys')
    ensures Completed(Interleaving.Put(sys, t, Interleaving.Tx(req, Interleaving.Begun, {}, [], [])), t, req, sys')
  {
    hide Exec;
  }

  /** And it ends with that fate. */
  lemma FatedFrom(h: string -> int, sha: string -> Digest, w: Whole, top: nat, k: nat, crashed: set<nat>, t: nat,
      req: Request, fate: Fate)
    returns (acts: seq<Act>)
    requires Ready(h, w, top, k, crashed) && t !in w.sys.txs
    ensures var sys1 := Interleaving.Step(h, w.sys, Interleaving.Begin(t, req)); var w1 := w.(sys := sys1);
      && sys1.db == w.sys.db && OthersStay(w.sys, t, sys1)
      && Over(sha, w1, t, req, fate, DoAll(h, sha, w1, acts))
  {
    var labels := Begins(h, w, top, k, crashed, t, req);
    ReadyDb(h, w, top, k, crashed);
    hide Ready, Serializability.Healthy, Interleaving.Step, Interleaving.RunAll;
    hide DoAll, Completed, Over, OthersStay, Own;
    acts := Fated(h, sha, w.(sys := Interleaving.Step(h, w.sys, Interleaving.Begin(t, req))), t, req, fate, labels);
  }

  /** What has ended leaves the state ready again. */
  lemma ReadyAgain(h: string -> int, sha: string -> Digest, w: Whole, top: nat, k: nat, crashed: set<nat>, t: nat,
      req: Request, fate: Fate, sys1: System, w': Whole)
    requires Ready(h, w, top, k, crashed) && OthersStay(w.sys, t, sys1) && sys1.db == w.sys.db
    requires Over(sha, w.(sys := sys1), t, req, fate, w') && Serializability.Healthy(h, w'.sys)
    requires t in w.front.calls || t == top + k
    ensures forall u :: u in w'.sys.txs ==> Ended(w'.sys, u) && w'.sys.txs[u].held == {} && u < top + k + 1
    ensures forall u :: u in w'.lost ==> u in w'.sys.txs
    ensures forall c :: c in w'.sys.txs && c < top ==> c in w.front.calls || c in crashed
    ensures forall c :: c in w.front.calls && c != t && Awaits(w.front.calls[c]) ==> c !in w'.sys.txs
    ensures w'.front.db == w'.sys.db && w'.front.calls == w.front.calls
  {
    hide Serializability.Healthy, Exec, Awaits;
  }

  // ---- Label by label ---------------------------------------------------------------------------

  predicate IsStart(l: Label) {
    l.StartApprove? || l.StartSubmit? || l.StartConsume?
  }

  lemma StartAgain(sha: string -> Digest, w: World, l: Label)
    requires IsStart(l) && l.call in w.calls
    ensures Step(sha, w, l) == w
  {
  }

  /** A step of a call is itself. */
  lemma ServiceReal(h: string -> int, sha: string -> Digest, w: Whole, top: nat, k: nat, crashed: set<nat>, l: Label)
    requires Ready(h, w, top, k, crashed) && !l.Transact? && !l.Direct? && l.call < top
    requires IsStart(l) ==> l.call !in crashed
    ensures var w' := DoAll(h, sha, w, [Service(l)]);
      w'.front == Step(sha, w.front, l) && Ready(h, w', top, k, crashed + if l.Crash? then {l.call} else {})
  {
    Crashes.DoOne(h, sha, w, Service(l));
    hide DoAll, Step, Serializability.Healthy;
    if IsStart(l) && l.call in w.sys.txs {
      StartAgain(sha, w.front, l);
    } else {
      assert ServiceEnabled(w, l);
      StepOwn(sha, w.front, l);
      StartOnly(sha, w.front, l);
      GoneOnly(sha, w.front, l);
      hide Awaits;
    }
  }

  lemma GoneOnly(sha: string -> Digest, w: World, l: Label)
    requires !l.Transact? && !l.Direct?
    ensures l.call !in Step(sha, w, l).calls && l.call in w.calls ==> l.Crash?
    ensures l.Crash? ==> l.call !in Step(sha, w, l).calls
  {
    StartOnly(sha, w, l);
    hide Tokens.Ref, Tokens.ValidToken, After, StepDelete, StepRead, StepVerify, StepSend, PutToken;
  }

  lemma NotWaiting(sha: string -> Digest, w: World, c: nat, now: Time, start: Time, id: Id, fate: Fate)
    requires c !in w.calls || !Awaits(w.calls[c])
    ensures Step(sha, w, Transact(c, now, start, id, fate)) == w
  {
  }

  /** The transaction of a waiting call: begun, ended with its fate, and heard of. */
  lemma TransactReal(h: string -> int, sha: string -> Digest, w: Whole, top: nat, k: nat, crashed: set<nat>, c: nat,
      now: Time, start: Time, id: Id, fate: Fate)
    returns (acts: seq<Act>)
    requires Ready(h, w, top, k, crashed) && c in w.front.calls && Awaits(w.front.calls[c])
    ensures var w' := DoAll(h, sha, w, acts);
      && w'.front == Step(sha, w.front, Transact(c, now, start, id, fate))
      && (Serializability.Healthy(h, w'.sys) ==> Ready(h, w', top, k + 1, crashed))
  {
    var call := w.front.calls[c];
    MakesOwn(sha, call, now, start, id);
    var req := RequestOf(sha, call, now, start, id).value;
    var fated := FatedFrom(h, sha, w, top, k, crashed, c, req, fate);
    var w1 := w.(sys := Interleaving.Step(h, w.sys, Interleaving.Begin(c, req)));
    BeginsFor(h, sha, w, c, now, start, id);
    var w2 := DoAll(h, sha, w1, fated);
    hide Serializability.Healthy, Interleaving.Step, Interleaving.RunAll, RequestOf, DoAll, Completed, Makes;
    acts := [BeginFor(c, now, start, id)] + fated + [Receive(c)];
    Crashes.DoAppend(h, sha, w, [BeginFor(c, now, start, id)], fated);
    Crashes.DoAppend(h, sha, w, [BeginFor(c, now, start, id)] + fated, [Receive(c)]);
    Crashes.DoOne(h, sha, w2, Receive(c));
    Heard(h, sha, w, w1.sys, w2, top, k, crashed, c, now, start, id, fate);
  }

  lemma BeginsFor(h: string -> int, sha: string -> Digest, w: Whole, c: nat, now: Time, start: Time, id: Id)
    requires c in w.front.calls && c !in w.sys.txs && Awaits(w.front.calls[c])
    requires RequestOf(sha, w.front.calls[c], now, start, id).Some?
    ensures DoAll(h, sha, w, [BeginFor(c, now, start, id)]) == w.(sys := Interleaving.Step(h, w.sys,
      Interleaving.Begin(c, RequestOf(sha, w.front.calls[c], now, start, id).value)))
  {
    Crashes.DoOne(h, sha, w, BeginFor(c, now, start, id));
    hide DoAll, Interleaving.Step, RequestOf;
  }

  lemma Heard(h: string -> int, sha: string -> Digest, w: Whole, sys1: System, w2: Whole, top: nat, k: nat,
      crashed: set<nat>, c: nat, now: Time, start: Time, id: Id, fate: Fate)
    requires Ready(h, w, top, k, crashed) && c in w.front.calls && Awaits(w.front.calls[c]) && c !in w.sys.txs
    requires RequestOf(sha, w.front.calls[c], now, start, id).Some?
    requires OthersStay(w.sys, c, sys1) && sys1.db == w.sys.db
    requires var req := RequestOf(sha, w.front.calls[c], now, start, id).value;
      Over(sha, w.(sys := sys1), c, req, fate, w2)
    ensures var w3 := Do(h, sha, w2, Receive(c));
      && w3.front == Step(sha, w.front, Transact(c, now, start, id, fate))
      && (Serializability.Healthy(h, w3.sys) ==> Ready(h, w3, top, k + 1, crashed))
  {
    var req := RequestOf(sha, w.front.calls[c], now, start, id).value;
    var w3 := Do(h, sha, w2, Receive(c));
    Received(h, sha, w, sys1, w2, c, now, start, id, fate);
    hide Step, RequestOf;
    if Serializability.Healthy(h, w3.sys) {
      hide Serializability.Healthy;
      assert w3.sys == w2.sys;
      ReadyAgain(h, sha, w, top, k, crashed, c, req, fate, sys1, w2);
      ResumeMoves(sha, w.front.calls[c], Reply(w2.sys, w2.lost, c));
      hide Resume, Awaits, Over;
    }
  }

  lemma Received(h: string -> int, sha: string -> Digest, w: Whole, sys1: System, w2: Whole, c: nat, now: Time,
      start: Time, id: Id, fate: Fate)
    requires c in w.front.calls && Awaits(w.front.calls[c]) && w.front.db == w.sys.db && sys1.db == w.sys.db
    requires RequestOf(sha, w.front.calls[c], now, start, id).Some?
    requires Over(sha, w.(sys := sys1), c, RequestOf(sha, w.front.calls[c], now, start, id).value, fate, w2)
    ensures var w3 := Do(h, sha, w2, Receive(c));
      && w3.front == Step(sha, w.front, Transact(c, now, start, id, fate))
      && w3 == w2.(front := WithCall(w2.front, c, Resume(sha, w.front.calls[c], Reply(w2.sys, w2.lost, c))))
  {
    hide Outcome, RequestOf, Resume;
  }

  /** A transaction that no call waits for. */
  lemma DirectReal(h: string -> int, sha: string -> Digest, w: Whole, top: nat, k: nat, crashed: set<nat>,
      req: Request, fate: Fate)
    returns (acts: seq<Act>)
    requires Ready(h, w, top, k, crashed) && DatabaseOnly(req)
    ensures var w' := DoAll(h, sha, w, acts);
      && w'.front == Step(sha, w.front, Direct(req, fate))
      && (Serializability.Healthy(h, w'.sys) ==> Ready(h, w', top, k + 1, crashed))
  {
    var t := top + k;
    hide Ready, Serializability.Healthy, Interleaving.Step, DoAll, Do, Step, Outcome, DatabaseOnly, Over, OthersStay;
    FreshNumber(h, w, top, k, crashed);
    BeginsDirect(h, sha, w, t, req);
    var fated := FatedFrom(h, sha, w, top, k, crashed, t, req, fate);
    var sys1 := Interleaving.Step(h, w.sys, Interleaving.Begin(t, req));
    var w2 := DoAll(h, sha, w.(sys := sys1), fated);
    DirectOver(h, sha, w, sys1, w2, top, k, crashed, req, fate);
    Crashes.DoAppend(h, sha, w, [BeginDirect(t, req)], fated);
    acts := [BeginDirect(t, req)] + fated;
    assert DoAll(h, sha, w, acts) == w2;
  }

  lemma FreshNumber(h: string -> int, w: Whole, top: nat, k: nat, crashed: set<nat>)
    requires Ready(h, w, top, k, crashed)
    ensures top + k !in w.sys.txs && top + k !in w.front.calls
  {
    hide Serializability.Healthy, Awaits;
  }

  lemma BeginsDirect(h: string -> int, sha: string -> Digest, w: Whole, t: nat, req: Request)
    requires t !in w.front.calls && t !in w.sys.txs && DatabaseOnly(req)
    ensures DoAll(h, sha, w, [BeginDirect(t, req)])
      == w.(sys := Interleaving.Step(h, w.sys, Interleaving.Begin(t, req)))
  {
    Crashes.DoOne(h, sha, w, BeginDirect(t, req));
    hide DoAll, Interleaving.Step;
  }

  lemma DirectOver(h: string -> int, sha: string -> Digest, w: Whole, sys1: System, w2: Whole, top: nat, k: nat,
      crashed: set<nat>, req: Request, fate: Fate)
    requires Ready(h, w, top, k, crashed) && DatabaseOnly(req) && OthersStay(w.sys, top + k, sys1)
    requires sys1.db == w.sys.db && Over(sha, w.(sys := sys1), top + k, req, fate, w2)
    requires top + k !in w.front.calls
    ensures w2.front == Step(sha, w.front, Direct(req, fate))
    ensures Serializability.Healthy(h, w2.sys) ==> Ready(h, w2, top, k + 1, crashed)
  {
    hide Serializability.Healthy, Exec, Awaits, DatabaseOnly;
    if Serializability.Healthy(h, w2.sys) { ReadyAgain(h, sha, w, top, k, crashed, top + k, req, fate, sys1, w2); }
  }

  // ---- Whole runs -------------------------------------------------------------------------------

  function Gone(labels: seq<Label>): set<nat> {
    set i | 0 <= i < |labels| && labels[i].Crash? :: labels[i].call
  }

  /** Call numbers stay below top, and none is used again after a crash. */
  predicate Numbered(labels: seq<Label>, top: nat) {
    && (forall i :: 0 <= i < |labels| && !labels[i].Direct? ==> labels[i].call < top)
    && (forall i, j :: 0 <= i < j < |labels| && labels[i].Crash? && IsStart(labels[j]) ==>
          labels[i].call != labels[j].call)
  }

  lemma GoneMore(labels: seq<Label>, l: Label)
    ensures Gone(labels + [l]) == Gone(labels) + if l.Crash? then {l.call} else {}
  {
    var more := labels + [l];
    assert more[|labels|] == l && forall i :: 0 <= i < |labels| ==> more[i] == labels[i];
    forall c | c in Gone(labels) ensures c in Gone(more) {
      var i :| 0 <= i < |labels| && labels[i].Crash? && labels[i].call == c;
      assert more[i].call == c;
    }
  }

  lemma StepReal(h: string -> int, sha: string -> Digest, w: Whole, top: nat, k: nat, labels: seq<Label>, l: Label)
    returns (acts: seq<Act>, n: nat)
    requires Ready(h, w, top, k, Gone(labels)) && Numbered(labels + [l], top)
    ensures var w' := DoAll(h, sha, w, acts);
      && w'.front == Step(sha, w.front, l)
      && (Serializability.Healthy(h, w'.sys) ==> Ready(h, w', top, n, Gone(labels + [l])))
  {
    GoneMore(labels, l);
    assert (labels + [l])[|labels|] == l;
    n := k;
    match l
    case Transact(c, now, start, id, fate) =>
      hide Ready, Step, Gone, DoAll, Awaits;
      if c in w.front.calls && Awaits(w.front.calls[c]) {
        n := k + 1;
        acts := TransactReal(h, sha, w, top, k, Gone(labels), c, now, start, id, fate);
      } else {
        NotWaiting(sha, w.front, c, now, start, id, fate);
        acts := [];
        DoNothing(h, sha, w);
      }
    case Direct(req, fate) =>
      hide Ready, Gone, DoAll, DatabaseOnly;
      if DatabaseOnly(req) {
        n := k + 1;
        hide Step;
        acts := DirectReal(h, sha, w, top, k, Gone(labels), req, fate);
      } else {
        acts := [];
        DoNothing(h, sha, w);
      }
    case _ =>
      NotGone(labels, l, top);
      hide Ready, Step, Gone, DoAll, Numbered;
      acts := [Service(l)];
      ServiceReal(h, sha, w, top, k, Gone(labels), l);
  }

  lemma NotGone(labels: seq<Label>, l: Label, top: nat)
    requires Numbered(labels + [l], top) && !l.Direct?
    ensures l.call < top && (IsStart(l) ==> l.call !in Gone(labels))
  {
    var more := labels + [l];
    assert more[|labels|] == l && forall i :: 0 <= i < |labels| ==> more[i] == labels[i];
  }

  lemma DoNothing(h: string -> int, sha: string -> Digest, w: Whole)
    ensures DoAll(h, sha, w, []) == w
  {
  }

  lemma NumberedBefore(labels: seq<Label>, top: nat)
    requires Numbered(labels, top) && labels != []
    ensures Numbered(labels[..|labels| - 1], top)
  {
    var before := labels[..|labels| - 1];
    assert forall i :: 0 <= i < |before| ==> before[i] == labels[i];
  }

  /** Completeness of the refinement. Every run of module Protocol that does not use a call number
      again after a crash is a run of calls and transactions interleaved statement by statement,
      with the same tokens, messages, calls and notes, and the same database committed. */
  lemma {:induction false} Realises(h: string -> int, sha: string -> Digest, db: Db, labels: seq<Label>, top: nat)
    returns (acts: seq<Act>, k: nat)
    requires Valid(db) && Numbered(labels, top)
    ensures var w := DoAll(h, sha, Start(db), acts);
      && w.front == Run(sha, Initial(db), labels) && w.sys.db == w.front.db
      && Ready(h, w, top, k, Gone(labels))
  {
    if labels == [] {
      acts, k := [], 0;
      StartReady(h, sha, db, top);
    } else {
      var n := |labels| - 1;
      NumberedBefore(labels, top);
      hide Valid, Ready, Gone, Step, Do;
      var past;
      past, k := Realises(h, sha, db, labels[..n], top);
      var w := DoAll(h, sha, Start(db), past);
      assert labels[..n] + [labels[n]] == labels;
      hide Numbered;
      var more;
      more, k := StepReal(h, sha, w, top, k, labels[..n], labels[n]);
      Crashes.DoAppend(h, sha, Start(db), past, more);
      acts := past + more;
      HealthyAfter(h, sha, db, acts);
      hide DoAll;
      ReadyDb(h, DoAll(h, sha, Start(db), acts), top, k, Gone(labels));
    }
  }

  lemma ReadyDb(h: string -> int, w: Whole, top: nat, k: nat, crashed: set<nat>)
    requires Ready(h, w, top, k, crashed)
    ensures w.sys.db == w.front.db
  {
    hide Serializability.Healthy;
  }

  lemma HealthyAfter(h: string -> int, sha: string -> Digest, db: Db, acts: seq<Act>)
    requires Valid(db)
    ensures Serializability.Healthy(h, DoAll(h, sha, Start(db), acts).sys)
  {
    var labels := Refines(h, sha, db, acts);
    hide Serializability.Healthy, Valid, DoAll;
  }

  lemma StartReady(h: string -> int, sha: string -> Digest, db: Db, top: nat)
    requires Valid(db)
    ensures DoAll(h, sha, Start(db), []) == Start(db) && Run(sha, Initial(db), []) == Initial(db)
    ensures Ready(h, Start(db), top, 0, Gone([]))
  {
    StartHealthy(h, db);
    hide Serializability.Healthy, Valid;
  }
}
