/** The interleaved machine refines the atomic specification: its log is a serial execution. */
module Serializability {
  import opened Base
  import opened Schema
  import opened Transactions
  import opened Lifecycle
  import opened Runs
  import opened Interleaving

  // ---- A transaction's statements amount to its atomic execution --------------------------------

  lemma OverlayOverlay(db: Db, a: Db, b: Db)
    ensures Overlay(Overlay(db, a), b) == Overlay(db, Overlay(a, b))
  {
    assert db.submissions + a.submissions + b.submissions == db.submissions + (a.submissions + b.submissions);
    assert db.reviews + a.reviews + b.reviews == db.reviews + (a.reviews + b.reviews);
    assert db.grants + a.grants + b.grants == db.grants + (a.grants + b.grants);
  }

  lemma {:induction false} ApplySplit(a: seq<Stmt>, b: seq<Stmt>, db: Db)
    ensures ApplyAll(a + b, db) == if ApplyAll(a, db).None? then None else ApplyAll(b, ApplyAll(a, db).value)
  {
    if a == [] {
      assert a + b == b;
    } else {
      assert (a + b)[1..] == a[1..] + b;
      if Apply(a[0], db).Some? {
        ApplySplit(a[1..], b, Apply(a[0], db).value);
      }
    }
  }

  lemma FoldStep(rows: seq<Db>, n: nat)
    requires 0 < n <= |rows|
    ensures Fold(rows[..n]) == Overlay(Fold(rows[..n - 1]), rows[n - 1])
  {
    assert rows[..n][..n - 1] == rows[..n - 1];
  }

  /** The statements run one at a time leave what running them all at once leaves. */
  lemma {:induction false} Replay(db: Db, done: seq<Stmt>, rows: seq<Db>, n: nat)
    requires |done| == |rows| && n <= |rows|
    requires forall i :: 0 <= i < |rows| ==> Rows(done[i], Overlay(db, Fold(rows[..i]))) == Some(rows[i])
    ensures ApplyAll(done[..n], db) == Some(Overlay(db, Fold(rows[..n])))
  {
    hide Rows, Overlay, Fold;
    if n == 0 {
      assert done[..0] == [] && rows[..0] == [];
      FoldNone();
      OverlayOneRow(db);
    } else {
      hide ApplyAll;
      Replay(db, done, rows, n - 1);
      var v := Overlay(db, Fold(rows[..n - 1]));
      assert done[..n] == done[..n - 1] + [done[n - 1]];
      ApplySplit(done[..n - 1], [done[n - 1]], db);
      ApplyOne(done[n - 1], v);
      OverlayOverlay(db, Fold(rows[..n - 1]), rows[n - 1]);
      FoldStep(rows, n);
    }
  }

  lemma FoldNone()
    ensures Fold([]) == EMPTY
  {
  }

  lemma CommitIsExec(h: string -> int, db: Db, tx: Tx)
    requires TxOk(h, db, tx) && tx.phase.Writing? && tx.phase.rest == []
    ensures Exec(db, tx.req) == (Seen(db, tx), tx.phase.answer)
  {
    hide PlanOf, Rows, Covered, StmtKeys, ReadKeys, ApprovalOf;
    Replay(db, tx.done, tx.rows, |tx.rows|);
    assert tx.done[..|tx.rows|] == tx.done && tx.rows[..|tx.rows|] == tx.rows && tx.done + [] == tx.done;
    if PlanOf(db, tx.req).Reread? {
      assert tx.rows == [];
      OverlayOneRow(db);
    }
  }

  lemma RejectedIsExec(h: string -> int, db: Db, tx: Tx)
    requires TxOk(h, db, tx) && tx.phase.Writing? && tx.phase.rest != []
    requires Rows(tx.phase.rest[0], Seen(db, tx)).None?
    ensures Exec(db, tx.req) == (db, Failed(Storage))
  {
    hide PlanOf, Rows, Covered, StmtKeys, ReadKeys, ApprovalOf;
    Replay(db, tx.done, tx.rows, |tx.rows|);
    assert tx.done[..|tx.rows|] == tx.done && tx.rows[..|tx.rows|] == tx.rows;
    ApplySplit(tx.done, tx.phase.rest, db);
  }

  // ---- What each step does to the system --------------------------------------------------------

  ghost predicate Healthy(h: string -> int, sys: System) {
    && Valid(sys.db) && Exclusive(sys)
    && forall t :: t in sys.txs ==> TxOk(h, sys.db, sys.txs[t])
  }

  /** A step that nobody else can see: no answer is fixed, nothing is committed. */
  ghost predicate Quiet(h: string -> int, sys: System, t: nat, sys': System) {
    && t in sys'.txs && sys' == Put(sys, t, sys'.txs[t])
    && TxOk(h, sys.db, sys'.txs[t]) && Free(sys, t, sys'.txs[t].held)
    && (t !in sys.txs ==> !sys'.txs[t].phase.Finished?)
    && (t in sys.txs ==>
          && sys'.txs[t].req == sys.txs[t].req
          && if sys.txs[t].phase.Finished? then sys'.txs[t].phase == sys.txs[t].phase
             else sys'.txs[t].phase.Finished? ==> sys'.txs[t].phase == Finished(Failed(Storage)))
  }

  /** A step at which a transaction takes effect, all at once. */
  ghost predicate Effect(h: string -> int, sys: System, t: nat, sys': System) {
    && t in sys.txs && t in sys'.txs && !sys.txs[t].phase.Finished?
    && var tx, tx' := sys.txs[t], sys'.txs[t];
    && tx'.phase.Finished? && tx'.req == tx.req && tx'.done == [] && tx'.rows == []
    && sys' == Logged(sys.(db := sys'.db), t, tx', tx'.phase.answer)
    && Free(sys, t, tx'.held)
    && Exec(sys.db, tx.req) == (sys'.db, tx'.phase.answer)
    && forall u :: u in sys.txs && u != t ==> Evolves(h, sys.db, sys'.db, sys.txs[u].held)
  }

  lemma StandStillEvolves(h: string -> int, db: Db, held: set<Key>)
    ensures Evolves(h, db, db, held)
  {
  }

  lemma FreeOwn(h: string -> int, sys: System, t: nat)
    requires Exclusive(sys) && t in sys.txs
    ensures Free(sys, t, sys.txs[t].held)
  {
  }

  lemma DecideKeeps(h: string -> int, sys: System, t: nat, tx: Tx)
    requires t in sys.txs && tx.req == sys.txs[t].req && !sys.txs[t].phase.Finished?
    requires Free(sys, t, tx.held) && ReadKeys(h, sys.db, tx.req) <= tx.held && tx.done == [] && tx.rows == []
    ensures var sys' := Decide(sys, t, tx); Quiet(h, sys, t, sys') || Effect(h, sys, t, sys')
  {
    hide PlanOf, ReadKeys, Evolves, Covered, Free;
    match PlanOf(sys.db, tx.req)
    case Reject(e) =>
      forall u | u in sys.txs && u != t ensures Evolves(h, sys.db, sys.db, sys.txs[u].held) {
        StandStillEvolves(h, sys.db, sys.txs[u].held);
      }
    case Reread(_) =>
    case Write(stmts, _) =>
      assert [] + stmts == stmts;
      NothingWritten(h, sys.db, tx.held);
  }

  lemma NothingWritten(h: string -> int, db: Db, held: set<Key>)
    ensures Executed(h, db, [], [], held)
  {
    var none: seq<Db> := [];
    assert none[..0] == none;
    assert Covered(h, db, EMPTY, held);
  }

  lemma RereadKeeps(h: string -> int, sys: System, t: nat)
    requires Healthy(h, sys) && t in sys.txs && sys.txs[t].phase.Rereading?
    ensures var sys' := RunStatement(h, sys, t); Quiet(h, sys, t, sys') || Effect(h, sys, t, sys')
  {
    FreeOwn(h, sys, t);
    var tx := sys.txs[t];
    var id := tx.phase.application;
    if ApprovalOf(sys.db, id).None? {
      hide Healthy, PlanOf, ReadKeys, Evolves, Free, Exclusive, ApprovalOf;
      forall u | u in sys.txs && u != t ensures Evolves(h, sys.db, sys.db, sys.txs[u].held) {
        StandStillEvolves(h, sys.db, sys.txs[u].held);
      }
      assert TxOk(h, sys.db, tx);
    } else {
      RereadOk(h, sys.db, tx);
      hide Healthy, TxOk, Free, Exclusive, ApprovalOf;
    }
  }

  lemma RereadOk(h: string -> int, db: Db, tx: Tx)
    requires TxOk(h, db, tx) && tx.phase.Rereading? && ApprovalOf(db, tx.phase.application).Some?
    ensures TxOk(h, db, tx.(phase := Writing([], ApprovedAs(ApprovalOf(db, tx.phase.application).value, false))))
  {
    hide PlanOf, ReadKeys, ApprovalOf, Executed;
    NothingWritten(h, db, tx.held);
  }

  lemma InsertIsPlanned(h: string -> int, db: Db, req: Request, done: seq<Stmt>, rest: seq<Stmt>, answer: Answer)
    requires Planned(db, req, done, rest, answer) && rest != [] && rest[0].InsertSubmission?
    ensures ReadKeys(h, db, req) == {FingerprintKey(h(rest[0].submission.form.fingerprint))}
  {
    assert rest[0] == (done + rest)[|done|];
  }

  lemma WriteExtends(h: string -> int, db: Db, tx: Tx, r: Db, held: set<Key>)
    requires TxOk(h, db, tx) && tx.phase.Writing? && tx.phase.rest != []
    requires Rows(tx.phase.rest[0], Seen(db, tx)) == Some(r) && held == tx.held + StmtKeys(tx.phase.rest[0], r)
    ensures Executed(h, db, tx.done + [tx.phase.rest[0]], tx.rows + [r], held)
  {
    var s := tx.phase.rest[0];
    if s.InsertSubmission? {
      InsertIsPlanned(h, db, tx.req, tx.done, tx.phase.rest, tx.phase.answer);
    }
    ExecutedExtends(h, db, tx.done, tx.rows, tx.held, s, r, held);
  }

  lemma ExecutedExtends(h: string -> int, db: Db, done: seq<Stmt>, rows: seq<Db>, held: set<Key>, s: Stmt, r: Db,
      more: set<Key>)
    requires Executed(h, db, done, rows, held) && Rows(s, Overlay(db, Fold(rows))) == Some(r)
    requires more == held + StmtKeys(s, r)
    requires s.InsertSubmission? ==> FingerprintKey(h(s.submission.form.fingerprint)) in held
    ensures Executed(h, db, done + [s], rows + [r], more)
  {
    hide Rows, Covered, StmtKeys, Fold;
    var done', rows' := done + [s], rows + [r];
    var n := |rows|;
    forall i | 0 <= i <= n ensures rows'[..i] == rows[..i] && Covered(h, db, Fold(rows[..i]), more) {
      CoveredMore(h, db, Fold(rows[..i]), held, more);
    }
    assert rows[..n] == rows;
    CoveredLast(h, db, rows, s, r, more);
    assert rows'[..n + 1] == rows';
    forall i | 0 <= i < n + 1
      ensures Rows(done'[i], Overlay(db, Fold(rows'[..i]))) == Some(rows'[i]) && StmtKeys(done'[i], rows'[i]) <= more
    {
      assert rows'[..i] == rows[..i];
    }
  }

  lemma CoveredLast(h: string -> int, db: Db, rows: seq<Db>, s: Stmt, r: Db, held: set<Key>)
    requires Covered(h, db, Fold(rows), held) && Rows(s, Overlay(db, Fold(rows))) == Some(r) && StmtKeys(s, r) <= held
    requires s.InsertSubmission? ==> FingerprintKey(h(s.submission.form.fingerprint)) in held
    ensures Covered(h, db, Fold(rows + [r]), held)
  {
    hide Rows, Covered, StmtKeys;
    CoveredStep(h, db, Fold(rows), held, s, r);
    assert (rows + [r])[..|rows|] == rows;
  }

  lemma FreeBoth(sys: System, t: nat, a: set<Key>, b: set<Key>)
    requires Free(sys, t, a) && Free(sys, t, b)
    ensures Free(sys, t, a + b)
  {
  }

  lemma RejectKeeps(h: string -> int, sys: System, t: nat)
    requires Exclusive(sys) && t in sys.txs && TxOk(h, sys.db, sys.txs[t])
    requires sys.txs[t].phase.Writing? && sys.txs[t].phase.rest != []
    requires Rows(sys.txs[t].phase.rest[0], Seen(sys.db, sys.txs[t])).None?
    ensures Effect(h, sys, t, Logged(sys, t, Finish(sys.txs[t], Failed(Storage)), Failed(Storage)))
  {
    FreeOwn(h, sys, t);
    RejectedIsExec(h, sys.db, sys.txs[t]);
    hide TxOk, Exec, Rows, Seen, Evolves, Free, Exclusive;
    forall u | u in sys.txs && u != t ensures Evolves(h, sys.db, sys.db, sys.txs[u].held) {
      StandStillEvolves(h, sys.db, sys.txs[u].held);
    }
  }

  /** The transaction after one more statement. */
  function Extended(tx: Tx, r: Db): Tx
    requires tx.phase.Writing? && tx.phase.rest != []
  {
    var s := tx.phase.rest[0];
    tx.(phase := Writing(tx.phase.rest[1..], tx.phase.answer), held := tx.held + StmtKeys(s, r),
        done := tx.done + [s], rows := tx.rows + [r])
  }

  lemma ExtendedOk(h: string -> int, db: Db, tx: Tx, r: Db)
    requires TxOk(h, db, tx) && tx.phase.Writing? && tx.phase.rest != []
    requires Rows(tx.phase.rest[0], Seen(db, tx)) == Some(r)
    ensures TxOk(h, db, Extended(tx, r))
  {
    hide Executed, Rows, Seen, StmtKeys, Planned, ReadKeys;
    WriteExtends(h, db, tx, r, Extended(tx, r).held);
    PlannedNext(db, tx.req, tx.done, tx.phase.rest, tx.phase.answer);
  }

  lemma PlannedNext(db: Db, req: Request, done: seq<Stmt>, rest: seq<Stmt>, answer: Answer)
    requires Planned(db, req, done, rest, answer) && rest != []
    ensures Planned(db, req, done + [rest[0]], rest[1..], answer)
  {
    hide PlanOf, ApprovalOf;
    assert done + rest == done + [rest[0]] + rest[1..];
  }

  lemma ExecuteKeeps(h: string -> int, sys: System, t: nat, r: Db)
    requires Exclusive(sys) && t in sys.txs && TxOk(h, sys.db, sys.txs[t])
    requires sys.txs[t].phase.Writing? && sys.txs[t].phase.rest != []
    requires Rows(sys.txs[t].phase.rest[0], Seen(sys.db, sys.txs[t])) == Some(r)
    requires Free(sys, t, StmtKeys(sys.txs[t].phase.rest[0], r))
    ensures Quiet(h, sys, t, Put(sys, t, Extended(sys.txs[t], r)))
  {
    var tx := sys.txs[t];
    FreeOwn(h, sys, t);
    FreeBoth(sys, t, tx.held, StmtKeys(tx.phase.rest[0], r));
    ExtendedOk(h, sys.db, tx, r);
    hide TxOk, Rows, Seen, StmtKeys, Free, Exclusive;
  }

  lemma WriteKeeps(h: string -> int, sys: System, t: nat)
    requires Healthy(h, sys) && t in sys.txs && sys.txs[t].phase.Writing? && sys.txs[t].phase.rest != []
    ensures var sys' := RunStatement(h, sys, t); sys' == sys || Quiet(h, sys, t, sys') || Effect(h, sys, t, sys')
  {
    hide TxOk, Free, Valid, Exclusive, Rows, StmtKeys, Seen, Quiet, Effect;
    var tx := sys.txs[t];
    match Rows(tx.phase.rest[0], Seen(sys.db, tx))
    case None => RejectKeeps(h, sys, t);
    case Some(r) =>
      if Free(sys, t, StmtKeys(tx.phase.rest[0], r)) {
        ExecuteKeeps(h, sys, t, r);
      }
  }

  lemma StatementKeeps(h: string -> int, sys: System, t: nat)
    requires Healthy(h, sys) && t in sys.txs
    ensures var sys' := RunStatement(h, sys, t); sys' == sys || Quiet(h, sys, t, sys') || Effect(h, sys, t, sys')
  {
    var tx := sys.txs[t];
    match tx.phase
    case Begun =>
      hide Free, Valid, Exclusive, ReadKeys, PlanOf;
      var keys := ReadKeys(h, sys.db, tx.req);
      if Free(sys, t, keys) && !tx.req.Create? {
        DecideKeeps(h, sys, t, tx.(held := keys));
      }
    case Advised =>
      FreeOwn(h, sys, t);
      hide Free, Valid, Exclusive, ReadKeys, PlanOf;
      DecideKeeps(h, sys, t, tx);
    case Rereading(_) =>
      hide *;
      RereadKeeps(h, sys, t);
    case Writing(rest, _) =>
      if rest != [] {
        hide *;
        WriteKeeps(h, sys, t);
      }
    case Finished(_) =>
  }

  lemma CommitKeeps(h: string -> int, sys: System, t: nat)
    requires Healthy(h, sys) && t in sys.txs
    ensures var sys' := RunCommit(sys, t); sys' == sys || Effect(h, sys, t, sys')
  {
    var tx := sys.txs[t];
    if tx.phase.Writing? && tx.phase.rest == [] {
      CommitIsExec(h, sys.db, tx);
      assert tx.rows[..|tx.rows|] == tx.rows;
      assert Covered(h, sys.db, Fold(tx.rows), tx.held);
      hide PlanOf, ReadKeys, Evolves, Valid, Covered, Fold, TxOk;
      forall u | u in sys.txs && u != t ensures Evolves(h, sys.db, Seen(sys.db, tx), sys.txs[u].held) {
        CommitEvolves(h, sys.db, Fold(tx.rows), tx.held, sys.txs[u].held);
      }
    }
  }

  lemma StepKeeps(h: string -> int, sys: System, l: Label)
    requires Healthy(h, sys)
    ensures var sys' := Step(h, sys, l); sys' == sys || Quiet(h, sys, l.tx, sys') || Effect(h, sys, l.tx, sys')
  {
    match l
    case Statement(t) =>
      hide Healthy, Quiet, Effect, RunStatement;
      if t in sys.txs { StatementKeeps(h, sys, t); }
    case Commit(t) =>
      hide Healthy, Quiet, Effect, RunCommit;
      if t in sys.txs { CommitKeeps(h, sys, t); }
    case _ => hide Valid, PlanOf, ReadKeys;
  }

  // ---- The invariant of the system --------------------------------------------------------------

  function Requests(log: seq<Entry>): seq<Request> {
    seq(|log|, i requires 0 <= i < |log| => log[i].req)
  }

  /** The log, run alone and in order, gives the committed state and every answer. */
  ghost predicate Serial(db0: Db, sys: System) {
    && StateAt(db0, Requests(sys.log), |sys.log|) == sys.db
    && forall i :: 0 <= i < |sys.log| ==> AnswerAt(db0, Requests(sys.log), i) == sys.log[i].answer
  }

  /** Each entry belongs to a finished transaction and carries the answer its client gets;
      a transaction has at most one; and one without any was told of a storage error. */
  ghost predicate Answered(sys: System) {
    && (forall i :: 0 <= i < |sys.log| ==>
          && sys.log[i].tx in sys.txs
          && sys.txs[sys.log[i].tx].req == sys.log[i].req
          && sys.txs[sys.log[i].tx].phase == Finished(sys.log[i].answer))
    && (forall i, j :: 0 <= i < |sys.log| && 0 <= j < |sys.log| && i != j ==> sys.log[i].tx != sys.log[j].tx)
    && (forall t :: t in sys.txs && sys.txs[t].phase.Finished? && sys.txs[t].phase != Finished(Failed(Storage)) ==>
          HasEntry(sys, t))
  }

  ghost predicate HasEntry(sys: System, t: nat) {
    exists i :: 0 <= i < |sys.log| && sys.log[i].tx == t
  }

  lemma {:induction false} PrefixState(db: Db, reqs: seq<Request>, r: Request, i: nat)
    requires i <= |reqs|
    ensures StateAt(db, reqs + [r], i) == StateAt(db, reqs, i)
  {
    hide Exec;
    if i > 0 { PrefixState(db, reqs, r, i - 1); }
  }

  lemma SerialExtends(db0: Db, sys: System, t: nat, req: Request, answer: Answer, sys': System)
    requires Serial(db0, sys) && Exec(sys.db, req) == (sys'.db, answer) && sys'.log == sys.log + [Entry(t, req, answer)]
    ensures Serial(db0, sys')
  {
    hide Exec;
    var reqs := Requests(sys.log);
    assert Requests(sys'.log) == reqs + [req];
    PrefixState(db0, reqs, req, |reqs|);
    forall i | 0 <= i < |sys'.log| ensures AnswerAt(db0, Requests(sys'.log), i) == sys'.log[i].answer {
      PrefixState(db0, reqs, req, if i < |reqs| then i else |reqs|);
      if i < |reqs| {
        assert AnswerAt(db0, reqs, i) == sys.log[i].answer;
      }
    }
  }

  lemma QuietKeeps(h: string -> int, sys: System, t: nat, sys': System)
    requires Healthy(h, sys) && Answered(sys) && Quiet(h, sys, t, sys')
    ensures Healthy(h, sys') && Answered(sys')
  {
    hide Valid, TxOk;
    forall u | u in sys'.txs && sys'.txs[u].phase.Finished? && sys'.txs[u].phase != Finished(Failed(Storage))
      ensures HasEntry(sys', u)
    {
      assert HasEntry(sys, u);
    }
  }

  lemma EffectHealthy(h: string -> int, sys: System, t: nat, sys': System)
    requires Healthy(h, sys) && Effect(h, sys, t, sys')
    ensures Healthy(h, sys')
  {
    ExecValid(sys.db, sys.txs[t].req);
    hide Valid, Exec, Evolves;
    forall u | u in sys'.txs ensures TxOk(h, sys'.db, sys'.txs[u]) {
      if u != t {
        hide TxOk;
        TxStable(h, sys.db, sys'.db, sys.txs[u]);
      }
    }
    hide TxOk;
  }

  lemma EffectAnswered(h: string -> int, sys: System, t: nat, sys': System)
    requires Answered(sys) && Effect(h, sys, t, sys')
    ensures Answered(sys')
  {
    hide Exec, Evolves, Free;
    assert sys'.log[|sys.log|].tx == t;
    assert HasEntry(sys', t);
    forall u | u in sys'.txs && u != t && sys'.txs[u].phase.Finished? && sys'.txs[u].phase != Finished(Failed(Storage))
      ensures HasEntry(sys', u)
    {
      assert HasEntry(sys, u);
      var i :| 0 <= i < |sys.log| && sys.log[i].tx == u;
      assert sys'.log[i].tx == u;
    }
  }

  ghost predicate Consistent(h: string -> int, db0: Db, sys: System) {
    Healthy(h, sys) && Serial(db0, sys) && Answered(sys)
  }

  lemma StepConsistent(h: string -> int, db0: Db, sys: System, l: Label)
    requires Consistent(h, db0, sys)
    ensures Consistent(h, db0, Step(h, sys, l))
  {
    hide Healthy, Answered, Step;
    StepKeeps(h, sys, l);
    var sys' := Step(h, sys, l);
    if Quiet(h, sys, l.tx, sys') {
      QuietKeeps(h, sys, l.tx, sys');
      hide TxOk;
      assert sys'.log == sys.log && sys'.db == sys.db;
    } else if Effect(h, sys, l.tx, sys') {
      EffectHealthy(h, sys, l.tx, sys');
      EffectAnswered(h, sys, l.tx, sys');
      hide Serial, Exec, Evolves;
      SerialExtends(db0, sys, l.tx, sys.txs[l.tx].req, sys'.txs[l.tx].phase.answer, sys');
    }
  }

  /** Serialisability. Whatever the clients do, and wherever they stop, the committed state is
      what the logged transactions leave when they run alone in log order; every answer given is
      the answer of that run, or a storage error of a transaction that left no trace; the locks
      are exclusive; and what each lock holder has read, planned and written still stands. */
  lemma {:induction false} Serialisable(h: string -> int, db0: Db, labels: seq<Label>)
    requires Valid(db0)
    ensures Consistent(h, db0, RunAll(h, System(db0, map[], []), labels))
  {
    hide Valid, Step;
    if labels == [] {
      assert Requests([]) == [];
    } else {
      hide Consistent;
      Serialisable(h, db0, labels[..|labels| - 1]);
      StepConsistent(h, db0, RunAll(h, System(db0, map[], []), labels[..|labels| - 1]), labels[|labels| - 1]);
    }
  }

  /** What this means to one client: its answer is the one the atomic specification gives at
      some point of the serial execution, or an error after which nothing of it remains. */
  lemma EveryAnswerIsSerial(h: string -> int, db0: Db, labels: seq<Label>, t: nat)
    requires Valid(db0)
    requires var sys := RunAll(h, System(db0, map[], []), labels); t in sys.txs && sys.txs[t].phase.Finished?
    ensures var sys := RunAll(h, System(db0, map[], []), labels);
      || (exists i :: 0 <= i < |sys.log| && sys.log[i].tx == t
            && AnswerAt(db0, Requests(sys.log), i) == sys.txs[t].phase.answer && Requests(sys.log)[i] == sys.txs[t].req)
      || (sys.txs[t].phase == Finished(Failed(Storage)) && !HasEntry(sys, t))
  {
    hide Valid, RunAll, StateAt, Healthy, AnswerAt;
    Serialisable(h, db0, labels);
    var sys := RunAll(h, System(db0, map[], []), labels);
    if HasEntry(sys, t) {
      var i :| 0 <= i < |sys.log| && sys.log[i].tx == t;
      assert Requests(sys.log)[i] == sys.txs[t].req;
    }
  }
}
