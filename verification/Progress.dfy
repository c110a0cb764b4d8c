/** The statement-level machine is not only safe. A client whose keys nobody else holds finishes, with
    the answer and the effect of the atomic specification, and every sequence of requests is the
    log of some run. */
module Progress {
  import opened Base
  import opened Schema
  import opened Transactions
  import opened Lifecycle
  import opened Runs
  import opened Interleaving
  import opened Serializability

  /** The rows and index entries a request may lock: nothing else makes it wait. */
  function Needed(h: string -> int, db: Db, req: Request): set<Key> {
    match req
    case Approve(review, c, _, _) =>
      DecisionNeeds(db, review)
      + (if review in db.reviews then
           {GrantKey(c.digest), GrantOfKey(db.reviews[review].submissionId), GrantReferenceKey(c.reference)}
         else {})
    case Decline(review, _) => DecisionNeeds(db, review)
    case Claim(d, _, _, _, _) => {GrantKey(d)}
    case Consume(d, _, _, _) => {GrantKey(d)}
    case Release(d, _, _, _) => {GrantKey(d)}
    case Create(form, _, capability, id, _) =>
      {FingerprintKey(h(form.fingerprint)), SubmissionKey(id)}
      + (if capability.None? then {}
         else {ReviewKey(capability.value.digest), ReviewOfKey(id), ReviewReferenceKey(capability.value.reference)})
    case CloseGrant(d, _, _) => {GrantKey(d)}
    case CloseReview(d, _, _) => {ReviewKey(d)}
  }

  function DecisionNeeds(db: Db, review: Digest): set<Key> {
    if review in db.reviews then {ReviewKey(review), SubmissionKey(db.reviews[review].submissionId)} else {}
  }

  lemma ReadsNeeded(h: string -> int, db: Db, req: Request)
    ensures ReadKeys(h, db, req) <= Needed(h, db, req)
  {
  }

  // ---- Every statement of a plan stays within those keys ----------------------------------------

  /** The rows a statement writes into the review table are those it names. */
  lemma RowsOfReviews(s: Stmt, db: Db)
    requires Rows(s, db).Some?
    ensures s.SetDecided? ==>
      forall d :: d in Rows(s, db).value.reviews ==> d in db.reviews && db.reviews[d].submissionId == s.id
    ensures s.InsertReview? || s.SetReviewClosed? ==> forall d :: d in Rows(s, db).value.reviews ==> d == s.digest
    ensures !s.SetDecided? && !s.InsertReview? && !s.SetReviewClosed? ==> Rows(s, db).value.reviews == map[]
  {
    hide SubmissionCheck, ReviewCheck, GrantCheck;
  }

  /** Before the reviews are decided a transaction has written no review. */
  lemma {:induction false} NoReviewsYet(db: Db, done: seq<Stmt>, rows: seq<Db>)
    requires |done| == |rows|
    requires forall i :: 0 <= i < |rows| ==> Rows(done[i], Overlay(db, Fold(rows[..i]))) == Some(rows[i])
    requires forall i :: 0 <= i < |done| ==> !done[i].SetDecided? && !done[i].InsertReview? && !done[i].SetReviewClosed?
    ensures Overlay(db, Fold(rows)).reviews == db.reviews
  {
    hide Rows, Overlay, Fold;
    if rows == [] {
      FoldNone();
      OverlayOneRow(db);
    } else {
      var n := |rows| - 1;
      assert forall i :: 0 <= i < n ==> rows[..n][..i] == rows[..i];
      NoReviewsYet(db, done[..n], rows[..n]);
      RowsOfReviews(done[n], Overlay(db, Fold(rows[..n])));
      assert rows[..n + 1] == rows;
      FoldStep(rows, n + 1);
      SameReviews(db, Fold(rows[..n]), rows[n]);
    }
  }

  lemma SameReviews(db: Db, rows: Db, r: Db)
    requires r.reviews == map[] && Overlay(db, rows).reviews == db.reviews
    ensures Overlay(db, Overlay(rows, r)).reviews == db.reviews
  {
    NothingAdded(rows.reviews);
  }

  lemma NothingAdded<K, V>(m: map<K, V>)
    ensures m + map[] == m
  {
  }

  lemma ApprovalStmts(db: Db, review: Digest, c: Candidate, now: Time, start: Time)
    requires PlanApprove(db, review, c, now, start).Write?
    ensures review in db.reviews
    ensures var id := db.reviews[review].submissionId; var stmts := PlanApprove(db, review, c, now, start).stmts;
      && |stmts| == 3 && stmts[0].SetApproved? && stmts[0].id == id && stmts[1].SetDecided? && stmts[1].id == id
      && stmts[2].InsertGrant? && stmts[2].digest == c.digest
      && stmts[2].grant.submissionId == id && stmts[2].grant.reference == c.reference
  {
  }

  lemma DeclineStmts(db: Db, review: Digest, now: Time)
    requires PlanDecline(db, review, now).Write? && PlanDecline(db, review, now).stmts != []
    ensures review in db.reviews
    ensures var id := db.reviews[review].submissionId; var stmts := PlanDecline(db, review, now).stmts;
      |stmts| == 2 && stmts[0].SetDeclined? && stmts[0].id == id && stmts[1].SetDecided? && stmts[1].id == id
  {
  }

  /** Deciding an application touches its one review. */
  lemma OneReview(db: Db, review: Digest, d: Digest)
    requires Valid(db) && review in db.reviews && d in db.reviews
    requires db.reviews[d].submissionId == db.reviews[review].submissionId
    ensures d == review
  {
  }

  lemma DecidedNeeds(h: string -> int, db: Db, review: Digest, s: Stmt, seen: Db, r: Db)
    requires Valid(db) && review in db.reviews && s.SetDecided? && s.id == db.reviews[review].submissionId
    requires seen.reviews == db.reviews && Rows(s, seen) == Some(r)
    ensures StmtKeys(s, r) <= DecisionNeeds(db, review)
  {
    RowsOfReviews(s, seen);
    hide Rows, Valid;
    forall k | k in StmtKeys(s, r) ensures k == ReviewKey(review) {
      var d :| d in r.reviews && k == ReviewKey(d);
      OneReview(db, review, d);
    }
  }

  lemma NextOfPlan(db: Db, tx: Tx)
    requires tx.phase.Writing? && tx.phase.rest != [] && Planned(db, tx.req, tx.done, tx.phase.rest, tx.phase.answer)
    ensures PlanOf(db, tx.req).Write? && |tx.done| < |PlanOf(db, tx.req).stmts|
    ensures PlanOf(db, tx.req).stmts[|tx.done|] == tx.phase.rest[0]
    ensures PlanOf(db, tx.req).stmts[..|tx.done|] == tx.done
  {
    hide PlanOf, ApprovalOf;
    assert (tx.done + tx.phase.rest)[|tx.done|] == tx.phase.rest[0];
  }

  /** The statements run so far, each on what those before it left. */
  ghost predicate Ran(db: Db, tx: Tx) {
    && |tx.done| == |tx.rows|
    && forall i :: 0 <= i < |tx.rows| ==> Rows(tx.done[i], Overlay(db, Fold(tx.rows[..i]))) == Some(tx.rows[i])
  }

  lemma HasRun(h: string -> int, db: Db, tx: Tx)
    requires TxOk(h, db, tx) && tx.phase.Writing?
    ensures Ran(db, tx) && Planned(db, tx.req, tx.done, tx.phase.rest, tx.phase.answer)
  {
    hide PlanOf, ApprovalOf, ReadKeys, Covered, Rows, StmtKeys;
  }

  lemma StatementNeeds(h: string -> int, db: Db, tx: Tx, r: Db)
    requires Valid(db) && TxOk(h, db, tx) && tx.phase.Writing? && tx.phase.rest != []
    requires Rows(tx.phase.rest[0], Seen(db, tx)) == Some(r)
    ensures StmtKeys(tx.phase.rest[0], r) <= Needed(h, db, tx.req)
  {
    HasRun(h, db, tx);
    hide Valid, Rows, ApprovalOf, TxOk, StmtKeys, Needed, Ran;
    NextOfPlan(db, tx);
    RowsOfReviews(tx.phase.rest[0], Seen(db, tx));
    hide PlanOf, Planned, Seen;
    match tx.req
    case Approve(review, c, now, start) => ApprovalNeeds(h, db, tx, r);
    case Decline(review, now) => DeclineNeeds(h, db, tx, r);
    case _ => OtherNeeds(h, db, tx.req, |tx.done|, r);
  }

  lemma ApprovalNeeds(h: string -> int, db: Db, tx: Tx, r: Db)
    requires Valid(db) && Ran(db, tx) && tx.phase.Writing? && tx.phase.rest != [] && tx.req.Approve?
    requires Planned(db, tx.req, tx.done, tx.phase.rest, tx.phase.answer)
    requires Rows(tx.phase.rest[0], Seen(db, tx)) == Some(r)
    ensures StmtKeys(tx.phase.rest[0], r) <= Needed(h, db, tx.req)
  {
    hide Valid, Rows, ApprovalOf, PlanApprove, Planned, Overlay, Fold;
    NextOfPlan(db, tx);
    var s := tx.phase.rest[0];
    RowsOfReviews(s, Seen(db, tx));
    ApprovalStmts(db, tx.req.review, tx.req.candidate, tx.req.now, tx.req.start);
    if s.SetDecided? {
      NoReviewsYet(db, tx.done, tx.rows);
      DecidedNeeds(h, db, tx.req.review, s, Seen(db, tx), r);
    }
  }

  lemma DeclineNeeds(h: string -> int, db: Db, tx: Tx, r: Db)
    requires Valid(db) && Ran(db, tx) && tx.phase.Writing? && tx.phase.rest != [] && tx.req.Decline?
    requires Planned(db, tx.req, tx.done, tx.phase.rest, tx.phase.answer)
    requires Rows(tx.phase.rest[0], Seen(db, tx)) == Some(r)
    ensures StmtKeys(tx.phase.rest[0], r) <= Needed(h, db, tx.req)
  {
    hide Valid, Rows, ApprovalOf, PlanDecline, Planned, Overlay, Fold;
    NextOfPlan(db, tx);
    var s := tx.phase.rest[0];
    RowsOfReviews(s, Seen(db, tx));
    DeclineStmts(db, tx.req.review, tx.req.now);
    if s.SetDecided? {
      NoReviewsYet(db, tx.done, tx.rows);
      DecidedNeeds(h, db, tx.req.review, s, Seen(db, tx), r);
    }
  }

  lemma OtherNeeds(h: string -> int, db: Db, req: Request, i: nat, r: Db)
    requires !req.Approve? && !req.Decline? && PlanOf(db, req).Write? && i < |PlanOf(db, req).stmts|
    requires var s := PlanOf(db, req).stmts[i];
      && !s.SetDecided? ==> (if s.InsertReview? || s.SetReviewClosed? then forall d :: d in r.reviews ==> d == s.digest
           else r.reviews == map[])
    ensures StmtKeys(PlanOf(db, req).stmts[i], r) <= Needed(h, db, req)
  {
    hide ApprovalOf, Newest, SameClaim, LeaseOpen;
  }

  // ---- A client left alone finishes -------------------------------------------------------------

  /** What a client's steps leave as they were. */
  ghost predicate OthersStay(sys: System, t: nat, sys': System) {
    forall u :: u != t ==> (u in sys'.txs <==> u in sys.txs) && (u in sys.txs ==> sys'.txs[u] == sys.txs[u])
  }

  /** The request has taken effect once, as the specification says, and its client has the answer. */
  ghost predicate Completed(sys: System, t: nat, req: Request, sys': System) {
    && sys'.db == Exec(sys.db, req).0
    && t in sys'.txs && sys'.txs[t].req == req && sys'.txs[t].phase == Finished(Exec(sys.db, req).1)
    && sys'.log == sys.log + [Entry(t, req, Exec(sys.db, req).1)]
    && OthersStay(sys, t, sys')
  }

  lemma EffectCompletes(h: string -> int, sys: System, t: nat, sys': System)
    requires Effect(h, sys, t, sys')
    ensures Completed(sys, t, sys.txs[t].req, sys')
  {
    hide Exec, Free, Evolves;
  }

  lemma RunAllMore(h: string -> int, sys: System, labels: seq<Label>, l: Label)
    ensures RunAll(h, sys, labels + [l]) == Step(h, RunAll(h, sys, labels), l)
    ensures RunAll(h, sys, [l]) == Step(h, sys, l)
  {
    hide Step;
    assert (labels + [l])[..|labels|] == labels && [l][..0] == [];
    assert RunAll(h, sys, []) == sys;
  }

  lemma {:induction false} RunAllAppend(h: string -> int, sys: System, a: seq<Label>, b: seq<Label>)
    ensures RunAll(h, sys, a + b) == RunAll(h, RunAll(h, sys, a), b)
  {
    hide Step;
    if b == [] {
      assert a + b == a;
    } else {
      assert (a + b)[..|a + b| - 1] == a + b[..|b| - 1];
      RunAllAppend(h, sys, a, b[..|b| - 1]);
    }
  }

  /** Statements, commits and the closing rollback of client t, and nothing else. */
  predicate Own(labels: seq<Label>, t: nat) {
    forall i :: 0 <= i < |labels| ==> labels[i].tx == t && (labels[i].Statement? || labels[i].Commit? || labels[i].End?)
  }

  /** One statement later: done, or one statement closer. */
  ghost predicate Closer(h: string -> int, sys: System, t: nat, sys': System) {
    && t in sys.txs && t in sys'.txs && sys' == Put(sys, t, sys'.txs[t]) && Healthy(h, sys')
    && sys'.txs[t].req == sys.txs[t].req && sys'.txs[t].phase.Writing?
    && Free(sys', t, Needed(h, sys.db, sys.txs[t].req))
  }

  lemma StatementRejected(h: string -> int, sys: System, t: nat)
    requires Healthy(h, sys) && t in sys.txs && sys.txs[t].phase.Writing? && sys.txs[t].phase.rest != []
    requires Rows(sys.txs[t].phase.rest[0], Seen(sys.db, sys.txs[t])).None?
    ensures Completed(sys, t, sys.txs[t].req, Step(h, sys, Statement(t)))
  {
    hide Valid, Exclusive, TxOk, Rows, Completed, Exec, Seen, Effect;
    RejectKeeps(h, sys, t);
    hide Healthy;
    EffectCompletes(h, sys, t, Step(h, sys, Statement(t)));
  }

  lemma StatementSteps(h: string -> int, sys: System, t: nat, r: Db)
    requires t in sys.txs && sys.txs[t].phase.Writing? && sys.txs[t].phase.rest != []
    requires Rows(sys.txs[t].phase.rest[0], Seen(sys.db, sys.txs[t])) == Some(r)
    requires Free(sys, t, StmtKeys(sys.txs[t].phase.rest[0], r))
    ensures Step(h, sys, Statement(t)) == Put(sys, t, Extended(sys.txs[t], r))
    ensures var tx := Extended(sys.txs[t], r);
      && tx.req == sys.txs[t].req && tx.phase.Writing?
      && |tx.phase.rest| < |sys.txs[t].phase.rest|
  {
    hide Rows, StmtKeys, Free, Seen;
  }

  lemma StatementHealthy(h: string -> int, sys: System, t: nat, r: Db)
    requires Healthy(h, sys) && t in sys.txs && sys.txs[t].phase.Writing? && sys.txs[t].phase.rest != []
    requires Rows(sys.txs[t].phase.rest[0], Seen(sys.db, sys.txs[t])) == Some(r)
    requires Free(sys, t, StmtKeys(sys.txs[t].phase.rest[0], r))
    ensures Healthy(h, Put(sys, t, Extended(sys.txs[t], r)))
  {
    hide Valid, Exclusive, TxOk, Rows, StmtKeys, Free, Seen, Quiet, Extended;
    ExecuteKeeps(h, sys, t, r);
    hide Healthy;
    QuietHealthy(h, sys, t, Put(sys, t, Extended(sys.txs[t], r)));
  }

  lemma StatementRuns(h: string -> int, sys: System, t: nat, r: Db)
    requires Healthy(h, sys) && t in sys.txs && sys.txs[t].phase.Writing? && sys.txs[t].phase.rest != []
    requires Rows(sys.txs[t].phase.rest[0], Seen(sys.db, sys.txs[t])) == Some(r)
    requires Free(sys, t, Needed(h, sys.db, sys.txs[t].req))
    ensures var sys' := Step(h, sys, Statement(t));
      Closer(h, sys, t, sys') && |sys'.txs[t].phase.rest| < |sys.txs[t].phase.rest|
  {
    var tx := sys.txs[t];
    assert Valid(sys.db) && TxOk(h, sys.db, tx);
    hide Valid, Healthy, TxOk, Rows, StmtKeys, Needed, Free, Seen, Step, Extended;
    StatementNeeds(h, sys.db, tx, r);
    FreeLess(sys, t, StmtKeys(tx.phase.rest[0], r), Needed(h, sys.db, tx.req));
    StatementSteps(h, sys, t, r);
    StatementHealthy(h, sys, t, r);
    FreeAfter(sys, t, Extended(tx, r), Needed(h, sys.db, tx.req));
  }

  lemma StatementMoves(h: string -> int, sys: System, t: nat)
    requires Healthy(h, sys) && t in sys.txs && sys.txs[t].phase.Writing? && sys.txs[t].phase.rest != []
    requires Free(sys, t, Needed(h, sys.db, sys.txs[t].req))
    ensures var sys' := Step(h, sys, Statement(t));
      || Completed(sys, t, sys.txs[t].req, sys')
      || (Closer(h, sys, t, sys') && |sys'.txs[t].phase.rest| < |sys.txs[t].phase.rest|)
  {
    hide Healthy, Needed, Free, Completed, Closer, Step, Rows, Seen;
    match Rows(sys.txs[t].phase.rest[0], Seen(sys.db, sys.txs[t]))
    case None => StatementRejected(h, sys, t);
    case Some(r) => StatementRuns(h, sys, t, r);
  }

  lemma {:induction false} WritesFinish(h: string -> int, sys: System, t: nat) returns (labels: seq<Label>)
    requires Healthy(h, sys) && t in sys.txs && sys.txs[t].phase.Writing?
    requires Free(sys, t, Needed(h, sys.db, sys.txs[t].req))
    ensures Own(labels, t) && Completed(sys, t, sys.txs[t].req, RunAll(h, sys, labels))
    decreases |sys.txs[t].phase.rest|
  {
    hide Healthy, Needed, Free, Completed, Step, RunAll;
    if sys.txs[t].phase.rest == [] {
      labels := [Commit(t)];
      RunAllMore(h, sys, [], Commit(t));
      CommitCompletes(h, sys, t);
    } else {
      var sys1 := Step(h, sys, Statement(t));
      RunAllMore(h, sys, [], Statement(t));
      StatementMoves(h, sys, t);
      if Completed(sys, t, sys.txs[t].req, sys1) {
        labels := [Statement(t)];
      } else {
        var more := WritesFinish(h, sys1, t);
        labels := [Statement(t)] + more;
        RunAllAppend(h, sys, [Statement(t)], more);
        CompletedSince(sys, t, sys1.txs[t], RunAll(h, sys, labels));
      }
    }
  }

  lemma FreeLess(sys: System, t: nat, a: set<Key>, b: set<Key>)
    requires a <= b && Free(sys, t, b)
    ensures Free(sys, t, a)
  {
  }

  lemma FreeAfter(sys: System, t: nat, tx: Tx, keys: set<Key>)
    requires Free(sys, t, keys)
    ensures Free(Put(sys, t, tx), t, keys)
  {
  }

  lemma QuietHealthy(h: string -> int, sys: System, t: nat, sys': System)
    requires Healthy(h, sys) && Quiet(h, sys, t, sys')
    ensures Healthy(h, sys')
  {
    hide Valid, TxOk;
  }

  lemma CompletedSince(sys: System, t: nat, tx: Tx, sys': System)
    requires t in sys.txs && tx.req == sys.txs[t].req && Completed(Put(sys, t, tx), t, tx.req, sys')
    ensures Completed(sys, t, tx.req, sys')
  {
    hide Exec;
  }

  lemma CommitCompletes(h: string -> int, sys: System, t: nat)
    requires Healthy(h, sys) && t in sys.txs && sys.txs[t].phase.Writing? && sys.txs[t].phase.rest == []
    ensures Completed(sys, t, sys.txs[t].req, Step(h, sys, Commit(t)))
  {
    CommitKeeps(h, sys, t);
    CommitLogs(h, sys, t);
    hide Healthy, Effect, Step, Completed;
    EffectCompletes(h, sys, t, Step(h, sys, Commit(t)));
  }

  lemma CommitLogs(h: string -> int, sys: System, t: nat)
    requires t in sys.txs && sys.txs[t].phase.Writing? && sys.txs[t].phase.rest == []
    ensures Step(h, sys, Commit(t)) == RunCommit(sys, t) != sys
  {
    assert |RunCommit(sys, t).log| == |sys.log| + 1;
  }

  /** From the deciding read on. */
  lemma DecidedFinishes(h: string -> int, sys: System, t: nat, tx: Tx) returns (labels: seq<Label>)
    requires Healthy(h, sys) && t in sys.txs && tx.req == sys.txs[t].req && !sys.txs[t].phase.Finished?
    requires Free(sys, t, tx.held) && ReadKeys(h, sys.db, tx.req) <= tx.held && tx.done == [] && tx.rows == []
    requires Free(sys, t, Needed(h, sys.db, tx.req))
    ensures Own(labels, t) && Completed(sys, t, tx.req, RunAll(h, Decide(sys, t, tx), labels))
  {
    var sys1 := Decide(sys, t, tx);
    DecideKeeps(h, sys, t, tx);
    hide Valid, Exclusive, TxOk, ReadKeys, Needed, Free, Rows, ApplyAll;
    match PlanOf(sys.db, tx.req)
    case Reject(e) =>
      labels := [];
      assert RunAll(h, sys1, []) == sys1;
    case Reread(id) =>
      var tx1 := tx.(phase := Rereading(id));
      assert sys1 == Put(sys, t, tx1);
      hide PlanOf;
      QuietHealthy(h, sys, t, sys1);
      FreeAfter(sys, t, tx1, Needed(h, sys.db, tx.req));
      labels := RereadFinishes(h, sys1, t);
      hide Healthy, Quiet, Effect;
      CompletedSince(sys, t, tx1, RunAll(h, sys1, labels));
    case Write(stmts, answer) =>
      var tx1 := tx.(phase := Writing(stmts, answer));
      assert sys1 == Put(sys, t, tx1);
      hide PlanOf;
      QuietHealthy(h, sys, t, sys1);
      FreeAfter(sys, t, tx1, Needed(h, sys.db, tx.req));
      labels := WritesFinish(h, sys1, t);
      hide Healthy, Quiet, Effect;
      CompletedSince(sys, t, tx1, RunAll(h, sys1, labels));
  }

  lemma RereadPlanned(h: string -> int, sys: System, t: nat)
    requires Healthy(h, sys) && t in sys.txs && sys.txs[t].phase.Rereading?
    ensures TxOk(h, sys.db, sys.txs[t]) && PlanOf(sys.db, sys.txs[t].req) == Reread(sys.txs[t].phase.application)
  {
    hide Valid, PlanOf, ReadKeys;
  }

  lemma RereadMisses(h: string -> int, sys: System, t: nat)
    requires Healthy(h, sys) && t in sys.txs && sys.txs[t].phase.Rereading?
    requires ApprovalOf(sys.db, sys.txs[t].phase.application).None?
    ensures Completed(sys, t, sys.txs[t].req, Step(h, sys, Statement(t)))
  {
    RereadPlanned(h, sys, t);
    hide Healthy, TxOk, PlanOf, ApplyAll, ApprovalOf;
  }

  lemma RereadFinds(h: string -> int, sys: System, t: nat, a: Approval)
    requires Healthy(h, sys) && t in sys.txs && sys.txs[t].phase.Rereading?
    requires ApprovalOf(sys.db, sys.txs[t].phase.application) == Some(a)
    requires Free(sys, t, Needed(h, sys.db, sys.txs[t].req))
    ensures Closer(h, sys, t, Step(h, sys, Statement(t)))
  {
    var tx := sys.txs[t];
    var tx1 := tx.(phase := Writing([], ApprovedAs(a, false)));
    RereadPlanned(h, sys, t);
    hide PlanOf, ApprovalOf, Needed;
    RereadOk(h, sys.db, tx);
    MovedHealthy(h, sys, t, tx1);
    FreeAfter(sys, t, tx1, Needed(h, sys.db, tx.req));
    hide Healthy, TxOk, Free;
  }

  lemma MovedHealthy(h: string -> int, sys: System, t: nat, tx: Tx)
    requires Healthy(h, sys) && t in sys.txs && tx.held == sys.txs[t].held && TxOk(h, sys.db, tx)
    ensures Healthy(h, Put(sys, t, tx))
  {
    hide Valid, TxOk;
  }

  lemma RereadMoves(h: string -> int, sys: System, t: nat)
    requires Healthy(h, sys) && t in sys.txs && sys.txs[t].phase.Rereading?
    requires Free(sys, t, Needed(h, sys.db, sys.txs[t].req))
    ensures var sys' := Step(h, sys, Statement(t));
      Completed(sys, t, sys.txs[t].req, sys') || Closer(h, sys, t, sys')
  {
    hide Healthy, ApprovalOf, Free, Needed, Step, Completed, Closer;
    match ApprovalOf(sys.db, sys.txs[t].phase.application)
    case None => RereadMisses(h, sys, t);
    case Some(a) => RereadFinds(h, sys, t, a);
  }

  lemma RereadFinishes(h: string -> int, sys: System, t: nat) returns (labels: seq<Label>)
    requires Healthy(h, sys) && t in sys.txs && sys.txs[t].phase.Rereading?
    requires Free(sys, t, Needed(h, sys.db, sys.txs[t].req))
    ensures Own(labels, t) && Completed(sys, t, sys.txs[t].req, RunAll(h, sys, labels))
  {
    hide Healthy, Needed, Free, Completed, Step, RunAll;
    var sys1 := Step(h, sys, Statement(t));
    RunAllMore(h, sys, [], Statement(t));
    RereadMoves(h, sys, t);
    labels := [Statement(t)];
    if !Completed(sys, t, sys.txs[t].req, sys1) {
      var more := WritesFinish(h, sys1, t);
      labels := labels + more;
      RunAllAppend(h, sys, [Statement(t)], more);
      CompletedSince(sys, t, sys1.txs[t], RunAll(h, sys, labels));
    }
  }

  lemma FreeCompletes(h: string -> int, sys: System, t: nat, req: Request) returns (labels: seq<Label>)
    requires Healthy(h, sys) && t !in sys.txs && Free(sys, t, Needed(h, sys.db, req))
    ensures Own(labels, t)
    ensures var sys' := RunAll(h, sys, [Begin(t, req)] + labels);
      Completed(sys, t, req, sys') && sys'.txs[t].held == {}
  {
    var sys1 := Step(h, sys, Begin(t, req));
    RunAllMore(h, sys, [], Begin(t, req));
    BeginHealthy(h, sys, t, req);
    labels := BegunFinishes(h, sys1, t);
    hide Healthy, Needed, Free, Step, RunAll, Exec;
    RunAllAppend(h, sys, [Begin(t, req)], labels);
    RunAllMore(h, sys, [Begin(t, req)] + labels, End(t));
    EndReleases(h, RunAll(h, sys, [Begin(t, req)] + labels), t);
    assert [Begin(t, req)] + labels + [End(t)] == [Begin(t, req)] + (labels + [End(t)]);
    labels := labels + [End(t)];
  }

  /** Progress. Whoever else is at work, a new client whose keys they do not hold finishes by steps of
      its own, with the effect and the answer of the atomic specification, logged once. */
  lemma Completes(h: string -> int, sys: System, t: nat, req: Request) returns (labels: seq<Label>)
    requires Healthy(h, sys) && t !in sys.txs
    requires forall u :: u in sys.txs ==> sys.txs[u].held !! Needed(h, sys.db, req)
    ensures Own(labels, t)
    ensures var sys' := RunAll(h, sys, [Begin(t, req)] + labels);
      Completed(sys, t, req, sys') && sys'.txs[t].held == {}
  {
    hide Healthy, Needed, RunAll, Completed;
    labels := FreeCompletes(h, sys, t, req);
  }

  lemma BeginHealthy(h: string -> int, sys: System, t: nat, req: Request)
    requires Healthy(h, sys) && t !in sys.txs && Free(sys, t, Needed(h, sys.db, req))
    ensures var sys' := Step(h, sys, Begin(t, req));
      && sys' == Put(sys, t, Tx(req, Begun, {}, [], [])) && Healthy(h, sys') && Free(sys', t, Needed(h, sys.db, req))
  {
    hide Valid, PlanOf, Needed;
  }

  lemma EndReleases(h: string -> int, sys: System, t: nat)
    requires t in sys.txs && sys.txs[t].phase.Finished?
    ensures Step(h, sys, End(t)) == Put(sys, t, sys.txs[t].(held := {}))
  {
  }

  lemma BegunFinishes(h: string -> int, sys: System, t: nat) returns (labels: seq<Label>)
    requires Healthy(h, sys) && t in sys.txs && sys.txs[t] == Tx(sys.txs[t].req, Begun, {}, [], [])
    requires Free(sys, t, Needed(h, sys.db, sys.txs[t].req))
    ensures Own(labels, t) && Completed(sys, t, sys.txs[t].req, RunAll(h, sys, labels))
  {
    var tx := sys.txs[t];
    var keys := ReadKeys(h, sys.db, tx.req);
    ReadsNeeded(h, sys.db, tx.req);
    FreeLess(sys, t, keys, Needed(h, sys.db, tx.req));
    RunAllMore(h, sys, [], Statement(t));
    FirstStep(h, sys, t);
    hide Healthy, Needed, Free, RunAll, ReadKeys, Decide, Completed, Step;
    var more;
    if tx.req.Create? {
      AdvisedHealthy(h, sys, t);
      more := AdvisedFinishes(h, Put(sys, t, tx.(phase := Advised, held := keys)), t);
      CompletedSince(sys, t, tx.(phase := Advised, held := keys), RunAll(h, Step(h, sys, Statement(t)), more));
    } else {
      more := DecidedFinishes(h, sys, t, tx.(held := keys));
    }
    labels := [Statement(t)] + more;
    RunAllAppend(h, sys, [Statement(t)], more);
  }

  lemma FirstStep(h: string -> int, sys: System, t: nat)
    requires t in sys.txs && sys.txs[t].phase.Begun? && Free(sys, t, ReadKeys(h, sys.db, sys.txs[t].req))
    ensures var tx := sys.txs[t]; var keys := ReadKeys(h, sys.db, tx.req);
      Step(h, sys, Statement(t)) ==
        if tx.req.Create? then Put(sys, t, tx.(phase := Advised, held := keys))
        else Decide(sys, t, tx.(held := keys))
  {
    hide ReadKeys, Free, Decide;
  }

  lemma AdvisedHealthy(h: string -> int, sys: System, t: nat)
    requires Healthy(h, sys) && t in sys.txs && sys.txs[t].phase.Begun? && sys.txs[t].req.Create?
    requires Free(sys, t, ReadKeys(h, sys.db, sys.txs[t].req))
    requires Free(sys, t, Needed(h, sys.db, sys.txs[t].req))
    ensures var keys := ReadKeys(h, sys.db, sys.txs[t].req);
      var sys' := Put(sys, t, sys.txs[t].(phase := Advised, held := keys));
      Healthy(h, sys') && Free(sys', t, keys) && Free(sys', t, Needed(h, sys.db, sys.txs[t].req))
  {
    hide Valid, PlanOf, Needed, ReadKeys;
  }

  lemma AdvisedFinishes(h: string -> int, sys: System, t: nat) returns (labels: seq<Label>)
    requires Healthy(h, sys) && t in sys.txs && sys.txs[t].phase.Advised? && Free(sys, t, sys.txs[t].held)
    requires Free(sys, t, Needed(h, sys.db, sys.txs[t].req))
    ensures Own(labels, t) && Completed(sys, t, sys.txs[t].req, RunAll(h, sys, labels))
  {
    assert TxOk(h, sys.db, sys.txs[t]);
    RunAllMore(h, sys, [], Statement(t));
    hide Healthy, ReadKeys, Needed, Free, RunAll, Decide, Completed;
    var more := DecidedFinishes(h, sys, t, sys.txs[t]);
    labels := [Statement(t)] + more;
    RunAllAppend(h, sys, [Statement(t)], more);
  }

  // ---- Every serial run is the log of some run --------------------------------------------------

  /** Nobody holds anything, and the clients so far are numbered below n. */
  ghost predicate Idle(sys: System, n: nat) {
    forall t :: t in sys.txs ==> t < n && sys.txs[t].held == {}
  }

  lemma IdleFree(sys: System, n: nat, keys: set<Key>)
    requires Idle(sys, n)
    ensures n !in sys.txs && Free(sys, n, keys)
  {
  }

  lemma IdleNext(sys: System, n: nat, req: Request, sys': System)
    requires Idle(sys, n) && Completed(sys, n, req, sys') && sys'.txs[n].held == {}
    ensures Idle(sys', n + 1)
  {
    hide Exec;
  }

  lemma StartHealthy(h: string -> int, db: Db)
    requires Valid(db)
    ensures Healthy(h, System(db, map[], []))
  {
    hide Valid;
  }

  /** Nothing is left out of the machine: whatever requests are to be executed in whatever order,
      there is a run with exactly this log, and by Serializability.Serialisable it leaves the state
      and gives the answers of executing them one after another. */
  lemma {:induction false} EverySerialRun(h: string -> int, db: Db, reqs: seq<Request>) returns (labels: seq<Label>)
    requires Valid(db)
    ensures var sys := RunAll(h, System(db, map[], []), labels);
      && Requests(sys.log) == reqs && Consistent(h, db, sys) && Idle(sys, |reqs|)
      && sys.db == StateAt(db, reqs, |reqs|)
      && forall i :: 0 <= i < |reqs| ==> sys.log[i].answer == AnswerAt(db, reqs, i)
  {
    hide Valid, Exec, Step, Healthy, Needed;
    if reqs == [] {
      labels := [];
      StartHealthy(h, db);
      Serialisable(h, db, []);
      assert RunAll(h, System(db, map[], []), []) == System(db, map[], []);
    } else {
      var n := |reqs| - 1;
      labels := EverySerialRun(h, db, reqs[..n]);
      var sys := RunAll(h, System(db, map[], []), labels);
      IdleFree(sys, n, Needed(h, sys.db, reqs[n]));
      var more := Completes(h, sys, n, reqs[n]);
      RunAllAppend(h, System(db, map[], []), labels, [Begin(n, reqs[n])] + more);
      IdleNext(sys, n, reqs[n], RunAll(h, sys, [Begin(n, reqs[n])] + more));
      labels := labels + ([Begin(n, reqs[n])] + more);
      Serialisable(h, db, labels);
      hide RunAll, StateAt;
      LogGrows(sys, n, reqs, RunAll(h, System(db, map[], []), labels));
    }
  }

  lemma LogGrows(sys: System, n: nat, reqs: seq<Request>, sys': System)
    requires |reqs| == n + 1 && Requests(sys.log) == reqs[..n] && Completed(sys, n, reqs[n], sys')
    ensures Requests(sys'.log) == reqs
  {
    hide Exec;
    assert Requests(sys'.log) == Requests(sys.log) + [reqs[n]];
    assert reqs == reqs[..n] + [reqs[n]];
  }
}
