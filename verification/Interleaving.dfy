/** The same transactions executed statement by statement by any number of clients at once,
    under row locks, advisory locks and unique-index waits, each statement reading what is
    committed when it runs. Every interleaving is equal to running the committed transactions
    alone, one after another, in commit order. */
module Interleaving {
  import opened Base
  import opened Schema
  import opened Transactions
  import opened Lifecycle

  /** What a transaction can hold until it ends: a row, an entry of a unique index, or the
      advisory lock on the hash of a payload fingerprint. */
  datatype Key =
    | SubmissionKey(id: Id) | ReviewKey(digest: Digest) | GrantKey(digest: Digest)
    | ReviewOfKey(id: Id) | ReviewReferenceKey(reference: Reference)
    | GrantOfKey(id: Id) | GrantReferenceKey(reference: Reference)
    | FingerprintKey(hash: int)

  datatype Phase =
    | Begun
    | Advised                                   // holds the advisory lock, has not queried yet
    | Rereading(application: Id)                // about to read the grant, without locking it
    | Writing(rest: seq<Stmt>, answer: Answer)  // statements still to run, then COMMIT
    | Finished(answer: Answer)

  /** `rows` are the uncommitted row versions written by the statements in `done`. */
  datatype Tx = Tx(req: Request, phase: Phase, held: set<Key>, done: seq<Stmt>, rows: seq<Db>)

  /** The log is not part of the program: it records answers in the order they took effect. */
  datatype Entry = Entry(tx: nat, req: Request, answer: Answer)

  datatype System = System(db: Db, txs: map<nat, Tx>, log: seq<Entry>)

  datatype Label =
    | Begin(tx: nat, req: Request)
    | Statement(tx: nat)   // run the next SQL statement, or wait for a lock
    | Commit(tx: nat)
    | Abort(tx: nat)       // driver error, cancellation or crash of the client
    | End(tx: nat)         // the deferred rollback of a call that returned early

  // ---- The machine ------------------------------------------------------------------------------

  function Fold(rows: seq<Db>): Db {
    if rows == [] then EMPTY else Overlay(Fold(rows[..|rows| - 1]), rows[|rows| - 1])
  }

  /** What a transaction sees: committed rows and its own uncommitted versions. */
  function Seen(db: Db, tx: Tx): Db {
    Overlay(db, Fold(tx.rows))
  }

  ghost predicate Free(sys: System, t: nat, keys: set<Key>) {
    forall u :: u in sys.txs && u != t ==> sys.txs[u].held !! keys
  }

  /** The locks of the first statement: FOR UPDATE OF r, s; FOR UPDATE; the advisory lock. */
  function ReadKeys(h: string -> int, db: Db, req: Request): set<Key> {
    match req
    case Approve(_, _, _, _) => DecisionKeys(db, req.review)
    case Decline(_, _) => DecisionKeys(db, req.review)
    case Claim(_, _, _, _, _) => GrantKeys(db, req.grant, req.email)
    case Consume(_, _, _, _) => GrantKeys(db, req.grant, req.email)
    case Release(_, _, _, _) => GrantKeys(db, req.grant, req.email)
    case Create(form, _, _, _, _) => {FingerprintKey(h(form.fingerprint))}
    case CloseGrant(d, _, _) => if d in db.grants then {GrantKey(d)} else {}
    case CloseReview(d, _, _) => if d in db.reviews then {ReviewKey(d)} else {}
  }

  function DecisionKeys(db: Db, review: Digest): set<Key> {
    if review in db.reviews && db.reviews[review].submissionId in db.submissions then
      {ReviewKey(review), SubmissionKey(db.reviews[review].submissionId)}
    else {}
  }

  function GrantKeys(db: Db, d: Digest, email: string): set<Key> {
    if GrantFound(db, d, email) then {GrantKey(d)} else {}
  }

  /** The row a statement names, and the unique-index entries an INSERT takes. */
  function TargetKeys(s: Stmt): set<Key> {
    match s
    case SetApproved(id, _) => {SubmissionKey(id)}
    case SetDeclined(id, _) => {SubmissionKey(id)}
    case SetDecided(_, _) => {}
    case InsertGrant(d, g) => {GrantKey(d), GrantOfKey(g.submissionId), GrantReferenceKey(g.reference)}
    case SetClaimed(d, _, _, _) => {GrantKey(d)}
    case SetConsumed(d, _) => {GrantKey(d)}
    case SetReleased(d) => {GrantKey(d)}
    case InsertSubmission(id, _) => {SubmissionKey(id)}
    case InsertReview(d, r) => {ReviewKey(d), ReviewOfKey(r.submissionId), ReviewReferenceKey(r.reference)}
    case SetGrantClosed(d, _, _) => {GrantKey(d)}
    case SetReviewClosed(d, _, _) => {ReviewKey(d)}
  }

  function StmtKeys(s: Stmt, rows: Db): set<Key> {
    TargetKeys(s) + set d | d in rows.reviews :: ReviewKey(d)
  }

  function Finish(tx: Tx, answer: Answer): Tx {
    tx.(phase := Finished(answer), done := [], rows := [])
  }

  function Put(sys: System, t: nat, tx: Tx): System {
    sys.(txs := sys.txs[t := tx])
  }

  function Logged(sys: System, t: nat, tx: Tx, answer: Answer): System {
    sys.(txs := sys.txs[t := tx], log := sys.log + [Entry(t, tx.req, answer)])
  }

  /** The read that decides what the transaction does. A rejection takes effect here. */
  ghost function Decide(sys: System, t: nat, tx: Tx): System {
    match PlanOf(sys.db, tx.req)
    case Reject(e) => Logged(sys, t, Finish(tx, Failed(e)), Failed(e))
    case Reread(id) => Put(sys, t, tx.(phase := Rereading(id)))
    case Write(stmts, answer) => Put(sys, t, tx.(phase := Writing(stmts, answer)))
  }

  /** A locking read locks the rows it finds and returns their committed versions; the
      advisory lock of CreateSubmission is a statement of its own. */
  ghost function FirstStatement(h: string -> int, sys: System, t: nat, tx: Tx): System {
    var keys := ReadKeys(h, sys.db, tx.req);
    if !Free(sys, t, keys) then sys
    else if tx.req.Create? then Put(sys, t, tx.(phase := Advised, held := keys))
    else Decide(sys, t, tx.(held := keys))
  }

  /** approvalQuery, unlocked: it reads whatever is committed now. */
  ghost function RereadStatement(sys: System, t: nat, tx: Tx, id: Id): System {
    match ApprovalOf(sys.db, id)
    case None => Logged(sys, t, Finish(tx, Failed(Storage)), Failed(Storage))
    case Some(a) => Put(sys, t, tx.(phase := Writing([], ApprovedAs(a, false))))
  }

  /** An UPDATE or INSERT: rejected by a constraint, waiting for a key, or executed. */
  ghost function WriteStatement(sys: System, t: nat, tx: Tx, rest: seq<Stmt>, answer: Answer): System
    requires rest != []
  {
    match Rows(rest[0], Seen(sys.db, tx))
    case None => Logged(sys, t, Finish(tx, Failed(Storage)), Failed(Storage))
    case Some(rows) =>
      var keys := StmtKeys(rest[0], rows);
      if !Free(sys, t, keys) then sys
      else Put(sys, t, tx.(phase := Writing(rest[1..], answer), held := tx.held + keys,
                           done := tx.done + [rest[0]], rows := tx.rows + [rows]))
  }

  ghost function RunStatement(h: string -> int, sys: System, t: nat): System
    requires t in sys.txs
  {
    var tx := sys.txs[t];
    match tx.phase
    case Begun => FirstStatement(h, sys, t, tx)
    case Advised => Decide(sys, t, tx)
    case Rereading(id) => RereadStatement(sys, t, tx, id)
    case Writing(rest, answer) => if rest == [] then sys else WriteStatement(sys, t, tx, rest, answer)
    case Finished(_) => sys
  }

  ghost function RunCommit(sys: System, t: nat): System
    requires t in sys.txs
  {
    var tx := sys.txs[t];
    if tx.phase.Writing? && tx.phase.rest == [] then
      Logged(sys.(db := Seen(sys.db, tx)), t, Finish(tx, tx.phase.answer).(held := {}), tx.phase.answer)
    else sys
  }

  /** One step of one client. A label that is not enabled changes nothing. */
  ghost function Step(h: string -> int, sys: System, l: Label): System {
    match l
    case Begin(t, req) => if t in sys.txs then sys else Put(sys, t, Tx(req, Begun, {}, [], []))
    case Statement(t) => if t in sys.txs then RunStatement(h, sys, t) else sys
    case Commit(t) => if t in sys.txs then RunCommit(sys, t) else sys
    case Abort(t) =>
      if t in sys.txs && !sys.txs[t].phase.Finished?
      then Put(sys, t, Finish(sys.txs[t], Failed(Storage)).(held := {})) else sys
    case End(t) =>
      if t in sys.txs && sys.txs[t].phase.Finished? then Put(sys, t, sys.txs[t].(held := {})) else sys
  }

  ghost function RunAll(h: string -> int, sys: System, labels: seq<Label>): System {
    if labels == [] then sys else Step(h, RunAll(h, sys, labels[..|labels| - 1]), labels[|labels| - 1])
  }

  // ---- What every step keeps --------------------------------------------------------------------

  /** Everything a transaction has written it holds, and an INSERT also holds the index
      entries that keep others from inserting a conflicting row. */
  ghost predicate Covered(h: string -> int, db: Db, delta: Db, held: set<Key>) {
    && CoveredSubmissions(h, db.submissions, delta.submissions, held)
    && CoveredReviews(db.reviews, delta.reviews, held)
    && CoveredGrants(db.grants, delta.grants, held)
  }

  ghost predicate CoveredSubmissions(h: string -> int, v: map<Id, Submission>, delta: map<Id, Submission>,
      held: set<Key>) {
    forall id :: id in delta ==>
      && SubmissionKey(id) in held
      && (id in v ==> SameForm(v[id], delta[id]))
      && (id !in v ==> FingerprintKey(h(delta[id].form.fingerprint)) in held)
  }

  ghost predicate CoveredReviews(v: map<Digest, Review>, delta: map<Digest, Review>, held: set<Key>) {
    forall d :: d in delta ==>
      && ReviewKey(d) in held
      && (d in v ==> SameReview(v[d], delta[d]))
      && (d !in v ==> ReviewOfKey(delta[d].submissionId) in held && ReviewReferenceKey(delta[d].reference) in held)
  }

  ghost predicate CoveredGrants(v: map<Digest, Grant>, delta: map<Digest, Grant>, held: set<Key>) {
    forall d :: d in delta ==>
      && GrantKey(d) in held
      && (d in v ==> SameGrant(v[d], delta[d]))
      && (d !in v ==> GrantOfKey(delta[d].submissionId) in held && GrantReferenceKey(delta[d].reference) in held)
  }

  /** The statements run so far, replayed on what is committed now, write the same rows. */
  ghost predicate Executed(h: string -> int, db: Db, done: seq<Stmt>, rows: seq<Db>, held: set<Key>) {
    && |done| == |rows|
    && (forall i :: 0 <= i < |rows| ==> Rows(done[i], Overlay(db, Fold(rows[..i]))) == Some(rows[i]))
    && (forall i :: 0 <= i < |rows| ==> StmtKeys(done[i], rows[i]) <= held)
    && (forall i :: 0 <= i <= |rows| ==> Covered(h, db, Fold(rows[..i]), held))
  }

  /** The plan in progress is the plan the committed state prescribes now. */
  ghost predicate Planned(db: Db, req: Request, done: seq<Stmt>, rest: seq<Stmt>, answer: Answer) {
    match PlanOf(db, req)
    case Reject(_) => false
    case Write(stmts, a) => stmts == done + rest && a == answer
    case Reread(id) =>
      && done == [] && rest == []
      && ApprovalOf(db, id).Some? && answer == ApprovedAs(ApprovalOf(db, id).value, false)
  }

  ghost predicate TxOk(h: string -> int, db: Db, tx: Tx) {
    match tx.phase
    case Begun => tx.held == {} && tx.done == [] && tx.rows == []
    case Advised => tx.req.Create? && ReadKeys(h, db, tx.req) <= tx.held && tx.done == [] && tx.rows == []
    case Rereading(id) =>
      PlanOf(db, tx.req) == Reread(id) && ReadKeys(h, db, tx.req) <= tx.held && tx.done == [] && tx.rows == []
    case Writing(rest, answer) =>
      && Planned(db, tx.req, tx.done, rest, answer) && ReadKeys(h, db, tx.req) <= tx.held
      && Executed(h, db, tx.done, tx.rows, tx.held)
    case Finished(_) => tx.done == [] && tx.rows == []
  }

  ghost predicate Exclusive(sys: System) {
    forall t, u :: t in sys.txs && u in sys.txs && t != u ==> sys.txs[t].held !! sys.txs[u].held
  }

  /** How the database may change under a client that holds `held`: rows only appear, they keep
      their identity, those held do not change, and no new row touches a held index entry. */
  ghost predicate Evolves(h: string -> int, v: Db, w: Db, held: set<Key>) {
    && SubmissionsEvolve(h, v.submissions, w.submissions, held)
    && ReviewsEvolve(v.reviews, w.reviews, held)
    && GrantsEvolve(v.grants, w.grants, held)
  }

  ghost predicate SubmissionsEvolve(h: string -> int, v: map<Id, Submission>, w: map<Id, Submission>, held: set<Key>) {
    && (forall id :: id in v ==> id in w && SameForm(v[id], w[id]))
    && (forall id :: SubmissionKey(id) in held && id in w ==> id in v && v[id] == w[id])
    && (forall id :: id in w && id !in v ==> FingerprintKey(h(w[id].form.fingerprint)) !in held)
  }

  ghost predicate ReviewsEvolve(v: map<Digest, Review>, w: map<Digest, Review>, held: set<Key>) {
    && (forall d :: d in v ==> d in w && SameReview(v[d], w[d]))
    && (forall d :: ReviewKey(d) in held && d in w ==> d in v && v[d] == w[d])
    && (forall d :: d in w && d !in v ==>
          ReviewOfKey(w[d].submissionId) !in held && ReviewReferenceKey(w[d].reference) !in held)
  }

  ghost predicate GrantsEvolve(v: map<Digest, Grant>, w: map<Digest, Grant>, held: set<Key>) {
    && (forall d :: d in v ==> d in w && SameGrant(v[d], w[d]))
    && (forall d :: GrantKey(d) in held && d in w ==> d in v && v[d] == w[d])
    && (forall d :: d in w && d !in v ==>
          GrantOfKey(w[d].submissionId) !in held && GrantReferenceKey(w[d].reference) !in held)
  }

  /** One client's commit, seen by another. */
  lemma CommitEvolves(h: string -> int, db: Db, delta: Db, theirs: set<Key>, mine: set<Key>)
    requires Covered(h, db, delta, theirs) && theirs !! mine
    ensures Evolves(h, db, Overlay(db, delta), mine)
  {
  }

  lemma SubmissionsSeen(h: string -> int, v: map<Id, Submission>, w: map<Id, Submission>,
      delta: map<Id, Submission>, held: set<Key>)
    requires SubmissionsEvolve(h, v, w, held) && CoveredSubmissions(h, v, delta, held)
    ensures SubmissionsEvolve(h, v + delta, w + delta, held) && CoveredSubmissions(h, w, delta, held)
  {
  }

  lemma ReviewsSeen(v: map<Digest, Review>, w: map<Digest, Review>, delta: map<Digest, Review>, held: set<Key>)
    requires ReviewsEvolve(v, w, held) && CoveredReviews(v, delta, held)
    ensures ReviewsEvolve(v + delta, w + delta, held) && CoveredReviews(w, delta, held)
  {
  }

  lemma GrantsSeen(v: map<Digest, Grant>, w: map<Digest, Grant>, delta: map<Digest, Grant>, held: set<Key>)
    requires GrantsEvolve(v, w, held) && CoveredGrants(v, delta, held)
    ensures GrantsEvolve(v + delta, w + delta, held) && CoveredGrants(w, delta, held)
  {
  }

  lemma SeenEvolves(h: string -> int, v: Db, w: Db, delta: Db, held: set<Key>)
    requires Evolves(h, v, w, held) && Covered(h, v, delta, held)
    ensures Evolves(h, Overlay(v, delta), Overlay(w, delta), held)
    ensures Covered(h, w, delta, held)
  {
    hide SubmissionsEvolve, ReviewsEvolve, GrantsEvolve, CoveredSubmissions, CoveredReviews, CoveredGrants;
    SubmissionsSeen(h, v.submissions, w.submissions, delta.submissions, held);
    ReviewsSeen(v.reviews, w.reviews, delta.reviews, held);
    GrantsSeen(v.grants, w.grants, delta.grants, held);
  }

  // ---- Nothing a transaction relies on changes under it -----------------------------------------

  lemma RecentStable(h: string -> int, v: Db, w: Db, held: set<Key>, fingerprint: string, since: Time)
    requires Evolves(h, v, w, held) && FingerprintKey(h(fingerprint)) in held
    ensures Recent(v, fingerprint, since) == Recent(w, fingerprint, since)
  {
    hide ReviewsEvolve, GrantsEvolve;
  }

  lemma DecisionStable(h: string -> int, v: Db, w: Db, held: set<Key>, review: Digest)
    requires Evolves(h, v, w, held) && DecisionKeys(v, review) <= held && DecisionKeys(v, review) != {}
    ensures DecisionKeys(w, review) == DecisionKeys(v, review)
    ensures w.reviews[review] == v.reviews[review]
    ensures w.submissions[v.reviews[review].submissionId] == v.submissions[v.reviews[review].submissionId]
  {
    hide GrantsEvolve;
    assert SubmissionKey(v.reviews[review].submissionId) in held;
  }

  /** The rows a locking read returned stay the committed rows, and so does the answer of the
      window query: the plan made from them stays the plan the committed state prescribes. */
  lemma PlanStable(h: string -> int, v: Db, w: Db, held: set<Key>, req: Request)
    requires Evolves(h, v, w, held) && ReadKeys(h, v, req) <= held && !PlanOf(v, req).Reject?
    ensures PlanOf(w, req) == PlanOf(v, req) && ReadKeys(h, w, req) == ReadKeys(h, v, req)
  {
    match req
    case Approve(review, _, _, _) =>
      hide Evolves;
      DecisionStable(h, v, w, held, review);
    case Decline(review, _) =>
      hide Evolves;
      DecisionStable(h, v, w, held, review);
    case Create(form, since, _, _, _) =>
      hide Evolves;
      RecentStable(h, v, w, held, form.fingerprint, since);
    case CloseReview(d, _, _) => assert ReviewKey(d) in held;
    case _ =>
      hide SubmissionsEvolve, ReviewsEvolve;
      assert GrantKey(req.grant) in held;
  }

  /** The one unlocked read, of the grant of an approved application, touches only columns
      that never change and a row that is never joined by another. */
  lemma ApprovalStable(h: string -> int, v: Db, w: Db, held: set<Key>, id: Id)
    requires Evolves(h, v, w, held) && UniqueGrants(w) && ApprovalOf(v, id).Some?
    ensures ApprovalOf(w, id) == ApprovalOf(v, id)
  {
    hide ReviewsEvolve;
    var d :| d in v.grants && v.grants[d].submissionId == id && ApprovalOf(v, id) == Some(ApprovalFrom(v, id, d));
    assert d in w.grants && w.grants[d].submissionId == id;
    assert HasGrant(w, id);
  }

  lemma DecidedRowsStable(h: string -> int, v: Db, w: Db, held: set<Key>, id: Id, now: Time, r: Db)
    requires Evolves(h, v, w, held) && UniqueReviews(w)
    requires DecidedRows(v, id, now) == Some(r) && r.reviews != map[]
    requires forall d :: d in r.reviews ==> ReviewKey(d) in held
    ensures DecidedRows(w, id, now) == Some(r)
  {
    hide SubmissionsEvolve, GrantsEvolve, ReviewCheck;
    var rows := map d | d in w.reviews && w.reviews[d].submissionId == id :: WithDecided(w.reviews[d], now);
    var e :| e in r.reviews;
    assert rows == r.reviews;
  }

  lemma RowsStable(h: string -> int, v: Db, w: Db, held: set<Key>, s: Stmt, r: Db)
    requires Evolves(h, v, w, held) && Rows(s, v) == Some(r) && StmtKeys(s, r) <= held
    requires s.SetDecided? ==> UniqueReviews(w) && r.reviews != map[]
    ensures Rows(s, w) == Some(r)
  {
    hide SubmissionCheck, ReviewCheck, GrantCheck;
    match s
    case SetDecided(id, now) =>
      hide Evolves;
      forall d | d in r.reviews ensures ReviewKey(d) in held { assert ReviewKey(d) in StmtKeys(s, r); }
      DecidedRowsStable(h, v, w, held, id, now, r);
    case InsertGrant(d, g) =>
      hide ReviewsEvolve;
      assert {GrantKey(d), GrantOfKey(g.submissionId), GrantReferenceKey(g.reference)} <= held;
      assert FreeGrant(w, g);
    case InsertReview(d, g) =>
      hide GrantsEvolve;
      assert {ReviewKey(d), ReviewOfKey(g.submissionId), ReviewReferenceKey(g.reference)} <= held;
      assert FreeReview(w, g);
    case SetApproved(id, _) => assert SubmissionKey(id) in held;
    case SetDeclined(id, _) => assert SubmissionKey(id) in held;
    case InsertSubmission(id, _) => assert SubmissionKey(id) in held;
    case SetReviewClosed(d, _, _) => assert ReviewKey(d) in held;
    case _ =>
      hide SubmissionsEvolve, ReviewsEvolve;
      assert GrantKey(s.digest) in held;
  }

  /** The UPDATE by application id runs second, on the review the first read locked. */
  lemma DecidedInPlan(db: Db, req: Request, i: nat)
    requires PlanOf(db, req).Write? && i < |PlanOf(db, req).stmts| && PlanOf(db, req).stmts[i].SetDecided?
    ensures i == 1 && (PlanOf(db, req).stmts[0].SetApproved? || PlanOf(db, req).stmts[0].SetDeclined?)
    ensures exists d :: d in db.reviews && db.reviews[d].submissionId == PlanOf(db, req).stmts[1].id
  {
    if req.Approve? || req.Decline? {
      assert db.reviews[req.review].submissionId == PlanOf(db, req).stmts[1].id;
    }
  }

  /** What the second statement sees of the reviews is what is committed. */
  lemma DecidesSomething(db: Db, done: seq<Stmt>, rows: seq<Db>, d: Digest)
    requires |done| >= 2 && |rows| >= 2 && (done[0].SetApproved? || done[0].SetDeclined?) && done[1].SetDecided?
    requires Rows(done[0], Overlay(db, Fold(rows[..0]))) == Some(rows[0])
    requires Rows(done[1], Overlay(db, Fold(rows[..1]))) == Some(rows[1])
    requires d in db.reviews && db.reviews[d].submissionId == done[1].id
    ensures Fold(rows[..1]).reviews == map[] && rows[1].reviews != map[]
  {
    hide SubmissionCheck, ReviewCheck;
    assert rows[..1] == [rows[0]] && [rows[0]][..0] == [];
    assert rows[0].reviews == map[];
    assert Overlay(db, Fold(rows[..1])).reviews == db.reviews;
    assert d in rows[1].reviews;
  }

  lemma ExecutedStable(h: string -> int, db: Db, db': Db, tx: Tx)
    requires tx.phase.Writing? && TxOk(h, db, tx) && Evolves(h, db, db', tx.held) && Valid(db')
    ensures Executed(h, db', tx.done, tx.rows, tx.held)
  {
    hide Evolves, Valid, Covered, Rows, StmtKeys;
    forall i | 0 <= i <= |tx.rows| ensures Covered(h, db', Fold(tx.rows[..i]), tx.held) {
      SeenEvolves(h, db, db', Fold(tx.rows[..i]), tx.held);
    }
    forall i | 0 <= i < |tx.rows| ensures Rows(tx.done[i], Overlay(db', Fold(tx.rows[..i]))) == Some(tx.rows[i]) {
      var delta := Fold(tx.rows[..i]);
      SeenEvolves(h, db, db', delta, tx.held);
      if tx.done[i].SetDecided? {
        assert tx.done[i] == (tx.done + tx.phase.rest)[i] && tx.done[0] == (tx.done + tx.phase.rest)[0];
        DecidedInPlan(db, tx.req, i);
        var d :| d in db.reviews && db.reviews[d].submissionId == tx.done[1].id;
        DecidesSomething(db, tx.done, tx.rows, d);
        SameReviews(db', delta);
      }
      RowsStable(h, Overlay(db, delta), Overlay(db', delta), tx.held, tx.done[i], tx.rows[i]);
    }
  }

  lemma SameReviews(db: Db, delta: Db)
    requires Valid(db) && delta.reviews == map[]
    ensures UniqueReviews(Overlay(db, delta))
  {
    hide SubmissionsOk, ReviewsOk, GrantsOk, UniqueGrants;
    assert Overlay(db, delta).reviews == db.reviews;
  }

  /** What a transaction has read, planned and written survives other clients' commits. */
  lemma TxStable(h: string -> int, db: Db, db': Db, tx: Tx)
    requires TxOk(h, db, tx) && Evolves(h, db, db', tx.held) && Valid(db')
    ensures TxOk(h, db', tx)
  {
    match tx.phase
    case Begun =>
    case Finished(_) =>
    case Advised =>
      hide Evolves, Valid;
    case Rereading(_) =>
      hide Evolves, Valid, PlanOf, ReadKeys;
      PlanStable(h, db, db', tx.held, tx.req);
    case Writing(rest, answer) =>
      ExecutedStable(h, db, db', tx);
      hide Evolves, PlanOf, ReadKeys, Executed, ApprovalOf;
      PlanStable(h, db, db', tx.held, tx.req);
      if PlanOf(db, tx.req).Reread? {
        ApprovalStable(h, db, db', tx.held, PlanOf(db, tx.req).application);
      }
  }

  // ---- A client's own steps ---------------------------------------------------------------------

  lemma CoveredMore(h: string -> int, db: Db, delta: Db, held: set<Key>, more: set<Key>)
    requires Covered(h, db, delta, held) && held <= more
    ensures Covered(h, db, delta, more)
  {
  }

  lemma CoveredSubmission(h: string -> int, db: Db, delta: Db, held: set<Key>, id: Id, s: Submission)
    requires Covered(h, db, delta, held) && SubmissionKey(id) in held
    requires id in Overlay(db, delta).submissions ==> SameForm(Overlay(db, delta).submissions[id], s)
    requires id !in Overlay(db, delta).submissions ==> FingerprintKey(h(s.form.fingerprint)) in held
    ensures Covered(h, db, Overlay(delta, Db(map[id := s], map[], map[])), held)
  {
    hide CoveredReviews, CoveredGrants;
    OverlayOneRow(delta);
  }

  lemma CoveredReview(h: string -> int, db: Db, delta: Db, held: set<Key>, rows: map<Digest, Review>)
    requires Covered(h, db, delta, held)
    requires forall d :: d in rows ==>
      && ReviewKey(d) in held
      && (d in Overlay(db, delta).reviews ==> SameReview(Overlay(db, delta).reviews[d], rows[d]))
      && (d !in Overlay(db, delta).reviews ==>
            ReviewOfKey(rows[d].submissionId) in held && ReviewReferenceKey(rows[d].reference) in held)
    ensures Covered(h, db, Overlay(delta, Db(map[], rows, map[])), held)
  {
    hide CoveredSubmissions, CoveredGrants;
    OverlayOneRow(Db(delta.submissions, map[], delta.grants));
  }

  lemma CoveredGrant(h: string -> int, db: Db, delta: Db, held: set<Key>, d: Digest, g: Grant)
    requires Covered(h, db, delta, held) && GrantKey(d) in held
    requires d in Overlay(db, delta).grants ==> SameGrant(Overlay(db, delta).grants[d], g)
    requires d !in Overlay(db, delta).grants ==>
      GrantOfKey(g.submissionId) in held && GrantReferenceKey(g.reference) in held
    ensures Covered(h, db, Overlay(delta, Db(map[], map[], map[d := g])), held)
  {
    hide CoveredSubmissions, CoveredReviews;
    OverlayOneRow(delta);
  }

  lemma CoveredStep(h: string -> int, db: Db, delta: Db, held: set<Key>, s: Stmt, r: Db)
    requires Covered(h, db, delta, held) && Rows(s, Overlay(db, delta)) == Some(r) && StmtKeys(s, r) <= held
    requires s.InsertSubmission? ==> FingerprintKey(h(s.submission.form.fingerprint)) in held
    ensures Covered(h, db, Overlay(delta, r), held)
  {
    hide Covered, SubmissionCheck, ReviewCheck, GrantCheck, FreeReview, FreeGrant;
    if r == EMPTY {
      OverlayOneRow(delta);
    } else {
      match s
      case SetDecided(id, now) =>
        forall d | d in r.reviews ensures ReviewKey(d) in held { assert ReviewKey(d) in StmtKeys(s, r); }
        CoveredReview(h, db, delta, held, r.reviews);
      case InsertReview(d, g) =>
        assert {ReviewKey(d), ReviewOfKey(g.submissionId), ReviewReferenceKey(g.reference)} <= held;
        CoveredReview(h, db, delta, held, r.reviews);
      case SetReviewClosed(d, _, _) =>
        assert ReviewKey(d) in held;
        CoveredReview(h, db, delta, held, r.reviews);
      case SetApproved(id, _) =>
        assert SubmissionKey(id) in held;
        CoveredSubmission(h, db, delta, held, id, r.submissions[id]);
      case SetDeclined(id, _) =>
        assert SubmissionKey(id) in held;
        CoveredSubmission(h, db, delta, held, id, r.submissions[id]);
      case InsertSubmission(id, _) =>
        assert SubmissionKey(id) in held;
        CoveredSubmission(h, db, delta, held, id, r.submissions[id]);
      case InsertGrant(d, g) =>
        assert {GrantKey(d), GrantOfKey(g.submissionId), GrantReferenceKey(g.reference)} <= held;
        CoveredGrant(h, db, delta, held, d, g);
      case _ =>
        assert GrantKey(s.digest) in held;
        CoveredGrant(h, db, delta, held, s.digest, r.grants[s.digest]);
    }
  }
}
