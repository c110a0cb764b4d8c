/** The duplicate window of CreateSubmission: how close two stored rows with one payload
    fingerprint can be, over whole runs and under any relation between the clocks. */
module Window {
  import opened Base
  import opened Schema
  import opened Transactions
  import opened Lifecycle
  import opened Runs
  import Interleaving
  import Serializability

  /** Stored rows with one fingerprint are more than `gap` apart. */
  ghost predicate Apart(db: Db, gap: Time) {
    forall i, j :: i in db.submissions && j in db.submissions && i != j
      && db.submissions[i].form.fingerprint == db.submissions[j].form.fingerprint
      && db.submissions[i].createdAt <= db.submissions[j].createdAt
      ==> db.submissions[j].createdAt - db.submissions[i].createdAt > gap
  }

  /** created_at is the start of the inserting transaction, so that start minus the cut-off
      of the window query is what separates a new row from the rows it ignored. */
  predicate Patient(reqs: seq<Request>, gap: Time) {
    forall i | 0 <= i < |reqs| && reqs[i].Create? :: reqs[i].start - reqs[i].since >= gap
  }

  lemma InsertApart(db: Db, form: Form, since: Time, capability: Option<Candidate>, id: Id, start: Time, gap: Time)
    requires Apart(db, gap) && start - since >= gap && id !in db.submissions
    requires Recent(db, form.fingerprint, since) == map[]
    ensures Apart(AfterCreate(db, form, capability, id, start), gap)
  {
    var db' := AfterCreate(db, form, capability, id, start);
    forall i | i in db.submissions && db.submissions[i].form.fingerprint == form.fingerprint
      ensures db.submissions[i].createdAt < since
    {
      assert i !in Recent(db, form.fingerprint, since);
    }
  }

  lemma SameRowsApart(db: Db, db': Db, gap: Time)
    requires Apart(db, gap) && db'.submissions.Keys == db.submissions.Keys
    requires forall id :: id in db.submissions ==> SameForm(db.submissions[id], db'.submissions[id])
    ensures Apart(db', gap)
  {
  }

  lemma OnlyCreateInserts(db: Db, req: Request)
    requires Valid(db) && !req.Create?
    ensures Exec(db, req).0.submissions.Keys == db.submissions.Keys
  {
    hide Valid, Exec, Insertable, GrantMove;
    match req
    case Approve(review, c, now, start) => ApproveCases(db, review, c, now, start);
    case Decline(review, now) => DeclineCases(db, review, now);
    case CloseReview(d, closing, now) => CloseReviewCases(db, d, closing, now);
    case _ => GrantCases(db, req);
  }

  lemma FormsStay(db: Db, req: Request)
    requires Valid(db)
    ensures forall id :: id in db.submissions ==>
      id in Exec(db, req).0.submissions && SameForm(db.submissions[id], Exec(db, req).0.submissions[id])
  {
    hide Valid, Exec, GrantMove, ReviewMove;
    ExecMoves(db, req);
  }

  lemma StepApart(db: Db, req: Request, gap: Time)
    requires Valid(db) && Apart(db, gap) && (req.Create? ==> req.start - req.since >= gap)
    ensures Apart(Exec(db, req).0, gap)
  {
    hide Valid, Exec, Storable, Apart;
    if req.Create? {
      CreateCases(db, req.form, req.since, req.capability, req.id, req.start);
      if Exec(db, req).0 != db {
        assert req.id !in db.submissions by { CreateFresh(db, req); }
        InsertApart(db, req.form, req.since, req.capability, req.id, req.start, gap);
      }
    } else {
      OnlyCreateInserts(db, req);
      FormsStay(db, req);
      SameRowsApart(db, Exec(db, req).0, gap);
    }
  }

  lemma CreateFresh(db: Db, req: Request)
    requires req.Create? && Storable(db, req.form, req.capability, req.id, req.start)
    ensures req.id !in db.submissions
  {
  }

  /** In every reachable state rows with one fingerprint are more than the gap apart. */
  lemma {:induction false} RunApart(db: Db, reqs: seq<Request>, gap: Time, i: nat)
    requires Valid(db) && Apart(db, gap) && Patient(reqs, gap) && i <= |reqs|
    ensures Apart(StateAt(db, reqs, i), gap)
  {
    hide Valid, Exec, Apart;
    if i > 0 {
      RunApart(db, reqs, gap, i - 1);
      RunValid(db, reqs, i - 1);
      StepApart(StateAt(db, reqs, i - 1), reqs[i - 1], gap);
    }
  }

  /** The service computes the cut-off as now - window. If no reading is ahead of the start of
      the transaction it precedes by more than `skew`, the gap is window - skew. */
  predicate ClockedBy(reqs: seq<Request>, nows: seq<Time>, window: Time, skew: Time) {
    && |nows| == |reqs|
    && forall i | 0 <= i < |reqs| && reqs[i].Create? ::
         reqs[i].since == nows[i] - window && nows[i] <= reqs[i].start + skew
  }

  lemma DuplicateWindow(db: Db, reqs: seq<Request>, nows: seq<Time>, window: Time, skew: Time, i: nat)
    requires Valid(db) && Apart(db, window - skew) && ClockedBy(reqs, nows, window, skew) && i <= |reqs|
    ensures Apart(StateAt(db, reqs, i), window - skew)
  {
    RunApart(db, reqs, window - skew, i);
  }

  /** The condition on the clocks is exact: a request that starts less than `gap` after its
      cut-off breaks the separation of some database that had it. */
  lemma ClockAheadBreaksWindow(
    form: Form, since: Time, capability: Option<Candidate>, id: Id, start: Time, gap: Time) returns (db: Db)
    requires Acceptable(form, capability, start) && 0 <= gap && start - since < gap
    ensures Valid(db) && Apart(db, gap)
    ensures var (db', answer) := Exec(db, Create(form, since, capability, id, start));
      answer == Submitted(id, true) && !Apart(db', gap)
  {
    var created := if start < since then start else since - 1;
    db := Db(map[id + 1 := NewSubmission(form, created)], map[], map[]);
    OneRow(form, created, id + 1, gap);
    hide Exec, Valid, Apart, SubmissionCheck, ReviewCheck;
    assert Recent(db, form.fingerprint, since) == map[];
    CreateCases(db, form, since, capability, id, start);
    TwoRows(db, form, capability, id, created, start, gap);
  }

  /** A submission that no constraint rejects on its own account. */
  predicate Acceptable(form: Form, capability: Option<Candidate>, start: Time) {
    && (form.kind == EarlyAccess) == capability.Some?
    && SubmissionCheck(NewSubmission(form, start))
    && (capability.Some? ==>
          |capability.value.digest.bytes| == DIGEST_LENGTH && ReviewCheck(NewReview(0, capability.value, start)))
  }

  lemma OneRow(form: Form, created: Time, id: Id, gap: Time)
    requires SubmissionCheck(NewSubmission(form, created))
    ensures var db := Db(map[id := NewSubmission(form, created)], map[], map[]); Valid(db) && Apart(db, gap)
  {
  }

  lemma TwoRows(db: Db, form: Form, capability: Option<Candidate>, id: Id, created: Time, start: Time, gap: Time)
    requires db.submissions == map[id + 1 := NewSubmission(form, created)]
    requires created <= start && start - created <= gap
    ensures !Apart(AfterCreate(db, form, capability, id, start), gap)
  {
    var db' := AfterCreate(db, form, capability, id, start);
    assert id in db'.submissions && id + 1 in db'.submissions;
    assert db'.submissions[id + 1] == NewSubmission(form, created);
  }

  /** A submission keeps rows of one fingerprint apart, from whatever separated database it starts. */
  ghost predicate KeepsApart(req: Request, gap: Time) {
    forall db :: Valid(db) && Apart(db, gap) ==> Apart(Exec(db, req).0, gap)
  }

  /** The condition on the clocks, exactly: a well-formed submission of either kind keeps every
      separated database separated iff it starts at least the gap after its cut-off. */
  lemma ClockConditionExact(form: Form, since: Time, capability: Option<Candidate>, id: Id, start: Time, gap: Time)
    requires Acceptable(form, capability, start) && 0 <= gap
    ensures KeepsApart(Create(form, since, capability, id, start), gap) <==> start - since >= gap
  {
    hide Valid, Apart, Exec, Acceptable;
    var req := Create(form, since, capability, id, start);
    if start - since >= gap {
      forall db | Valid(db) && Apart(db, gap) ensures Apart(Exec(db, req).0, gap) { StepApart(db, req, gap); }
    } else {
      var db := ClockAheadBreaksWindow(form, since, capability, id, start, gap);
    }
  }

  // ---- How many rows a span of time can hold ----------------------------------------------------

  ghost function SpanRows(db: Db, fingerprint: string, from: Time, length: nat): set<Id> {
    set id | id in db.submissions && db.submissions[id].form.fingerprint == fingerprint
      && from <= db.submissions[id].createdAt <= from + length
  }

  lemma QuotientStep(a: nat, b: nat, w: nat)
    requires w > 0 && a + w <= b
    ensures a / w + 1 <= b / w
  {
    assert (a / w + 1) * w <= b;
  }

  lemma NewestOf(times: map<Id, Time>, ids: set<Id>) returns (id: Id)
    requires ids != {} && ids <= times.Keys
    ensures id in ids && forall other :: other in ids ==> times[other] <= times[id]
  {
    var some := map i | i in ids :: times[i];
    assert some.Keys == ids;
    NewestExists(some);
    id :| IsNewest(some, id);
    forall other | other in ids ensures times[other] <= times[id] {
      assert other in some;
    }
  }

  lemma {:induction false} Packing(times: map<Id, Time>, ids: set<Id>, from: Time, length: nat, gap: nat)
    requires gap > 0 && ids <= times.Keys
    requires forall i :: i in ids ==> from <= times[i] <= from + length
    requires forall i, j :: i in ids && j in ids && i != j && times[i] <= times[j] ==> times[j] - times[i] > gap
    ensures |ids| <= length / gap + 1
    decreases |ids|
  {
    if ids != {} {
      var last := NewestOf(times, ids);
      var rest := ids - {last};
      assert |rest| == |ids| - 1;
      if rest != {} {
        var next := NewestOf(times, rest);
        var shorter := times[next] - from;
        Packing(times, rest, from, shorter, gap);
        QuotientStep(shorter, length, gap);
      }
    }
  }

  /** A span of length L holds at most floor(L / gap) + 1 rows with one fingerprint. */
  lemma SpanBound(db: Db, fingerprint: string, from: Time, length: nat, gap: nat)
    requires Apart(db, gap) && gap > 0
    ensures |SpanRows(db, fingerprint, from, length)| <= length / gap + 1
  {
    var times := map id | id in db.submissions :: db.submissions[id].createdAt;
    Packing(times, SpanRows(db, fingerprint, from, length), from, length, gap);
  }

  // ---- Under all interleavings ------------------------------------------------------------------

  predicate Timely(req: Request, gap: Time) {
    req.Create? ==> req.start - req.since >= gap
  }

  ghost predicate AllTimely(sys: Interleaving.System, gap: Time) {
    forall t :: t in sys.txs ==> Timely(sys.txs[t].req, gap)
  }

  lemma StepTimely(h: string -> int, sys: Interleaving.System, l: Interleaving.Label, gap: Time)
    requires Serializability.Healthy(h, sys) && AllTimely(sys, gap)
    requires l.Begin? ==> Timely(l.req, gap)
    ensures AllTimely(Interleaving.Step(h, sys, l), gap)
  {
    if !l.Begin? {
      Serializability.StepKeeps(h, sys, l);
      if l.tx !in sys.txs { NoNewTransaction(h, sys, l); }
      hide Serializability.Healthy, Interleaving.Step, Interleaving.TxOk, Interleaving.Free, Exec, Timely,
        Interleaving.Evolves;
    }
  }

  lemma NoNewTransaction(h: string -> int, sys: Interleaving.System, l: Interleaving.Label)
    requires !l.Begin? && l.tx !in sys.txs
    ensures Interleaving.Step(h, sys, l) == sys
  {
  }

  lemma {:induction false} RunTimely(h: string -> int, db0: Db, labels: seq<Interleaving.Label>, gap: Time)
    requires Valid(db0) && forall i :: 0 <= i < |labels| && labels[i].Begin? ==> Timely(labels[i].req, gap)
    ensures AllTimely(Interleaving.RunAll(h, Interleaving.System(db0, map[], []), labels), gap)
  {
    hide Valid, Interleaving.Step, Serializability.Healthy, Timely, Serializability.Serial, Serializability.Answered;
    if labels != [] {
      hide AllTimely;
      var before := labels[..|labels| - 1];
      assert forall i :: 0 <= i < |before| ==> before[i] == labels[i];
      RunTimely(h, db0, before, gap);
      Serializability.Serialisable(h, db0, before);
      StepTimely(h, Interleaving.RunAll(h, Interleaving.System(db0, map[], []), before), labels[|labels| - 1], gap);
    }
  }

  /** The duplicate window under every interleaving of concurrent submissions with anything else:
      if each CreateSubmission begins at least `gap` after the cut-off it was given, committed
      rows with one fingerprint are more than `gap` apart, and any span holds few of them. */
  lemma WindowInterleaved(h: string -> int, db0: Db, labels: seq<Interleaving.Label>, gap: nat,
      fingerprint: string, from: Time, length: nat)
    requires Valid(db0) && Apart(db0, gap) && gap > 0
    requires forall i :: 0 <= i < |labels| && labels[i].Begin? ==> Timely(labels[i].req, gap)
    ensures var db := Interleaving.RunAll(h, Interleaving.System(db0, map[], []), labels).db;
      Apart(db, gap) && |SpanRows(db, fingerprint, from, length)| <= length / gap + 1
  {
    hide Valid, Interleaving.RunAll, Serializability.Healthy, Apart, StateAt, SpanRows;
    var sys := Interleaving.RunAll(h, Interleaving.System(db0, map[], []), labels);
    RunTimely(h, db0, labels, gap);
    Serializability.Serialisable(h, db0, labels);
    var reqs := Serializability.Requests(sys.log);
    forall i | 0 <= i < |reqs| && reqs[i].Create? ensures reqs[i].start - reqs[i].since >= gap {
      assert sys.txs[sys.log[i].tx].req == reqs[i];
    }
    RunApart(db0, reqs, gap, |reqs|);
    SpanBound(sys.db, fingerprint, from, length, gap);
  }
}
