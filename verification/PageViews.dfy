/** Page-view counters: RecordVisit statement by statement under unique-index waits and row locks,
    and what the counters mean. */
module PageViews {
  import opened Base

  datatype Counter = Counter(total: nat, unique: nat)

  const ZERO := Counter(0, 0)

  /** page_view_counters and the primary keys of page_view_visitors. */
  datatype Tables = Tables(pages: map<string, Counter>, visitors: set<(string, string)>)

  datatype Visit = Visit(page: string, visitor: string)

  // ---- One visit alone --------------------------------------------------------------------------

  predicate IsNew(db: Tables, v: Visit) {
    v.visitor != "" && (v.page, v.visitor) !in db.visitors
  }

  function CountOf(db: Tables, page: string): Counter {
    if page in db.pages then db.pages[page] else ZERO
  }

  function Counted(c: Counter, isNew: bool): Counter {
    Counter(c.total + 1, c.unique + if isNew then 1 else 0)
  }

  function After(db: Tables, v: Visit): Tables {
    Tables(db.pages[v.page := Counted(CountOf(db, v.page), IsNew(db, v))],
           if v.visitor == "" then db.visitors else db.visitors + {(v.page, v.visitor)})
  }

  /** The store's two methods, one client at a time. A statement in `faults` fails, and the
      deferred rollback then leaves the tables as they were; but a commit that is only not
      acknowledged has taken effect. */
  datatype Stage = Opening | PageInsert | VisitorInsert | CounterUpdate | CounterSelect | Committing | Acknowledging

  class CounterStore {
    var tables: Tables

    constructor ()
      ensures tables == Tables(map[], {})
    {
      tables := Tables(map[], {});
    }

    method RecordVisit(page: string, visitor: string, faults: set<Stage>) returns (r: Option<Counter>)
      modifies this
      ensures var stages := {Opening, PageInsert, CounterUpdate, CounterSelect, Committing}
          + if visitor != "" then {VisitorInsert} else {};
        && tables == (if stages !! faults then After(old(tables), Visit(page, visitor)) else old(tables))
        && r == if stages + {Acknowledging} !! faults then Some(CountOf(tables, page)) else None
    {
      if Opening in faults { return None; }
      var pages, visitors := tables.pages, tables.visitors;
      if PageInsert in faults { return None; }
      if page !in pages { pages := pages[page := ZERO]; }
      var isNewVisitor := false;
      if visitor != "" {
        if VisitorInsert in faults { return None; }
        isNewVisitor := (page, visitor) !in visitors;
        visitors := visitors + {(page, visitor)};
      }
      if CounterUpdate in faults { return None; }
      pages := pages[page := Counted(pages[page], isNewVisitor)];
      if CounterSelect in faults || Committing in faults { return None; }
      assert pages == After(tables, Visit(page, visitor)).pages;
      tables := Tables(pages, visitors);
      if Acknowledging in faults { return None; }
      return Some(pages[page]);
    }

    method GetCounts(page: string, faults: set<Stage>) returns (r: Option<Counter>)
      ensures r == if CounterSelect in faults then None else Some(CountOf(tables, page))
    {
      if CounterSelect in faults { return None; }
      if page !in tables.pages { return Some(ZERO); }
      return Some(tables.pages[page]);
    }
  }

  // ---- What the counters mean -------------------------------------------------------------------

  function Visits(log: seq<Visit>, page: string): nat {
    if log == [] then 0
    else Visits(log[..|log| - 1], page) + if log[|log| - 1].page == page then 1 else 0
  }

  /** The distinct non-empty visitor ids seen on a page. */
  function Visitors(log: seq<Visit>, page: string): set<string> {
    set i | 0 <= i < |log| && log[i].page == page && log[i].visitor != "" :: log[i].visitor
  }

  /** The tables hold exactly what the committed visits, in any order, add up to. */
  ghost predicate Tallies(db: Tables, log: seq<Visit>) {
    && (forall p :: p in db.pages <==> Visits(log, p) > 0)
    && (forall p :: CountOf(db, p) == Counter(Visits(log, p), |Visitors(log, p)|))
    && (forall p, v :: (p, v) in db.visitors <==> v in Visitors(log, p))
  }

  lemma VisitorsMore(log: seq<Visit>, v: Visit, page: string)
    ensures Visitors(log + [v], page) ==
      Visitors(log, page) + if v.page == page && v.visitor != "" then {v.visitor} else {}
  {
    var more := log + [v];
    assert forall i :: 0 <= i < |log| ==> more[i] == log[i];
    assert more[|log|] == v;
    forall x | x in Visitors(log, page) ensures x in Visitors(more, page) {
      var i :| 0 <= i < |log| && log[i].page == page && log[i].visitor != "" && log[i].visitor == x;
      assert more[i].visitor == x;
    }
  }

  lemma VisitsMore(log: seq<Visit>, v: Visit, page: string)
    ensures Visits(log + [v], page) == Visits(log, page) + if v.page == page then 1 else 0
  {
    assert (log + [v])[..|log|] == log;
  }

  lemma AfterCount(db: Tables, log: seq<Visit>, v: Visit, p: string)
    requires Tallies(db, log)
    ensures CountOf(After(db, v), p) == Counter(Visits(log + [v], p), |Visitors(log + [v], p)|)
  {
    VisitsMore(log, v, p);
    VisitorsMore(log, v, p);
    hide Visits, Visitors;
    var before := Visitors(log, p);
    assert CountOf(db, p) == Counter(Visits(log, p), |before|);
    assert before + {} == before;
    if p == v.page && v.visitor != "" {
      assert IsNew(db, v) <==> v.visitor !in before;
      if v.visitor in before { assert before + {v.visitor} == before; }
    }
  }

  lemma AfterTallies(db: Tables, log: seq<Visit>, v: Visit)
    requires Tallies(db, log)
    ensures Tallies(After(db, v), log + [v])
  {
    hide Visits, Visitors;
    var db' := After(db, v);
    forall p ensures p in db'.pages <==> Visits(log + [v], p) > 0 { VisitsMore(log, v, p); }
    forall p
      ensures CountOf(db', p) == Counter(Visits(log + [v], p), |Visitors(log + [v], p)|)
    {
      AfterCount(db, log, v, p);
    }
    forall p, x ensures (p, x) in db'.visitors <==> x in Visitors(log + [v], p) { VisitorsMore(log, v, p); }
    hide CountOf, After;
  }

  lemma {:induction false} UniqueAtMostTotal(log: seq<Visit>, page: string)
    ensures |Visitors(log, page)| <= Visits(log, page)
  {
    if log != [] {
      var v := log[|log| - 1];
      UniqueAtMostTotal(log[..|log| - 1], page);
      VisitorsMore(log[..|log| - 1], v, page);
      assert log == log[..|log| - 1] + [v];
    }
  }

  // ---- The interleaved machine ------------------------------------------------------------------

  datatype Phase = Begun | Paged | Visited | Updated | Selected(answer: Counter) | Committed(answer: Counter) | Aborted

  /** `insertedPage` and `insertedVisitor` are uncommitted index entries; `row` is the uncommitted
      version of the counter, whose row lock the transaction holds. */
  datatype Tx = Tx(visit: Visit, phase: Phase, insertedPage: bool, insertedVisitor: bool, row: Option<Counter>)

  datatype System = System(db: Tables, txs: map<nat, Tx>, log: seq<Visit>, answers: seq<Counter>)

  datatype Label = Begin(tx: nat, visit: Visit) | Statement(tx: nat) | Commit(tx: nat) | Abort(tx: nat)

  ghost predicate PageFree(sys: System, t: nat, page: string) {
    forall u :: u in sys.txs && u != t && sys.txs[u].visit.page == page ==> !sys.txs[u].insertedPage
  }

  ghost predicate VisitorFree(sys: System, t: nat, v: Visit) {
    forall u :: u in sys.txs && u != t && sys.txs[u].visit == v ==> !sys.txs[u].insertedVisitor
  }

  ghost predicate RowFree(sys: System, t: nat, page: string) {
    forall u :: u in sys.txs && u != t && sys.txs[u].visit.page == page ==> sys.txs[u].row.None?
  }

  /** The next statement, or a wait for whoever holds what it needs. */
  ghost function Next(sys: System, t: nat): Tx
    requires t in sys.txs
  {
    var tx := sys.txs[t];
    var v := tx.visit;
    match tx.phase
    case Begun =>
      if v.page in sys.db.pages then tx.(phase := Paged)
      else if PageFree(sys, t, v.page) then tx.(phase := Paged, insertedPage := true) else tx
    case Paged =>
      if v.visitor == "" || (v.page, v.visitor) in sys.db.visitors then tx.(phase := Visited)
      else if VisitorFree(sys, t, v) then tx.(phase := Visited, insertedVisitor := true) else tx
    case Visited =>
      if RowFree(sys, t, v.page)
      then tx.(phase := Updated, row := Some(Counted(CountOf(sys.db, v.page), tx.insertedVisitor))) else tx
    case Updated => if tx.row.Some? then tx.(phase := Selected(tx.row.value)) else tx
    case _ => tx
  }

  function Ended(tx: Tx, phase: Phase): Tx {
    tx.(phase := phase, insertedPage := false, insertedVisitor := false, row := None)
  }

  ghost function Step(sys: System, l: Label): System {
    match l
    case Begin(t, v) => if t in sys.txs then sys else sys.(txs := sys.txs[t := Tx(v, Begun, false, false, None)])
    case Statement(t) => if t in sys.txs then sys.(txs := sys.txs[t := Next(sys, t)]) else sys
    case Commit(t) =>
      if t in sys.txs && sys.txs[t].phase.Selected? && sys.txs[t].row.Some? then
        var tx := sys.txs[t];
        System(
          Tables(sys.db.pages[tx.visit.page := tx.row.value],
                 if tx.insertedVisitor then sys.db.visitors + {(tx.visit.page, tx.visit.visitor)} else sys.db.visitors),
          sys.txs[t := Ended(tx, Committed(tx.phase.answer))],
          sys.log + [tx.visit], sys.answers + [tx.phase.answer])
      else sys
    case Abort(t) =>
      if t in sys.txs && !sys.txs[t].phase.Committed?
      then sys.(txs := sys.txs[t := Ended(sys.txs[t], Aborted)]) else sys
  }

  ghost function Run(sys: System, labels: seq<Label>): System {
    if labels == [] then sys else Step(Run(sys, labels[..|labels| - 1]), labels[|labels| - 1])
  }

  const START := System(Tables(map[], {}), map[], [], [])

  // ---- What every step keeps --------------------------------------------------------------------

  predicate Late(phase: Phase) {
    phase.Updated? || phase.Selected?
  }

  /** What a transaction relies on still holds of what is committed now. */
  predicate TxOk(db: Tables, tx: Tx) {
    var v := tx.visit;
    && (tx.insertedPage ==> v.page !in db.pages)
    && (tx.insertedVisitor ==> IsNew(db, v))
    && ((tx.phase.Visited? || Late(tx.phase)) && !tx.insertedVisitor ==> !IsNew(db, v))
    && (tx.row.Some? <==> Late(tx.phase))
    && (tx.row.Some? ==> tx.row.value == Counted(CountOf(db, v.page), IsNew(db, v)))
    && (tx.phase.Selected? ==> tx.row == Some(tx.phase.answer))
    && (tx.phase.Paged? || tx.phase.Visited? || Late(tx.phase) ==> v.page in db.pages || tx.insertedPage)
  }

  ghost predicate Apart(sys: System) {
    forall t, u :: t in sys.txs && u in sys.txs && t != u && sys.txs[t].visit.page == sys.txs[u].visit.page ==>
      && !(sys.txs[t].insertedPage && sys.txs[u].insertedPage)
      && !(sys.txs[t].row.Some? && sys.txs[u].row.Some?)
      && !(sys.txs[t].visit == sys.txs[u].visit && sys.txs[t].insertedVisitor && sys.txs[u].insertedVisitor)
  }

  /** Each committed visit was answered with the count of the visits up to and including it. */
  ghost predicate Answered(log: seq<Visit>, answers: seq<Counter>) {
    && |answers| == |log|
    && forall i :: 0 <= i < |log| ==>
         answers[i] == Counter(Visits(log[..i + 1], log[i].page), |Visitors(log[..i + 1], log[i].page)|)
  }

  ghost predicate Inv(sys: System) {
    && (forall t :: t in sys.txs ==> TxOk(sys.db, sys.txs[t])) && Apart(sys)
    && Tallies(sys.db, sys.log) && Answered(sys.log, sys.answers)
  }

  lemma NextOk(sys: System, t: nat)
    requires t in sys.txs && TxOk(sys.db, sys.txs[t]) && Apart(sys)
    ensures TxOk(sys.db, Next(sys, t)) && Apart(sys.(txs := sys.txs[t := Next(sys, t)]))
  {
  }

  lemma CommitIsVisit(sys: System, t: nat)
    requires t in sys.txs && TxOk(sys.db, sys.txs[t]) && sys.txs[t].phase.Selected? && sys.txs[t].row.Some?
    ensures var sys' := Step(sys, Commit(t)); var v := sys.txs[t].visit;
      && sys'.db == After(sys.db, v) && CountOf(sys'.db, v.page) == sys.txs[t].phase.answer
  {
    var v := sys.txs[t].visit;
    if !sys.txs[t].insertedVisitor && v.visitor != "" {
      assert sys.db.visitors + {(v.page, v.visitor)} == sys.db.visitors;
    }
  }

  /** Another transaction's commit changes nothing a transaction relies on. */
  lemma CommitLeaves(sys: System, t: nat, u: nat)
    requires Apart(sys) && t in sys.txs && u in sys.txs && t != u && TxOk(sys.db, sys.txs[t])
    requires TxOk(sys.db, sys.txs[u])
    requires sys.txs[t].phase.Selected? && sys.txs[t].row.Some?
    ensures TxOk(Step(sys, Commit(t)).db, sys.txs[u])
  {
  }

  lemma AnsweredMore(log: seq<Visit>, answers: seq<Counter>, v: Visit, c: Counter)
    requires Answered(log, answers) && c == Counter(Visits(log + [v], v.page), |Visitors(log + [v], v.page)|)
    ensures Answered(log + [v], answers + [c])
  {
    hide Visits, Visitors;
    var more := log + [v];
    forall i | 0 <= i < |more|
      ensures (answers + [c])[i]
        == Counter(Visits(more[..i + 1], more[i].page), |Visitors(more[..i + 1], more[i].page)|)
    {
      if i < |log| { assert more[..i + 1] == log[..i + 1]; } else { assert more[..i + 1] == more; }
    }
  }

  lemma CommitKeeps(sys: System, t: nat)
    requires Inv(sys)
    ensures Inv(Step(sys, Commit(t)))
  {
    hide Tallies, Answered, Visits, Visitors;
    if t in sys.txs && sys.txs[t].phase.Selected? && sys.txs[t].row.Some? {
      var v := sys.txs[t].visit;
      var sys' := Step(sys, Commit(t));
      CommitIsVisit(sys, t);
      AfterTallies(sys.db, sys.log, v);
      TallyOf(sys'.db, sys'.log, v.page);
      AnsweredMore(sys.log, sys.answers, v, sys.txs[t].phase.answer);
      forall u | u in sys'.txs ensures TxOk(sys'.db, sys'.txs[u]) {
        if u != t { CommitLeaves(sys, t, u); }
      }
      hide TxOk, CountOf;
    }
  }

  lemma TallyOf(db: Tables, log: seq<Visit>, page: string)
    requires Tallies(db, log)
    ensures CountOf(db, page) == Counter(Visits(log, page), |Visitors(log, page)|)
  {
  }

  lemma StepKeeps(sys: System, l: Label)
    requires Inv(sys)
    ensures Inv(Step(sys, l))
  {
    hide Tallies, Answered;
    match l
    case Commit(t) =>
      hide *;
      CommitKeeps(sys, t);
    case Statement(t) =>
      if t in sys.txs {
        NextOk(sys, t);
        hide Next, Apart, TxOk;
      }
    case _ =>
  }

  lemma StartInv()
    ensures Inv(START)
  {
  }

  /** Counter refinement. After any interleaving of RecordVisit transactions, aborted ones
      included, each page's total is the number of its committed visits and its unique count the
      number of distinct non-empty visitor ids among them, and so was every answer given. */
  lemma {:induction false} CountersExact(labels: seq<Label>)
    ensures Inv(Run(START, labels))
  {
    hide Inv, Step;
    if labels == [] {
      StartInv();
    } else {
      CountersExact(labels[..|labels| - 1]);
      StepKeeps(Run(START, labels[..|labels| - 1]), labels[|labels| - 1]);
    }
  }

  function OnPage(log: seq<Visit>, page: string): seq<Visit> {
    if log == [] then []
    else OnPage(log[..|log| - 1], page) + if log[|log| - 1].page == page then [log[|log| - 1]] else []
  }

  lemma {:induction false} OnPageCounts(log: seq<Visit>, page: string)
    ensures Visits(OnPage(log, page), page) == Visits(log, page)
    ensures Visitors(OnPage(log, page), page) == Visitors(log, page)
  {
    if log != [] {
      var front, v := log[..|log| - 1], log[|log| - 1];
      OnPageCounts(front, page);
      VisitorsMore(front, v, page);
      assert log == front + [v];
      if v.page == page {
        VisitsMore(OnPage(front, page), v, page);
        VisitorsMore(OnPage(front, page), v, page);
      } else {
        assert OnPage(log, page) == OnPage(front, page);
      }
    }
  }

  /** What GetCounts reports for a page after any interleaving: unique visitors never exceed
      visits, and visits to other pages make no difference. */
  lemma PageCounts(labels: seq<Label>, page: string)
    ensures var sys := Run(START, labels); var c := CountOf(sys.db, page);
      && c == Counter(Visits(sys.log, page), |Visitors(sys.log, page)|)
      && c.unique <= c.total
      && c == Counter(Visits(OnPage(sys.log, page), page), |Visitors(OnPage(sys.log, page), page)|)
  {
    hide Run, Tallies, Answered, Apart, TxOk;
    CountersExact(labels);
    var sys := Run(START, labels);
    TallyOf(sys.db, sys.log, page);
    UniqueAtMostTotal(sys.log, page);
    OnPageCounts(sys.log, page);
  }

  // ---- A client left alone finishes -------------------------------------------------------------

  /** No other client has inserted anything for the page, or holds its counter. */
  ghost predicate PageQuiet(sys: System, t: nat, page: string) {
    forall u :: u in sys.txs && u != t && sys.txs[u].visit.page == page ==>
      !sys.txs[u].insertedPage && !sys.txs[u].insertedVisitor && sys.txs[u].row.None?
  }

  /** The visit is counted, once, and answered with the counter it leaves. */
  ghost predicate Recorded(sys: System, t: nat, v: Visit, sys': System) {
    && sys'.db == After(sys.db, v) && sys'.log == sys.log + [v]
    && sys'.answers == sys.answers + [CountOf(After(sys.db, v), v.page)]
    && t in sys'.txs && sys'.txs[t].phase == Committed(CountOf(After(sys.db, v), v.page))
    && forall u :: u != t ==> (u in sys'.txs <==> u in sys.txs) && (u in sys.txs ==> sys'.txs[u] == sys.txs[u])
  }

  lemma RunMore(sys: System, labels: seq<Label>, l: Label)
    ensures Run(sys, labels + [l]) == Step(Run(sys, labels), l) && Run(sys, []) == sys
  {
    hide Step;
    assert (labels + [l])[..|labels|] == labels;
  }

  lemma {:induction false} RunAppend(sys: System, a: seq<Label>, b: seq<Label>)
    ensures Run(sys, a + b) == Run(Run(sys, a), b)
  {
    hide Step;
    if b == [] {
      assert a + b == a;
    } else {
      assert (a + b)[..|a + b| - 1] == a + b[..|b| - 1];
      RunAppend(sys, a, b[..|b| - 1]);
    }
  }

  /** The statements of one visit, with nobody in the way. */
  function Statements(sys: System, v: Visit): Tx {
    var isNew := IsNew(sys.db, v);
    var row := Counted(CountOf(sys.db, v.page), isNew);
    Tx(v, Selected(row), v.page !in sys.db.pages, isNew, Some(row))
  }

  lemma FirstTwo(sys: System, t: nat, v: Visit)
    requires t !in sys.txs && PageQuiet(sys, t, v.page)
    ensures Step(Step(sys, Begin(t, v)), Statement(t))
      == sys.(txs := sys.txs[t := Tx(v, Paged, v.page !in sys.db.pages, false, None)])
  {
    var tx := Tx(v, Begun, false, false, None);
    assert Step(sys, Begin(t, v)) == sys.(txs := sys.txs[t := tx]);
  }

  lemma OneByOne(sys: System, t: nat, v: Visit)
    requires t !in sys.txs && PageQuiet(sys, t, v.page)
    ensures var s1 := Step(sys, Begin(t, v)); var s2 := Step(s1, Statement(t)); var s3 := Step(s2, Statement(t));
      var s4 := Step(s3, Statement(t)); var s5 := Step(s4, Statement(t));
      s5 == sys.(txs := sys.txs[t := Statements(sys, v)])
  {
    FirstTwo(sys, t, v);
    var tx2 := Tx(v, Paged, v.page !in sys.db.pages, false, None);
    var s2 := sys.(txs := sys.txs[t := tx2]);
    var tx3 := tx2.(phase := Visited, insertedVisitor := IsNew(sys.db, v));
    assert Step(s2, Statement(t)) == sys.(txs := sys.txs[t := tx3]);
    LastTwo(sys, t, v, tx3, Counted(CountOf(sys.db, v.page), IsNew(sys.db, v)));
  }

  lemma LastTwo(sys: System, t: nat, v: Visit, tx: Tx, row: Counter)
    requires PageQuiet(sys, t, v.page) && tx.phase == Visited && tx.visit == v && tx.row.None?
    requires row == Counted(CountOf(sys.db, v.page), tx.insertedVisitor)
    ensures Step(Step(sys.(txs := sys.txs[t := tx]), Statement(t)), Statement(t))
      == sys.(txs := sys.txs[t := tx.(phase := Selected(row), row := Some(row))])
  {
    var tx4 := tx.(phase := Updated, row := Some(row));
    assert Step(sys.(txs := sys.txs[t := tx]), Statement(t)) == sys.(txs := sys.txs[t := tx4]);
  }

  lemma ThenCommits(sys: System, t: nat, v: Visit)
    requires t !in sys.txs
    ensures Recorded(sys, t, v, Step(sys.(txs := sys.txs[t := Statements(sys, v)]), Commit(t)))
  {
    if !IsNew(sys.db, v) && v.visitor != "" {
      assert sys.db.visitors + {(v.page, v.visitor)} == sys.db.visitors;
    }
  }

  /** Progress. Whoever else is at work on other pages, a new client records its visit. */
  lemma Completes(sys: System, t: nat, v: Visit) returns (labels: seq<Label>)
    requires t !in sys.txs && PageQuiet(sys, t, v.page)
    ensures Recorded(sys, t, v, Run(sys, labels))
  {
    OneByOne(sys, t, v);
    ThenCommits(sys, t, v);
    hide Step, Recorded, Statements;
    labels := [];
    RunMore(sys, labels, Begin(t, v));
    labels := labels + [Begin(t, v)];
    RunMore(sys, labels, Statement(t));
    labels := labels + [Statement(t)];
    RunMore(sys, labels, Statement(t));
    labels := labels + [Statement(t)];
    RunMore(sys, labels, Statement(t));
    labels := labels + [Statement(t)];
    RunMore(sys, labels, Statement(t));
    labels := labels + [Statement(t)];
    RunMore(sys, labels, Commit(t));
    labels := labels + [Commit(t)];
  }

  /** A rollback undoes everything its client did: once it has aborted, a new client records its visit
      as if the first had never begun. */
  lemma CompletesAfterAbort(sys: System, u: nat, t: nat, v: Visit) returns (labels: seq<Label>)
    requires t !in sys.txs && u in sys.txs && !sys.txs[u].phase.Committed?
    requires forall x :: x in sys.txs && x != u && sys.txs[x].visit.page == v.page ==>
      !sys.txs[x].insertedPage && !sys.txs[x].insertedVisitor && sys.txs[x].row.None?
    ensures var sys' := Run(sys, [Abort(u)] + labels);
      sys'.db == After(sys.db, v) && sys'.log == sys.log + [v] && u in sys'.txs && sys'.txs[u].phase == Aborted
  {
    var sys1 := Step(sys, Abort(u));
    assert sys1.db == sys.db && sys1.log == sys.log && sys1.txs[u].phase == Aborted && PageQuiet(sys1, t, v.page);
    RunMore(sys, [], Abort(u));
    hide Step, Run, After, PageQuiet;
    labels := Completes(sys1, t, v);
    RunAppend(sys, [Abort(u)], labels);
    assert [] + [Abort(u)] == [Abort(u)];
  }

  /** All clients so far are numbered below n and have committed. */
  ghost predicate Idle(sys: System, n: nat) {
    forall t :: t in sys.txs ==>
      t < n && !sys.txs[t].insertedPage && !sys.txs[t].insertedVisitor && sys.txs[t].row.None?
  }

  lemma IdleNext(sys: System, n: nat, v: Visit, labels: seq<Label>)
    requires Idle(sys, n) && Recorded(sys, n, v, Run(sys, labels)) && Run(sys, labels).txs[n].row.None?
    requires !Run(sys, labels).txs[n].insertedPage && !Run(sys, labels).txs[n].insertedVisitor
    ensures Idle(Run(sys, labels), n + 1)
  {
    hide Run, After, CountOf;
  }

  /** Nothing is left out of the machine: every sequence of visits is the log of some run. */
  lemma {:induction false} EveryLog(visits: seq<Visit>) returns (labels: seq<Label>)
    ensures Run(START, labels).log == visits && Inv(Run(START, labels)) && Idle(Run(START, labels), |visits|)
  {
    hide Step, Inv;
    if visits == [] {
      labels := [];
      StartInv();
    } else {
      var n := |visits| - 1;
      labels := EveryLog(visits[..n]);
      var sys := Run(START, labels);
      var more := Completes(sys, n, visits[n]);
      RunAppend(START, labels, more);
      CountersExact(labels + more);
      CommittedHoldsNothing(labels + more);
      IdleNext(sys, n, visits[n], more);
      labels := labels + more;
      assert visits == visits[..n] + [visits[n]];
    }
  }

  /** What has been committed holds nothing any more. */
  ghost predicate Released(sys: System) {
    forall t :: t in sys.txs && sys.txs[t].phase.Committed? ==>
      sys.txs[t].row.None? && !sys.txs[t].insertedPage && !sys.txs[t].insertedVisitor
  }

  lemma ReleasedStep(sys: System, l: Label)
    requires Released(sys)
    ensures Released(Step(sys, l))
  {
  }

  lemma {:induction false} CommittedHoldsNothing(labels: seq<Label>)
    ensures Released(Run(START, labels))
  {
    hide Step;
    if labels != [] {
      CommittedHoldsNothing(labels[..|labels| - 1]);
      ReleasedStep(Run(START, labels[..|labels| - 1]), labels[|labels| - 1]);
    }
  }
}
