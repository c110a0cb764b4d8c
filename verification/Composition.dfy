/** The services on top of the database run statement by statement: calls in flight, each with at
    most one transaction of its own, and other transactions beside them. Every such run looks,
    at the points where transactions take effect, like a run of the services over an atomic
    database, so everything proved of module Protocol holds of it. */
module Composition {
  import opened Base
  import opened Schema
  import opened Transactions
  import opened Tokens
  import opened Protocol
  import opened Messages
  import opened Quiescence
  import Aftermath
  import Interleaving
  import Serializability

  type System = Interleaving.System

  /** `front` holds the services' own state; its database is the committed one. The reply of a
      transaction in `lost` never reached its client, which saw an error. */
  datatype Whole = Whole(sys: System, front: World, lost: set<nat>)

  datatype Act =
    | Service(step: Label)                                     // any step of a call but its transaction
    | BeginFor(call: nat, now: Time, start: Time, id: Id)      // a call begins its transaction
    | BeginDirect(tx: nat, req: Request)
    | Database(stmt: Interleaving.Label)                       // a statement, commit, abort or rollback
    | LoseCommit(tx: nat)                                      // a commit whose acknowledgement is lost
    | Receive(call: nat)                                       // the answer reaches the call

  predicate Awaits(call: Call) {
    call.Approving? || call.Submitting? || call.SubmittingPlain? || call.Consuming?
  }

  predicate Ended(sys: System, t: nat) {
    t in sys.txs && sys.txs[t].phase.Finished?
  }

  function Reply(sys: System, lost: set<nat>, t: nat): Answer
    requires Ended(sys, t)
  {
    if t in lost then Failed(Storage) else sys.txs[t].phase.answer
  }

  /** The services' state after a commit nobody heard of. */
  function Unheard(front: World, t: nat, db: Db): World {
    if t in front.calls then Recorded(front, front.calls[t], db, CommitLost) else front.(db := db)
  }

  /** A call crashes before or after its transaction; module Crashes shows that one which crashes
      while its transaction runs makes no difference to anything but itself. */
  predicate ServiceEnabled(w: Whole, l: Label) {
    && !l.Transact? && !l.Direct?
    && (l.StartApprove? || l.StartSubmit? || l.StartConsume? ==> l.call !in w.sys.txs)
    && (l.Crash? && l.call in w.sys.txs ==> Ended(w.sys, l.call))
  }

  ghost function Do(h: string -> int, sha: string -> Digest, w: Whole, a: Act): Whole {
    match a
    case Service(l) => if ServiceEnabled(w, l) then w.(front := Step(sha, w.front, l)) else w
    case BeginFor(c, now, start, id) =>
      if c in w.front.calls && c !in w.sys.txs && Awaits(w.front.calls[c])
      then
        var req := RequestOf(sha, w.front.calls[c], now, start, id).value;
        w.(sys := Interleaving.Step(h, w.sys, Interleaving.Begin(c, req)))
      else w
    case BeginDirect(t, req) =>
      if t !in w.front.calls && t !in w.sys.txs && DatabaseOnly(req)
      then w.(sys := Interleaving.Step(h, w.sys, Interleaving.Begin(t, req))) else w
    case Database(l) =>
      if l.Begin? then w else
      var sys := Interleaving.Step(h, w.sys, l);
      w.(sys := sys, front := w.front.(db := sys.db))
    case LoseCommit(t) =>
      var sys := Interleaving.Step(h, w.sys, Interleaving.Commit(t));
      if Ended(sys, t) && !Ended(w.sys, t)
      then Whole(sys, Unheard(w.front, t, sys.db), w.lost + {t})
      else w
    case Receive(c) =>
      if c in w.front.calls && Awaits(w.front.calls[c]) && Ended(w.sys, c)
      then w.(front := WithCall(w.front, c, Resume(sha, w.front.calls[c], Reply(w.sys, w.lost, c)))) else w
  }

  ghost function DoAll(h: string -> int, sha: string -> Digest, w: Whole, acts: seq<Act>): Whole {
    if acts == [] then w else Do(h, sha, DoAll(h, sha, w, acts[..|acts| - 1]), acts[|acts| - 1])
  }

  function Start(db: Db): Whole {
    Whole(Interleaving.System(db, map[], []), Initial(db), {})
  }

  // ---- The atomic world a composite state stands for --------------------------------------------

  /** A call whose transaction has ended has, atomically seen, moved on already. */
  function Seen(sha: string -> Digest, sys: System, lost: set<nat>, c: nat, call: Call): Call {
    if Awaits(call) && Ended(sys, c) then Resume(sha, call, Reply(sys, lost, c)) else call
  }

  function Calls(sha: string -> Digest, sys: System, lost: set<nat>, calls: map<nat, Call>): map<nat, Call> {
    map c | c in calls :: Seen(sha, sys, lost, c, calls[c])
  }

  function Atomic(sha: string -> Digest, w: Whole): World {
    w.front.(calls := Calls(sha, w.sys, w.lost, w.front.calls))
  }

  /** The request is the one the call makes, at some clock readings. */
  predicate Makes(sha: string -> Digest, call: Call, req: Request) {
    match req
    case Approve(_, _, now, start) => RequestOf(sha, call, now, start, 0) == Some(req)
    case Create(_, _, _, id, start) => RequestOf(sha, call, 0, start, id) == Some(req)
    case Consume(_, _, _, now) => RequestOf(sha, call, now, 0, 0) == Some(req)
    case _ => false
  }

  /** A transaction still running belongs to a call that waits for it, or touches the database only. */
  predicate Belongs(sha: string -> Digest, w: Whole, t: nat)
    requires t in w.sys.txs
  {
    if t in w.front.calls then
      if Awaits(w.front.calls[t]) then Makes(sha, w.front.calls[t], w.sys.txs[t].req) else Ended(w.sys, t)
    else Ended(w.sys, t) || DatabaseOnly(w.sys.txs[t].req)
  }

  ghost predicate Linked(h: string -> int, sha: string -> Digest, w: Whole) {
    && Serializability.Healthy(h, w.sys) && w.front.db == w.sys.db
    && (forall t :: t in w.sys.txs ==> Belongs(sha, w, t))
    && (forall t :: t in w.lost ==> Ended(w.sys, t))
  }

  /** The atomic step, if any, that ending transaction t amounts to. */
  function EndOf(sha: string -> Digest, w: Whole, t: nat, fate: Fate): Label
    requires t in w.sys.txs
  {
    var req := w.sys.txs[t].req;
    if t in w.front.calls then
      match req
      case Approve(_, _, now, start) => Transact(t, now, start, 0, fate)
      case Create(_, _, _, id, start) => Transact(t, 0, start, id, fate)
      case Consume(_, _, _, now) => Transact(t, now, 0, 0, fate)
      case _ => Direct(req, fate)
    else Direct(req, fate)
  }

  lemma CallsSet(sha: string -> Digest, sys: System, lost: set<nat>, calls: map<nat, Call>, c: nat, call: Call)
    requires !Awaits(call) || !Ended(sys, c)
    ensures Calls(sha, sys, lost, calls[c := call]) == Calls(sha, sys, lost, calls)[c := call]
  {
    hide Resume;
  }

  lemma CallsGone(sha: string -> Digest, sys: System, lost: set<nat>, calls: map<nat, Call>, c: nat)
    ensures Calls(sha, sys, lost, calls - {c}) == Calls(sha, sys, lost, calls) - {c}
  {
    hide Resume;
  }

  /** Ending transaction t moves the call that waits for it, and no other. */
  lemma CallsEnd(sha: string -> Digest, sys: System, lost: set<nat>, sys': System, lost': set<nat>,
      calls: map<nat, Call>, t: nat)
    requires t in calls && Awaits(calls[t]) && !Ended(sys, t) && Ended(sys', t)
    requires forall u :: u != t ==> (u in sys.txs <==> u in sys'.txs) && (u in sys.txs ==> sys'.txs[u] == sys.txs[u])
    requires forall u :: u != t ==> (u in lost <==> u in lost')
    ensures Calls(sha, sys', lost', calls)
      == Calls(sha, sys, lost, calls)[t := Resume(sha, calls[t], Reply(sys', lost', t))]
    ensures t in Calls(sha, sys, lost, calls) && Calls(sha, sys, lost, calls)[t] == calls[t]
  {
    hide Resume;
  }

  /** Nothing shows of a transaction that has no waiting call, has not ended, or ended before. */
  lemma CallsSame(sha: string -> Digest, sys: System, lost: set<nat>, sys': System, lost': set<nat>,
      calls: map<nat, Call>, t: nat)
    requires t in calls && Awaits(calls[t]) ==>
      Ended(sys, t) == Ended(sys', t) && (Ended(sys, t) ==> Reply(sys, lost, t) == Reply(sys', lost', t))
    requires forall u :: u != t ==> (u in sys.txs <==> u in sys'.txs) && (u in sys.txs ==> sys'.txs[u] == sys.txs[u])
    requires forall u :: u != t ==> (u in lost <==> u in lost')
    ensures Calls(sha, sys', lost', calls) == Calls(sha, sys, lost, calls)
  {
    hide Resume;
  }

  // ---- Steps of the services --------------------------------------------------------------------

  /** A service step touches its own call only, and no step but a start makes a call wait. */
  ghost predicate OwnCall(w: World, c: nat, w': World) {
    && (forall u :: u != c ==> (u in w'.calls <==> u in w.calls) && (u in w.calls ==> w'.calls[u] == w.calls[u]))
    && (c in w.calls && c in w'.calls && (Awaits(w.calls[c]) || Awaits(w'.calls[c])) ==> w'.calls[c] == w.calls[c])
    && w'.db == w.db
  }

  lemma OwnEntry(w: World, c: nat, w': World)
    requires c in w'.calls && w'.calls == w.calls[c := w'.calls[c]] && w'.db == w.db
    requires c in w.calls ==> !Awaits(w.calls[c]) && !Awaits(w'.calls[c])
    ensures OwnCall(w, c, w')
  {
  }

  lemma OwnNothing(w: World, c: nat)
    ensures OwnCall(w, c, w)
  {
  }

  lemma ReadOwn(sha: string -> Digest, w: World, c: nat, ok: bool)
    requires c in w.calls
    ensures OwnCall(w, c, StepRead(w, c, ok)) && OwnCall(w, c, StepVerify(sha, w, c))
  {
    hide OwnCall;
    OwnNothing(w, c);
    match w.calls[c]
    case Reading(_) => OwnEntry(w, c, StepRead(w, c, ok));
    case Verifying(_, _) => OwnEntry(w, c, StepVerify(sha, w, c));
    case _ =>
  }

  lemma SendOwn(w: World, c: nat, ok: bool, delivered: bool, reported: bool)
    requires c in w.calls
    ensures OwnCall(w, c, StepDelete(w, c, ok)) && OwnCall(w, c, StepSend(w, c, delivered, reported))
  {
    hide OwnCall, Ref;
    OwnNothing(w, c);
    match w.calls[c]
    case Discarding(_, _, _) => OwnEntry(w, c, StepDelete(w, c, ok));
    case Cleaning(_, _, _) => OwnEntry(w, c, StepDelete(w, c, ok));
    case Sending(_, _) => OwnEntry(w, c, StepSend(w, c, delivered, reported));
    case Notifying(_, _, _) => OwnEntry(w, c, StepSend(w, c, delivered, reported));
    case _ =>
  }

  lemma PutShape(sha: string -> Digest, w: World, c: nat, scope: string, token: string, call: Call)
    ensures var w' := PutToken(sha, w, c, scope, token, call);
      c in w'.calls && w'.calls == w.calls[c := w'.calls[c]] && w'.db == w.db
  {
    hide Ref;
  }

  lemma StartOwn(sha: string -> Digest, w: World, l: Label)
    requires (l.StartApprove? || l.StartSubmit? || l.StartConsume?) && l.call !in w.calls
    ensures OwnCall(w, l.call, Step(sha, w, l))
  {
    hide OwnCall, PutToken, ValidToken;
    match l {
      case StartApprove(c, r, token, expiresAt) =>
        PutShape(sha, w, c, SIGNUP, token, Approving(sha(r), token, expiresAt));
      case StartSubmit(c, form, since, token, expiresAt) =>
        PutShape(sha, w, c, REVIEW, token, Submitting(form, since, token, expiresAt));
      case StartConsume(_, _, _, _) =>
    }
    OwnEntry(w, l.call, Step(sha, w, l));
  }

  lemma CrashOwn(w: World, c: nat)
    ensures OwnCall(w, c, w.(calls := w.calls - {c}, leaky := true))
  {
  }

  lemma StepOwn(sha: string -> Digest, w: World, l: Label)
    requires !l.Transact? && !l.Direct?
    ensures OwnCall(w, l.call, Step(sha, w, l))
  {
    hide OwnCall, StepDelete, StepRead, StepVerify, StepSend, PutToken, ValidToken;
    OwnNothing(w, l.call);
    match l
    case Delete(c, ok) => if c in w.calls { SendOwn(w, c, ok, true, true); }
    case Send(c, delivered, reported) => if c in w.calls { SendOwn(w, c, true, delivered, reported); }
    case Read(c, ok) => if c in w.calls { ReadOwn(sha, w, c, ok); }
    case Verify(c) => if c in w.calls { ReadOwn(sha, w, c, true); }
    case Crash(c) => CrashOwn(w, c);
    case StartApprove(c, _, _, _) => if c !in w.calls { StartOwn(sha, w, l); }
    case StartSubmit(c, _, _, _, _) => if c !in w.calls { StartOwn(sha, w, l); }
    case StartConsume(c, _, _, _) => if c !in w.calls { StartOwn(sha, w, l); }
  }

  lemma ServiceLinked(h: string -> int, sha: string -> Digest, w: Whole, l: Label)
    requires Linked(h, sha, w) && ServiceEnabled(w, l)
    ensures Linked(h, sha, w.(front := Step(sha, w.front, l)))
  {
    hide Serializability.Healthy, Step, Makes;
    StepOwn(sha, w.front, l);
    StartOnly(sha, w.front, l);
  }

  lemma StartOnly(sha: string -> Digest, w: World, l: Label)
    requires !l.Transact? && !l.Direct?
    ensures l.call in Step(sha, w, l).calls && l.call !in w.calls ==>
      l.StartApprove? || l.StartSubmit? || l.StartConsume?
    ensures l.call !in Step(sha, w, l).calls && l.call in w.calls ==> l.Crash?
  {
    hide Ref, ValidToken, After;
  }

  /** A service step looks the same from the atomic world: it acts on a call that has nothing
      pending there either, or does nothing. */
  lemma ServiceRefines(sha: string -> Digest, w: Whole, l: Label)
    requires ServiceEnabled(w, l)
    ensures var w' := w.(front := Step(sha, w.front, l));
      Atomic(sha, w') == Atomic(sha, w) || Atomic(sha, w') == Step(sha, Atomic(sha, w), l)
  {
    hide Calls, PutToken, ValidToken, StepDelete, StepRead, StepVerify, StepSend;
    match l
    case Delete(c, ok) => DeleteRefines(sha, w, c, ok);
    case Read(c, ok) => ReadRefines(sha, w, c, ok);
    case Verify(c) => VerifyRefines(sha, w, c);
    case Send(c, delivered, reported) => SendRefines(sha, w, c, delivered, reported);
    case Crash(c) => CrashRefines(sha, w, c);
    case StartApprove(c, _, _, _) => if c !in w.front.calls { StartRefines(sha, w, l); }
    case StartSubmit(c, _, _, _, _) => if c !in w.front.calls { StartRefines(sha, w, l); }
    case StartConsume(c, _, _, _) => if c !in w.front.calls { StartRefines(sha, w, l); }
  }

  lemma AtomicCall(sha: string -> Digest, w: Whole, c: nat)
    ensures c in Atomic(sha, w).calls <==> c in w.front.calls
    ensures c in w.front.calls && !Awaits(w.front.calls[c]) ==> Atomic(sha, w).calls[c] == w.front.calls[c]
  {
    hide Resume;
  }

  lemma DeleteRefines(sha: string -> Digest, w: Whole, c: nat, ok: bool)
    ensures var l := Delete(c, ok); var w' := w.(front := Step(sha, w.front, l));
      Atomic(sha, w') == Atomic(sha, w) || Atomic(sha, w') == Step(sha, Atomic(sha, w), l)
  {
    AtomicCall(sha, w, c);
    hide Calls, Ref;
    if c in w.front.calls && (w.front.calls[c].Discarding? || w.front.calls[c].Cleaning?) {
      CallsSet(sha, w.sys, w.lost, w.front.calls, c, StepDelete(w.front, c, ok).calls[c]);
    }
  }

  lemma ReadRefines(sha: string -> Digest, w: Whole, c: nat, ok: bool)
    ensures var l := Read(c, ok); var w' := w.(front := Step(sha, w.front, l));
      Atomic(sha, w') == Atomic(sha, w) || Atomic(sha, w') == Step(sha, Atomic(sha, w), l)
  {
    AtomicCall(sha, w, c);
    hide Calls;
    if c in w.front.calls && w.front.calls[c].Reading? {
      CallsSet(sha, w.sys, w.lost, w.front.calls, c, StepRead(w.front, c, ok).calls[c]);
    }
  }

  lemma VerifyRefines(sha: string -> Digest, w: Whole, c: nat)
    ensures var l := Verify(c); var w' := w.(front := Step(sha, w.front, l));
      Atomic(sha, w') == Atomic(sha, w) || Atomic(sha, w') == Step(sha, Atomic(sha, w), l)
  {
    AtomicCall(sha, w, c);
    hide Calls;
    if c in w.front.calls && w.front.calls[c].Verifying? {
      CallsSet(sha, w.sys, w.lost, w.front.calls, c, StepVerify(sha, w.front, c).calls[c]);
    }
  }

  lemma SendRefines(sha: string -> Digest, w: Whole, c: nat, delivered: bool, reported: bool)
    ensures var l := Send(c, delivered, reported); var w' := w.(front := Step(sha, w.front, l));
      Atomic(sha, w') == Atomic(sha, w) || Atomic(sha, w') == Step(sha, Atomic(sha, w), l)
  {
    AtomicCall(sha, w, c);
    hide Calls;
    if c in w.front.calls && w.front.calls[c].Sending? {
      CallsSet(sha, w.sys, w.lost, w.front.calls, c, Done(if reported then Delivered else DeliveryFailed));
    } else if c in w.front.calls && w.front.calls[c].Notifying? {
      CallsSet(sha, w.sys, w.lost, w.front.calls, c, Done(Accepted));
    }
  }

  lemma CrashRefines(sha: string -> Digest, w: Whole, c: nat)
    ensures var l := Crash(c); var w' := w.(front := Step(sha, w.front, l));
      Atomic(sha, w') == Atomic(sha, w) || Atomic(sha, w') == Step(sha, Atomic(sha, w), l)
  {
    AtomicCall(sha, w, c);
    hide Calls;
    CallsGone(sha, w.sys, w.lost, w.front.calls, c);
  }

  lemma PutRefines(sha: string -> Digest, w: Whole, c: nat, scope: string, token: string, call: Call)
    requires c !in w.sys.txs
    ensures Atomic(sha, w.(front := PutToken(sha, w.front, c, scope, token, call)))
      == PutToken(sha, Atomic(sha, w), c, scope, token, call)
  {
    hide Calls, Ref;
    CallsSet(sha, w.sys, w.lost, w.front.calls, c, call);
    CallsSet(sha, w.sys, w.lost, w.front.calls, c, Done(Rejected(Storage)));
  }

  lemma SetRefines(sha: string -> Digest, w: Whole, c: nat, call: Call)
    requires c !in w.sys.txs
    ensures Atomic(sha, w.(front := WithCall(w.front, c, call))) == WithCall(Atomic(sha, w), c, call)
  {
    hide Calls;
    CallsSet(sha, w.sys, w.lost, w.front.calls, c, call);
  }

  lemma StartRefines(sha: string -> Digest, w: Whole, l: Label)
    requires ServiceEnabled(w, l) && (l.StartApprove? || l.StartSubmit? || l.StartConsume?) && l.call !in w.front.calls
    ensures Atomic(sha, w.(front := Step(sha, w.front, l))) == Step(sha, Atomic(sha, w), l)
  {
    AtomicCall(sha, w, l.call);
    hide Atomic, PutToken, WithCall, ValidToken;
    match l
    case StartApprove(c, r, token, expiresAt) =>
      SetRefines(sha, w, c, Done(Rejected(InvalidReview)));
      PutRefines(sha, w, c, SIGNUP, token, Approving(sha(r), token, expiresAt));
    case StartSubmit(c, form, since, token, expiresAt) =>
      SetRefines(sha, w, c, SubmittingPlain(form, since));
      PutRefines(sha, w, c, REVIEW, token, Submitting(form, since, token, expiresAt));
    case StartConsume(c, token, email, claim) =>
      SetRefines(sha, w, c, Done(Rejected(InvalidGrant)));
      SetRefines(sha, w, c, Consuming(sha(token), email, claim));
  }

  // ---- Steps of the database --------------------------------------------------------------------

  lemma MadeBy(sha: string -> Digest, call: Call, req: Request, w: Whole, t: nat, fate: Fate)
    requires Makes(sha, call, req) && t in w.sys.txs && w.sys.txs[t].req == req && t in w.front.calls
    ensures Awaits(call)
    ensures var l := EndOf(sha, w, t, fate);
      l.Transact? && l.call == t && l.fate == fate && RequestOf(sha, call, l.now, l.start, l.id) == Some(req)
  {
    hide CandidateOf;
  }

  /** What ending transaction t does to the rest of a composite state. */
  ghost predicate Ends(sha: string -> Digest, w: Whole, t: nat, sys: System) {
    && t in w.sys.txs && t in sys.txs && !Ended(w.sys, t) && Ended(sys, t) && sys.txs[t].req == w.sys.txs[t].req
    && t !in w.lost
    && (forall u :: u != t ==> (u in w.sys.txs <==> u in sys.txs) && (u in w.sys.txs ==> sys.txs[u] == w.sys.txs[u]))
  }

  lemma EffectEnds(h: string -> int, sha: string -> Digest, w: Whole, t: nat, sys: System)
    requires Linked(h, sha, w) && Serializability.Effect(h, w.sys, t, sys)
    ensures Ends(sha, w, t, sys) && Belongs(sha, w, t) && !Ended(w.sys, t)
    ensures Exec(w.sys.db, w.sys.txs[t].req) == (sys.db, sys.txs[t].phase.answer)
    ensures Serializability.Healthy(h, sys)
  {
    hide Serializability.Healthy, Exec, Interleaving.Evolves, Interleaving.Free, Makes;
    Serializability.EffectHealthy(h, w.sys, t, sys);
  }

  /** A call's transaction ends, with effect or without, heard of or not. */
  lemma CallEndRefines(sha: string -> Digest, w: Whole, t: nat, sys: System, lost: set<nat>, fate: Fate)
    requires Ends(sha, w, t, sys) && Belongs(sha, w, t) && t in w.front.calls && w.front.db == w.sys.db
    requires lost == (if fate == CommitLost then w.lost + {t} else w.lost)
    requires Outcome(w.sys.db, w.sys.txs[t].req, fate) == (sys.db, Reply(sys, lost, t))
    ensures Atomic(sha, Whole(sys, Recorded(w.front, w.front.calls[t], sys.db, fate), lost))
         == Step(sha, Atomic(sha, w), EndOf(sha, w, t, fate))
  {
    hide Exec, Calls, Resume, RequestOf, Makes, Outcome;
    MadeBy(sha, w.front.calls[t], w.sys.txs[t].req, w, t, fate);
    hide EndOf;
    CallsEnd(sha, w.sys, w.lost, sys, lost, w.front.calls, t);
  }

  lemma DirectEndRefines(sha: string -> Digest, w: Whole, t: nat, sys: System, lost: set<nat>, fate: Fate)
    requires Ends(sha, w, t, sys) && Belongs(sha, w, t) && t !in w.front.calls && w.front.db == w.sys.db
    requires lost == (if fate == CommitLost then w.lost + {t} else w.lost)
    requires Outcome(w.sys.db, w.sys.txs[t].req, fate).0 == sys.db
    ensures Atomic(sha, Whole(sys, w.front.(db := sys.db), lost)) == Step(sha, Atomic(sha, w), EndOf(sha, w, t, fate))
  {
    hide Exec, Calls, Makes, Outcome;
    CallsSame(sha, w.sys, w.lost, sys, lost, w.front.calls, t);
  }

  lemma EndLinked(h: string -> int, sha: string -> Digest, w: Whole, t: nat, sys: System, lost: set<nat>,
      front: World)
    requires Linked(h, sha, w) && Ends(sha, w, t, sys) && Serializability.Healthy(h, sys)
    requires w.lost <= lost <= w.lost + {t}
    requires front.db == sys.db && front.calls == w.front.calls
    ensures Linked(h, sha, Whole(sys, front, lost))
  {
    hide Serializability.Healthy, Makes;
    forall u | u in sys.txs ensures Belongs(sha, Whole(sys, front, lost), u) {
      assert Belongs(sha, w, u);
    }
  }

  /** A transaction takes effect. */
  lemma EffectRefines(h: string -> int, sha: string -> Digest, w: Whole, t: nat, sys: System)
    requires Linked(h, sha, w) && Serializability.Effect(h, w.sys, t, sys)
    ensures var w' := w.(sys := sys, front := w.front.(db := sys.db));
      Linked(h, sha, w') && Atomic(sha, w') == Step(sha, Atomic(sha, w), EndOf(sha, w, t, Commits))
  {
    EffectEnds(h, sha, w, t, sys);
    EndLinked(h, sha, w, t, sys, w.lost, w.front.(db := sys.db));
    hide Serializability.Effect, Serializability.Healthy, Atomic, Belongs, Exec, EndOf;
    if t in w.front.calls { CallEndRefines(sha, w, t, sys, w.lost, Commits); }
    else { DirectEndRefines(sha, w, t, sys, w.lost, Commits); }
  }

  /** A transaction takes effect, and its client is told of an error. */
  lemma LossRefines(h: string -> int, sha: string -> Digest, w: Whole, t: nat, sys: System)
    requires Linked(h, sha, w) && Serializability.Effect(h, w.sys, t, sys)
    ensures var w' := Whole(sys, Unheard(w.front, t, sys.db), w.lost + {t});
      Linked(h, sha, w') && Atomic(sha, w') == Step(sha, Atomic(sha, w), EndOf(sha, w, t, CommitLost))
  {
    EffectEnds(h, sha, w, t, sys);
    EndLinked(h, sha, w, t, sys, w.lost + {t}, Unheard(w.front, t, sys.db));
    hide Serializability.Effect, Serializability.Healthy, Atomic, Belongs, Exec, EndOf;
    if t in w.front.calls { CallEndRefines(sha, w, t, sys, w.lost + {t}, CommitLost); }
    else { DirectEndRefines(sha, w, t, sys, w.lost + {t}, CommitLost); }
  }

  lemma QuietKeepsHealth(h: string -> int, sys: System, t: nat, sys': System)
    requires Serializability.Healthy(h, sys) && Serializability.Quiet(h, sys, t, sys')
    ensures Serializability.Healthy(h, sys') && sys'.db == sys.db
    ensures t in sys'.txs
    ensures forall u :: u != t ==> (u in sys.txs <==> u in sys'.txs) && (u in sys.txs ==> sys'.txs[u] == sys.txs[u])
    ensures t in sys.txs ==> sys'.txs[t].req == sys.txs[t].req
    ensures Ended(sys, t) ==> sys'.txs[t].phase == sys.txs[t].phase
    ensures Ended(sys', t) && !Ended(sys, t) ==> t in sys.txs && sys'.txs[t].phase.answer == Failed(Storage)
  {
    hide Interleaving.TxOk, Valid;
  }

  /** A step nobody else sees: a rollback, which ends a waiting call with an error, or no step. */
  lemma QuietRefines(h: string -> int, sha: string -> Digest, w: Whole, t: nat, sys: System)
    requires Linked(h, sha, w) && Serializability.Quiet(h, w.sys, t, sys) && t in w.sys.txs
    ensures var w' := w.(sys := sys, front := w.front.(db := sys.db));
      && Linked(h, sha, w')
      && (|| Atomic(sha, w') == Atomic(sha, w)
          || Atomic(sha, w') == Step(sha, Atomic(sha, w), EndOf(sha, w, t, RollsBack)))
  {
    QuietKeepsHealth(h, w.sys, t, sys);
    hide Serializability.Quiet, Serializability.Healthy, Atomic, Exec, EndOf, Makes;
    assert Belongs(sha, w, t);
    if Ended(sys, t) && !Ended(w.sys, t) {
      hide Belongs;
      EndLinked(h, sha, w, t, sys, w.lost, w.front.(db := sys.db));
      if t in w.front.calls { CallEndRefines(sha, w, t, sys, w.lost, RollsBack); }
      else { DirectEndRefines(sha, w, t, sys, w.lost, RollsBack); }
    } else {
      StillLinked(h, sha, w, t, sys);
      SameAtomic(sha, w, t, sys);
    }
  }

  lemma StillLinked(h: string -> int, sha: string -> Digest, w: Whole, t: nat, sys: System)
    requires Linked(h, sha, w) && Serializability.Healthy(h, sys) && t in w.sys.txs && t in sys.txs
    requires sys.db == w.sys.db
    requires sys.txs[t].req == w.sys.txs[t].req && Ended(sys, t) == Ended(w.sys, t)
    requires forall u :: u != t ==>
      (u in w.sys.txs <==> u in sys.txs) && (u in w.sys.txs ==> sys.txs[u] == w.sys.txs[u])
    ensures Linked(h, sha, w.(sys := sys, front := w.front.(db := sys.db)))
  {
    hide Serializability.Healthy, Makes;
    forall u | u in sys.txs ensures Belongs(sha, w.(sys := sys, front := w.front.(db := sys.db)), u) {
      assert Belongs(sha, w, u);
    }
  }

  lemma SameAtomic(sha: string -> Digest, w: Whole, t: nat, sys: System)
    requires t in w.sys.txs && t in sys.txs && sys.db == w.sys.db && w.front.db == w.sys.db
    requires Ended(sys, t) == Ended(w.sys, t) && (Ended(w.sys, t) ==> sys.txs[t].phase == w.sys.txs[t].phase)
    requires forall u :: u != t ==>
      (u in w.sys.txs <==> u in sys.txs) && (u in w.sys.txs ==> sys.txs[u] == w.sys.txs[u])
    ensures Atomic(sha, w.(sys := sys, front := w.front.(db := sys.db))) == Atomic(sha, w)
  {
    hide Calls;
    CallsSame(sha, w.sys, w.lost, sys, w.lost, w.front.calls, t);
  }

  // ---- Every step, and every run ----------------------------------------------------------------

  lemma MakesOwn(sha: string -> Digest, call: Call, now: Time, start: Time, id: Id)
    requires Awaits(call)
    ensures RequestOf(sha, call, now, start, id).Some? && Makes(sha, call, RequestOf(sha, call, now, start, id).value)
  {
    hide CandidateOf;
  }

  lemma BeginRefines(h: string -> int, sha: string -> Digest, w: Whole, t: nat, req: Request)
    requires Linked(h, sha, w) && t !in w.sys.txs
    requires if t in w.front.calls then Awaits(w.front.calls[t]) && Makes(sha, w.front.calls[t], req)
      else DatabaseOnly(req)
    ensures var w' := w.(sys := Interleaving.Step(h, w.sys, Interleaving.Begin(t, req)));
      Linked(h, sha, w') && Atomic(sha, w') == Atomic(sha, w)
  {
    var sys := Interleaving.Step(h, w.sys, Interleaving.Begin(t, req));
    BeginHealthy(h, w.sys, t, req);
    hide Serializability.Healthy, Makes, Calls;
    CallsSame(sha, w.sys, w.lost, sys, w.lost, w.front.calls, t);
    forall u | u in sys.txs ensures Belongs(sha, w.(sys := sys), u) {
      assert u != t ==> Belongs(sha, w, u);
    }
  }

  lemma BeginHealthy(h: string -> int, sys: System, t: nat, req: Request)
    requires Serializability.Healthy(h, sys) && t !in sys.txs
    ensures Serializability.Healthy(h, Interleaving.Step(h, sys, Interleaving.Begin(t, req)))
  {
    hide Valid, PlanOf;
  }

  lemma ResumeMoves(sha: string -> Digest, call: Call, answer: Answer)
    ensures !Awaits(Resume(sha, call, answer))
  {
  }

  lemma ReceiveRefines(h: string -> int, sha: string -> Digest, w: Whole, c: nat)
    requires Linked(h, sha, w) && c in w.front.calls && Awaits(w.front.calls[c]) && Ended(w.sys, c)
    ensures var w' := w.(front := WithCall(w.front, c, Resume(sha, w.front.calls[c], Reply(w.sys, w.lost, c))));
      Linked(h, sha, w') && Atomic(sha, w') == Atomic(sha, w)
  {
    var call' := Resume(sha, w.front.calls[c], Reply(w.sys, w.lost, c));
    ResumeMoves(sha, w.front.calls[c], Reply(w.sys, w.lost, c));
    hide Serializability.Healthy, Makes, Resume;
    CallsSet(sha, w.sys, w.lost, w.front.calls, c, call');
    var w' := w.(front := WithCall(w.front, c, call'));
    forall u | u in w'.sys.txs ensures Belongs(sha, w', u) {
      assert Belongs(sha, w, u);
    }
    assert Calls(sha, w.sys, w.lost, w.front.calls)[c := call'] == Calls(sha, w.sys, w.lost, w.front.calls);
  }

  /** The composite state after a statement, commit, abort or rollback. */
  ghost function Beside(w: Whole, sys: System): Whole {
    w.(sys := sys, front := w.front.(db := sys.db))
  }

  lemma DoDatabase(h: string -> int, sha: string -> Digest, w: Whole, l: Interleaving.Label)
    requires !l.Begin?
    ensures Do(h, sha, w, Database(l)) == Beside(w, Interleaving.Step(h, w.sys, l))
  {
    hide Interleaving.Step;
  }

  lemma IdleRefines(h: string -> int, sha: string -> Digest, w: Whole)
    requires Linked(h, sha, w)
    ensures Beside(w, w.sys) == w
  {
    hide Serializability.Healthy, Belongs;
  }

  lemma EndRefines(h: string -> int, sha: string -> Digest, w: Whole, t: nat, sys: System) returns (step: Option<Label>)
    requires Linked(h, sha, w) && t in w.sys.txs
    requires Serializability.Effect(h, w.sys, t, sys) || Serializability.Quiet(h, w.sys, t, sys)
    ensures Linked(h, sha, Beside(w, sys)) && Sees(sha, w, step, Beside(w, sys))
    ensures step.Some? ==> step.value.Transact? || step.value.Direct?
  {
    hide Linked, Atomic, Step, Serializability.Quiet, Serializability.Effect;
    EndIsDatabase(sha, w, t, Commits);
    EndIsDatabase(sha, w, t, RollsBack);
    hide EndOf;
    if Serializability.Effect(h, w.sys, t, sys) {
      EffectRefines(h, sha, w, t, sys);
      step := Some(EndOf(sha, w, t, Commits));
    } else {
      QuietRefines(h, sha, w, t, sys);
      step := if Atomic(sha, Beside(w, sys)) == Atomic(sha, w) then None else Some(EndOf(sha, w, t, RollsBack));
    }
  }

  lemma EndIsDatabase(sha: string -> Digest, w: Whole, t: nat, fate: Fate)
    requires t in w.sys.txs
    ensures EndOf(sha, w, t, fate).Transact? || EndOf(sha, w, t, fate).Direct?
  {
  }

  /** Seen atomically, the whole takes this step, or stands still. */
  ghost predicate Sees(sha: string -> Digest, w: Whole, step: Option<Label>, w': Whole) {
    Atomic(sha, w') == if step.None? then Atomic(sha, w) else Step(sha, Atomic(sha, w), step.value)
  }

  lemma DatabaseRefines(h: string -> int, sha: string -> Digest, w: Whole, l: Interleaving.Label)
    returns (step: Option<Label>)
    requires Linked(h, sha, w) && !l.Begin?
    ensures var w' := Do(h, sha, w, Database(l)); Linked(h, sha, w') && Sees(sha, w, step, w')
    ensures step.Some? ==> step.value.Transact? || step.value.Direct?
  {
    DoDatabase(h, sha, w, l);
    Keeps(h, sha, w, l);
    hide Do, Linked, Atomic, Step, Beside, Interleaving.Step, Serializability.Quiet, Serializability.Effect;
    var sys := Interleaving.Step(h, w.sys, l);
    if sys == w.sys {
      IdleRefines(h, sha, w);
      step := None;
    } else {
      step := EndRefines(h, sha, w, l.tx, sys);
    }
  }

  lemma Keeps(h: string -> int, sha: string -> Digest, w: Whole, l: Interleaving.Label)
    requires Linked(h, sha, w) && !l.Begin?
    ensures var sys := Interleaving.Step(h, w.sys, l);
      sys == w.sys || (l.tx in w.sys.txs
        && (Serializability.Quiet(h, w.sys, l.tx, sys) || Serializability.Effect(h, w.sys, l.tx, sys)))
  {
    Serializability.StepKeeps(h, w.sys, l);
    hide Serializability.Healthy, Serializability.Quiet, Serializability.Effect, Interleaving.RunStatement,
      Interleaving.RunCommit;
  }

  lemma CommitIsEffect(h: string -> int, sha: string -> Digest, w: Whole, t: nat)
    requires Linked(h, sha, w)
    ensures var sys := Interleaving.Step(h, w.sys, Interleaving.Commit(t));
      Ended(sys, t) && !Ended(w.sys, t) ==> Serializability.Effect(h, w.sys, t, sys)
  {
    if t in w.sys.txs { Serializability.CommitKeeps(h, w.sys, t); }
    hide Linked, Serializability.Effect, Interleaving.RunCommit;
  }

  /** One step of the whole is one step, or none, of the services over an atomic database: a step
      of a call is that step itself, and the database's steps are transactions. */
  lemma DoRefines(h: string -> int, sha: string -> Digest, w: Whole, a: Act) returns (step: Option<Label>)
    requires Linked(h, sha, w)
    ensures var w' := Do(h, sha, w, a); Linked(h, sha, w') && Sees(sha, w, step, w')
    ensures step.Some? ==> step.value.Transact? || step.value.Direct? || a == Service(step.value)
  {
    step := None;
    match a
    case Service(l) =>
      hide Linked, Atomic, Step, ServiceEnabled;
      if ServiceEnabled(w, l) {
        ServiceLinked(h, sha, w, l);
        ServiceRefines(sha, w, l);
        if Atomic(sha, Do(h, sha, w, a)) != Atomic(sha, w) { step := Some(l); }
      }
    case BeginFor(c, now, start, id) =>
      hide Linked, Atomic, Interleaving.Step, RequestOf, Makes;
      if c in w.front.calls && Awaits(w.front.calls[c]) {
        MakesOwn(sha, w.front.calls[c], now, start, id);
        if c !in w.sys.txs { BeginRefines(h, sha, w, c, RequestOf(sha, w.front.calls[c], now, start, id).value); }
      }
    case BeginDirect(t, req) =>
      hide Linked, Atomic, Interleaving.Step, Makes;
      if t !in w.front.calls && t !in w.sys.txs && DatabaseOnly(req) { BeginRefines(h, sha, w, t, req); }
    case Database(l) =>
      hide *;
      step := DatabaseRefinesAny(h, sha, w, l);
    case LoseCommit(t) =>
      hide *;
      step := LoseRefines(h, sha, w, t);
    case Receive(c) =>
      hide Linked, Atomic, Resume, Ended, Reply;
      if c in w.front.calls && Awaits(w.front.calls[c]) && Ended(w.sys, c) { ReceiveRefines(h, sha, w, c); }
  }

  lemma LoseRefines(h: string -> int, sha: string -> Digest, w: Whole, t: nat) returns (step: Option<Label>)
    requires Linked(h, sha, w)
    ensures var w' := Do(h, sha, w, LoseCommit(t)); Linked(h, sha, w') && Sees(sha, w, step, w')
    ensures step.Some? ==> step.value.Transact? || step.value.Direct?
  {
    hide Linked, Atomic, Interleaving.Step, Ended, Step, Serializability.Effect, Unheard;
    step := None;
    var sys := Interleaving.Step(h, w.sys, Interleaving.Commit(t));
    CommitIsEffect(h, sha, w, t);
    if Ended(sys, t) && !Ended(w.sys, t) {
      EffectEnds(h, sha, w, t, sys);
      EndIsDatabase(sha, w, t, CommitLost);
      hide Ends, Belongs, EndOf;
      LossRefines(h, sha, w, t, sys);
      step := Some(EndOf(sha, w, t, CommitLost));
    }
  }

  lemma DatabaseRefinesAny(h: string -> int, sha: string -> Digest, w: Whole, l: Interleaving.Label)
    returns (step: Option<Label>)
    requires Linked(h, sha, w)
    ensures var w' := Do(h, sha, w, Database(l)); Linked(h, sha, w') && Sees(sha, w, step, w')
    ensures step.Some? ==> step.value.Transact? || step.value.Direct?
  {
    if l.Begin? { step := None; } else {
      hide *;
      step := DatabaseRefines(h, sha, w, l);
    }
  }

  lemma StartLinked(h: string -> int, sha: string -> Digest, db: Db)
    requires Valid(db)
    ensures Linked(h, sha, Start(db)) && Atomic(sha, Start(db)) == Initial(db)
  {
    hide Valid;
    assert Calls(sha, Interleaving.System(db, map[], []), {}, map[]) == map[];
  }

  /** The steps of calls in a run seen atomically are among those of the run itself. */
  ghost predicate FromActs(labels: seq<Label>, acts: seq<Act>) {
    forall i :: 0 <= i < |labels| ==> labels[i].Transact? || labels[i].Direct? || Service(labels[i]) in acts
  }

  lemma FromActsMore(labels: seq<Label>, acts: seq<Act>, a: Act, step: Option<Label>)
    requires FromActs(labels, acts)
    requires step.Some? ==> step.value.Transact? || step.value.Direct? || a == Service(step.value)
    ensures FromActs(if step.None? then labels else labels + [step.value], acts + [a])
  {
    forall i | 0 <= i < |labels| && !labels[i].Transact? && !labels[i].Direct?
      ensures Service(labels[i]) in acts + [a]
    {
      assert Service(labels[i]) in acts;
    }
    assert a in acts + [a];
  }

  /** Refinement from any state in which calls and transactions belong together. */
  lemma {:induction false} RefinesFrom(h: string -> int, sha: string -> Digest, w: Whole, acts: seq<Act>)
    returns (labels: seq<Label>)
    requires Linked(h, sha, w)
    ensures var w' := DoAll(h, sha, w, acts); Linked(h, sha, w') && Atomic(sha, w') == Run(sha, Atomic(sha, w), labels)
    ensures FromActs(labels, acts)
  {
    hide Linked, Atomic, Do, Step;
    if acts == [] {
      labels := [];
    } else {
      var n := |acts| - 1;
      var before := RefinesFrom(h, sha, w, acts[..n]);
      var step := DoRefines(h, sha, DoAll(h, sha, w, acts[..n]), acts[n]);
      hide Run, FromActs;
      FromActsMore(before, acts[..n], acts[n], step);
      assert acts[..n] + [acts[n]] == acts;
      if step.None? {
        labels := before;
      } else {
        labels := before + [step.value];
        RunMore(sha, Atomic(sha, w), before, step.value);
      }
    }
  }

  /** Refinement. Every run of calls and transactions interleaved statement by statement, with
      rollbacks, crashes and lost acknowledgements, is seen atomically a run of module Protocol. */
  lemma Refines(h: string -> int, sha: string -> Digest, db: Db, acts: seq<Act>) returns (labels: seq<Label>)
    requires Valid(db)
    ensures var w := DoAll(h, sha, Start(db), acts);
      Linked(h, sha, w) && Atomic(sha, w) == Run(sha, Initial(db), labels)
  {
    hide Linked, Atomic, DoAll, Run, Valid, FromActs;
    StartLinked(h, sha, db);
    labels := RefinesFrom(h, sha, Start(db), acts);
  }

  /** What both sides share: the committed rows, the tokens, what was sent, and the two notes. */
  lemma Shared(h: string -> int, sha: string -> Digest, w: Whole)
    requires Linked(h, sha, w)
    ensures var a := Atomic(sha, w);
      && a.db == w.sys.db && a.vault == w.front.vault && a.mail == w.front.mail && a.notices == w.front.notices
      && a.orphaned == w.front.orphaned && a.leaky == w.front.leaky
  {
    hide Serializability.Healthy, Belongs, Calls;
  }

  /** Store coherence at this level: in every state of every interleaved run without a harmful lost
      acknowledgement, each committed review and each committed grant not consumed has its token. */
  lemma StoresCohereInterleaved(h: string -> int, sha: string -> Digest, db: Db, acts: seq<Act>)
    requires Fresh(db) && !DoAll(h, sha, Start(db), acts).front.orphaned
    ensures var w := DoAll(h, sha, Start(db), acts);
      && (forall d :: d in w.sys.db.reviews ==> Backed(sha, w.front.vault, w.sys.db.reviews[d].reference, d))
      && (forall d :: d in w.sys.db.grants && w.sys.db.grants[d].status != Consumed ==>
            Backed(sha, w.front.vault, w.sys.db.grants[d].reference, d))
  {
    hide Run, DoAll, Backed, Valid, Linked, Atomic;
    var labels := Refines(h, sha, db, acts);
    Shared(h, sha, DoAll(h, sha, Start(db), acts));
    StoresCohere(sha, db, labels);
  }

  /** And so for messages: all approval messages for one application carry the token of its one
      committed grant, its address and its expiry. */
  lemma MessagesAgreeInterleaved(h: string -> int, sha: string -> Digest, db: Db, acts: seq<Act>, i: nat, j: nat)
    requires Fresh(db)
    requires var w := DoAll(h, sha, Start(db), acts).front;
      i < |w.mail| && j < |w.mail| && w.mail[i].application == w.mail[j].application
    ensures var w := DoAll(h, sha, Start(db), acts); var mail, grants := w.front.mail, w.sys.db.grants;
      && sha(mail[i].token) == sha(mail[j].token)
      && mail[i].recipient == mail[j].recipient && mail[i].expiresAt == mail[j].expiresAt
      && sha(mail[i].token) in grants
      && grants[sha(mail[i].token)].submissionId == mail[i].application
      && grants[sha(mail[i].token)].email == mail[i].recipient
      && ((forall s, t :: sha(s) == sha(t) ==> s == t) ==> mail[i].token == mail[j].token)
  {
    hide Run, DoAll, Valid, Linked, Atomic;
    var labels := Refines(h, sha, db, acts);
    Shared(h, sha, DoAll(h, sha, Start(db), acts));
    MessagesAgree(sha, db, labels, i, j);
  }

  /** No application is announced to the review team twice. */
  lemma OneNoticeInterleaved(h: string -> int, sha: string -> Digest, db: Db, acts: seq<Act>, i: nat, j: nat)
    requires Fresh(db)
    requires var w := DoAll(h, sha, Start(db), acts).front;
      i < |w.notices| && j < |w.notices| && w.notices[i].application == w.notices[j].application
    ensures var w := DoAll(h, sha, Start(db), acts); var n := w.front.notices[i];
      && i == j && sha(n.token) in w.sys.db.reviews
      && w.sys.db.reviews[sha(n.token)].submissionId == n.application
  {
    hide Run, DoAll, Valid, Linked, Atomic;
    var labels := Refines(h, sha, db, acts);
    Shared(h, sha, DoAll(h, sha, Start(db), acts));
    OneNotice(sha, db, labels, i, j);
  }

  lemma QuiescentBelow(sha: string -> Digest, w: Whole)
    requires Quiescent(w.front)
    ensures Quiescent(Atomic(sha, w))
  {
    hide Resume;
  }

  /** No leaks: once every call is done, whatever other transactions are still running, the stored
      references are exactly those of the committed reviews and of the grants not consumed. */
  lemma NothingLeaksInterleaved(h: string -> int, sha: string -> Digest, db: Db, acts: seq<Act>)
    requires Fresh(db)
    requires var w := DoAll(h, sha, Start(db), acts).front; !w.orphaned && !w.leaky && Quiescent(w)
    ensures var w := DoAll(h, sha, Start(db), acts); w.front.vault.Keys == Secrets(w.sys.db)
  {
    hide Run, DoAll, Valid, Linked, Atomic, Quiescent, Secrets;
    var labels := Refines(h, sha, db, acts);
    var w := DoAll(h, sha, Start(db), acts);
    Shared(h, sha, w);
    QuiescentBelow(sha, w);
    NothingLeaks(sha, db, labels);
  }

  /** From any reachable state in which a standing approval has lost its token: no message is sent
      for the application as long as no call draws a token with its digest again, and a call
      started through its review is rejected or reports the token unavailable. */
  lemma LostIsUnavailableInterleaved(h: string -> int, sha: string -> Digest, db: Db, past: seq<Act>, acts: seq<Act>,
      d: Digest, review: Digest, c: nat)
    requires Fresh(db)
    requires var w := Atomic(sha, DoAll(h, sha, Start(db), past));
      Aftermath.Lost(sha, w, d) && Aftermath.ReviewOf(w.db, review, d) && c !in w.calls
    requires forall l :: Service(l) in acts ==> !Aftermath.Draws(sha, l, d) && Aftermath.Through(sha, l, c, review)
    ensures var w := DoAll(h, sha, Start(db), past);
      Aftermath.Stranded(sha, Atomic(sha, DoAll(h, sha, w, acts)), d, review, c, |w.front.mail|)
  {
    hide Run, DoAll, Valid, Linked, Atomic, Agrees, Aftermath.Lost, Aftermath.ReviewOf, Aftermath.Stranded;
    var before := Refines(h, sha, db, past);
    var w := DoAll(h, sha, Start(db), past);
    InitialAgrees(sha, db);
    RunAgrees(sha, Initial(db), before);
    Shared(h, sha, w);
    var labels := RefinesFrom(h, sha, w, acts);
    NoneDraws(sha, labels, acts, d, review, c);
    Aftermath.LostIsUnavailable(sha, Atomic(sha, w), labels, d, review, c);
  }

  lemma NoneDraws(sha: string -> Digest, labels: seq<Label>, acts: seq<Act>, d: Digest, review: Digest, c: nat)
    requires FromActs(labels, acts)
    requires forall l :: Service(l) in acts ==> !Aftermath.Draws(sha, l, d) && Aftermath.Through(sha, l, c, review)
    ensures forall i :: 0 <= i < |labels| ==>
      !Aftermath.Draws(sha, labels[i], d) && Aftermath.Through(sha, labels[i], c, review)
  {
  }
}
