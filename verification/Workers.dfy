/** What whole-run safety means for clients that run at the same time: the answers they get from
    the statement-level machine are the answers of one serial run. */
module Workers {
  import opened Base
  import opened Schema
  import opened Transactions
  import opened Runs
  import opened Decisions
  import opened Interleaving
  import opened Serializability

  /** Transaction t ended with this answer, in a system reached from db0. */
  ghost predicate Got(sys: System, t: nat, answer: Answer) {
    t in sys.txs && sys.txs[t].phase == Finished(answer)
  }

  ghost function Reached(h: string -> int, db0: Db, labels: seq<Label>): System {
    RunAll(h, System(db0, map[], []), labels)
  }

  /** A success is an entry of the serial log. */
  lemma Logged(h: string -> int, db0: Db, labels: seq<Label>, t: nat, answer: Answer) returns (i: nat)
    requires Valid(db0) && Got(Reached(h, db0, labels), t, answer) && !answer.Failed?
    ensures var sys := Reached(h, db0, labels); var reqs := Requests(sys.log);
      && i < |reqs| && reqs[i] == sys.txs[t].req && AnswerAt(db0, reqs, i) == answer
      && sys.log[i].tx == t && StateAt(db0, reqs, |reqs|) == sys.db
  {
    hide Valid, RunAll, StateAt, AnswerAt, Healthy;
    Serialisable(h, db0, labels);
    var sys := Reached(h, db0, labels);
    assert HasEntry(sys, t);
    i :| 0 <= i < |sys.log| && sys.log[i].tx == t;
  }

  /** However many workers consume one grant at the same time, with whatever clocks and however
      their statements interleave, all that succeed carry one claim, and that claim is the one
      on the committed row. */
  lemma ConsumersCarryOneClaim(h: string -> int, db0: Db, labels: seq<Label>, t: nat, a: Answer, u: nat, b: Answer)
    requires Valid(db0)
    requires var sys := Reached(h, db0, labels);
      && Got(sys, t, a) && Got(sys, u, b) && a.GrantIs? && b.GrantIs?
      && sys.txs[t].req.Consume? && sys.txs[u].req.Consume? && sys.txs[t].req.grant == sys.txs[u].req.grant
    ensures var sys := Reached(h, db0, labels); var d := sys.txs[t].req.grant;
      && sys.txs[t].req.claim == sys.txs[u].req.claim
      && d in sys.db.grants && sys.db.grants[d].status == Consumed
      && sys.db.grants[d].claimDigest == Some(sys.txs[t].req.claim)
  {
    var i := Logged(h, db0, labels, t, a);
    var j := Logged(h, db0, labels, u, b);
    hide Valid, Exec, Reached, StateAt, AnswerAt;
    OneClaim(db0, Requests(Reached(h, db0, labels).log), i, j);
  }

  lemma OneClaim(db: Db, reqs: seq<Request>, i: nat, j: nat)
    requires Valid(db) && i < |reqs| && j < |reqs| && reqs[i].Consume? && reqs[j].Consume?
    requires reqs[i].grant == reqs[j].grant
    requires AnswerAt(db, reqs, i).GrantIs? && AnswerAt(db, reqs, j).GrantIs?
    ensures var last := StateAt(db, reqs, |reqs|); var d := reqs[i].grant;
      && reqs[i].claim == reqs[j].claim
      && d in last.grants && last.grants[d].status == Consumed && last.grants[d].claimDigest == Some(reqs[i].claim)
  {
    hide Valid, Exec, StateAt;
    var d := reqs[i].grant;
    if i < j { ConsumersAgree(db, reqs, d, i, j); }
    if j < i { ConsumersAgree(db, reqs, d, j, i); }
    LeavesConsumed(db, reqs, i);
    ConsumedFrozen(db, reqs, d, i + 1, |reqs|);
  }

  lemma LeavesConsumed(db: Db, reqs: seq<Request>, i: nat)
    requires Valid(db) && i < |reqs| && reqs[i].Consume? && AnswerAt(db, reqs, i).GrantIs?
    ensures GrantExists(db, reqs, reqs[i].grant, i + 1)
    ensures var g := GrantAt(db, reqs, reqs[i].grant, i + 1);
      g.status == Consumed && g.claimDigest == Some(reqs[i].claim)
  {
    hide Valid, Exec;
    RunValid(db, reqs, i);
    ConsumeSucceeds(StateAt(db, reqs, i), reqs[i].grant, reqs[i].email, reqs[i].claim, reqs[i].now);
  }

  /** Two decisions taken at the same time through one review: if both succeed they are the same
      decision, and two successful approvals report the same grant. */
  lemma DecisionsDoNotCross(h: string -> int, db0: Db, labels: seq<Label>, t: nat, a: Answer, u: nat, b: Answer)
    requires Valid(db0)
    requires var sys := Reached(h, db0, labels);
      && t != u && Got(sys, t, a) && Got(sys, u, b) && a.ApprovedAs? && !b.Failed?
      && sys.txs[t].req.Approve? && (sys.txs[u].req.Approve? || sys.txs[u].req.Decline?)
      && sys.txs[t].req.review == sys.txs[u].req.review
    ensures b.ApprovedAs? && b.approval == a.approval && !(a.usedCandidate && b.usedCandidate)
  {
    var i := Logged(h, db0, labels, t, a);
    var j := Logged(h, db0, labels, u, b);
    hide Valid, Exec, Reached, StateAt, AnswerAt;
    var reqs := Requests(Reached(h, db0, labels).log);
    AnswerKind(db0, reqs, j);
    if reqs[j].Decline? {
      FirstDecisionWins(db0, reqs, reqs[i].review, i, j);
      assert false;
    } else if i < j {
      ApprovalsAgree(db0, reqs, reqs[i].review, i, j);
    } else {
      ApprovalsAgree(db0, reqs, reqs[i].review, j, i);
    }
  }

  lemma AnswerKind(db: Db, reqs: seq<Request>, i: nat)
    requires i < |reqs|
    ensures reqs[i].Decline? ==> AnswerAt(db, reqs, i).Failed? || AnswerAt(db, reqs, i) == DeclineRecorded
    ensures reqs[i].Approve? ==> AnswerAt(db, reqs, i).Failed? || AnswerAt(db, reqs, i).ApprovedAs?
  {
    hide StateAt, ApplyAll, ApprovalOf;
  }
}
