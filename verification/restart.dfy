/** A node that stops and recovers from its log. */
module Restart {
  import opened Ballots
  import opened Messages
  import opened NodeModel
  import opened Protocol
  import opened Progress
  import opened Agreement
  import opened SelfDelivery
  import opened SmallGroups
  import opened Largest

  /** The acceptor and the first proposal id after recovery. */
  datatype Recovery = Recovery(acc: AcceptorState, pid: nat)

  /** The highest instance with a record. */
  ghost function LastKey(log: map<nat, Record>): (k: nat)
    requires log.Keys != {}
    ensures k in log && forall j :: j in log ==> j <= k
  {
    LastExists(log.Keys);
    var k :| IsLast(log.Keys, k);
    k
  }

  /** Reads the last record, then moves past the latest checkpoint. */
  ghost function Recover(log: map<nat, Record>, checkpoint: nat): Recovery {
    var read :=
      if log.Keys == {} then AcceptorState(0, NO_BALLOT, NO_BALLOT, NO_VALUE)
      else
        var r := log[LastKey(log)];
        AcceptorState(LastKey(log), r.promised, r.accepted, r.value);
    var inst := if checkpoint + 1 > read.inst then checkpoint + 1 else read.inst;
    var acc := if read.inst != inst then AcceptorState(inst, read.promised, NO_BALLOT, NO_VALUE) else read;
    Recovery(acc, acc.promised.pid + 1)
  }

  /** The acceptor wrote the last record. */
  ghost predicate AcceptorWroteLast(n: Node) {
    n.log.Keys != {} ==> LastKey(n.log) !in n.byLearner
  }

  lemma LastIsCurrentOrPrevious(n: Node)
    requires Stored(n) && n.log.Keys != {}
    ensures LastKey(n.log) == if n.inst in n.log then n.inst else n.inst - 1
  {
    assert n.inst in n.log || n.inst - 1 in n.log || n.inst == 1;
  }

  lemma StateIsRestored(n: Node, checkpoint: nat)
    requires Stored(n) && Aligned(n) && AcceptorWroteLast(n)
    ensures Recover(n.log, checkpoint).acc.promised == n.acc.promised
    ensures n.inst in n.log && checkpoint < n.inst ==> Recover(n.log, checkpoint).acc == n.acc
  {
    if n.log.Keys != {} {
      LastIsCurrentOrPrevious(n);
    } else {
      assert n.inst - 1 !in n.log && n.inst !in n.log;
    }
  }

  /** A promise or a vote is on record before it is answered: a restart right after comes back with it. */
  lemma GrantIsStored(cfg: Config, n: Node, m: Msg, checkpoint: nat)
    requires LocalInv(n) && !n.lrn.receiving && !n.lrn.learned && checkpoint < n.inst
    requires (m.Prepare? || m.Accept?) && m.src != cfg.me && m.inst == n.inst && m.pid >= 1
    requires Leq(n.acc.promised, Ballot(m.pid, m.src))
    ensures var r := OnPaxosMessage(cfg, n, m);
      && r.acc.promised == Ballot(m.pid, m.src) && AcceptorWroteLast(r) && Recover(r.log, checkpoint).acc == r.acc
      && (m.Accept? ==> r.acc.accepted == Ballot(m.pid, m.src) && r.acc.value == m.value)
      && (m.Prepare? ==> r.acc.accepted == n.acc.accepted && r.acc.value == n.acc.value)
  {
    MessageMoves(cfg, n, m);
    var r := OnPaxosMessage(cfg, n, m);
    assert r == CheckLearn(cfg, Dispatch(cfg, n, m)) == if m.Prepare? then Promise(cfg, n, m) else Vote(cfg, n, m);
    LastIsCurrentOrPrevious(r);
    StateIsRestored(r, checkpoint);
  }

  /** In every run, whatever the guards: if the acceptor wrote the last record, a restart keeps the
      promise exactly and keeps the vote of the current instance unless the checkpoint covers it. It
      goes on with an id above that of every request its own acceptor did not ignore. */
  lemma RestartKeepsPromise(c: Cluster, ws: seq<World>, t: nat, i: nat, checkpoint: nat, g: Guards)
    requires IsRun(c, ws, g) && t < |ws| && i in ws[t]
    requires AcceptorWroteLast(ws[t][i])
    ensures var n, r := ws[t][i], Recover(ws[t][i].log, checkpoint);
      && r.acc.promised == n.acc.promised
      && (n.inst in n.log && checkpoint < n.inst ==> r.acc == n.acc)
      && (n.inst in n.log && checkpoint >= n.inst ==>
            r.acc == AcceptorState(checkpoint + 1, n.acc.promised, NO_BALLOT, NO_VALUE))
      && (forall m :: m in n.out && IsRequest(m) && m !in n.ignored ==> m.pid < r.pid)
  {
    RunIsSafe(c, ws, t, g);
    RunIsSettled(c, ws, t, g);
    var n := ws[t][i];
    assert SelfInv(i, n, None);
    StateIsRestored(n, checkpoint);
    if n.inst in n.log {
      LastIsCurrentOrPrevious(n);
    }
    forall m | m in n.out && IsRequest(m) && m !in n.ignored ensures m.pid <= n.acc.promised.pid {
      assert m in Heard(n) && RequestFact(n, m);
    }
  }

  /** Right after a value came from another learner the last record is the learner's, and a restart
      keeps the promise exactly when the sender's id and the stated proposal id make the same ballot. */
  lemma LearnerRecordReplacesPromise(cfg: Config, n: Node, m: Msg, checkpoint: nat)
    requires LocalInv(n) && !n.lrn.receiving && m.SendLearned? && m.inst == n.inst
    requires cfg.exec(n.inst, m.value)
    ensures var r := OnPaxosMessage(cfg, n, m);
      && r.acc.promised == n.acc.promised
      && (Recover(r.log, checkpoint).acc.promised == r.acc.promised <==> n.acc.promised == Ballot(m.pid, m.src))
  {
    var r := OnPaxosMessage(cfg, n, m);
    assert Dispatch(cfg, n, m) == OnSendLearned(cfg, n, m);
    assert r == CheckLearn(cfg, Dispatch(cfg, n, m));
    assert r.log == n.log[m.inst := Record(m.inst, Ballot(m.pid, m.src), Ballot(m.pid, m.src), m.value)];
    assert r.acc.promised == n.acc.promised;
    assert LastKey(r.log) == n.inst;
  }
}
