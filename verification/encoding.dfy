/** What the numbers in messages mean: id 0 always stands for "none", and a retry always goes above
    the promises that rejected it. Holds in every run, without any of the guards. */
module Encoding {
  import opened Ballots
  import opened Messages
  import opened NodeModel
  import opened Protocol
  import opened Invariant
  import opened Preserve
  import opened Progress
  import opened Agreement

  const NO_GUARDS := Guards(false, false, false)

  /** A reply says "rejected 0" exactly when the acceptor promised or voted. */
  lemma ZeroMeansGranted(c: Cluster, ws: seq<World>, t: nat, i: nat, m: Msg)
    requires IsRun(c, ws, NO_GUARDS) && t < |ws| && i in ws[t] && Sent(ws[t], m)
    ensures m.Prepare? ==>
      (PromiseReply(Cfg(c, i), ws[t][i], m).rejected == 0 <==> Leq(ws[t][i].acc.promised, Ballot(m.pid, m.src)))
    ensures m.Accept? ==>
      (VoteReply(Cfg(c, i), ws[t][i], m).rejected == 0 <==> Leq(ws[t][i].acc.promised, Ballot(m.pid, m.src)))
  {
    RunIsSafe(c, ws, t, NO_GUARDS);
    if IsProposal(m) {
      SentHasPid(c, ws[t], m, NO_GUARDS);
    }
  }

  /** The accepted id is 0 exactly while the acceptor has not voted in its current instance. */
  lemma ZeroMeansNoVote(c: Cluster, ws: seq<World>, t: nat, i: nat)
    requires IsRun(c, ws, NO_GUARDS) && t < |ws| && i in ws[t]
    ensures ws[t][i].acc.accepted.pid == 0 <==>
      !exists m :: m in ws[t][i].out && IsVote(m) && m.inst == ws[t][i].acc.inst
  {
    RunIsSafe(c, ws, t, NO_GUARDS);
    var n := ws[t][i];
    assert Shape(i, n) && AcceptorInv(i, n) by { assert NodeInv(c, ws[t], i, NO_GUARDS); }
    if n.acc.accepted.pid > 0 {
      var v := AcceptReply(i, n.acc.accepted.node, n.inst, n.acc.accepted.pid, 0);
      assert v in n.out && IsVote(v);
    } else {
      forall m | m in n.out && IsVote(m) ensures m.inst != n.acc.inst {
        assert VoteFact(n, m);
      }
    }
  }

  lemma ReplyIsHeeded(cfg: Config, n: Node, m: Msg)
    ensures m.PrepareReply? ==> Floor(OnPrepareReply(cfg, n, m)) >= m.rejected
    ensures m.AcceptReply? ==> Floor(OnAcceptReply(cfg, n, m)) >= m.rejected
  {
  }

  lemma RejectionIsHeeded(cfg: Config, n: Node, m: Msg)
    requires !n.lrn.receiving && (m.PrepareReply? || m.AcceptReply?)
    ensures Floor(OnPaxosMessage(cfg, n, m)) >= m.rejected
  {
    ReplyIsHeeded(cfg, n, m);
    assert OnPaxosMessage(cfg, n, m) == CheckLearn(cfg, Dispatch(cfg, n, m));
  }

  /** After a rejection was received, every PREPARE the node sends at any later time exceeds it. */
  lemma RetryExceedsRejection(c: Cluster, ws: seq<World>, s: nat, t: nat, i: nat, m: Msg)
    requires IsRun(c, ws, NO_GUARDS) && s < t < |ws|
    requires Enabled(c, ws[s], Deliver(i, m)) && ws[s + 1] == Apply(c, ws[s], Deliver(i, m))
    requires (m.PrepareReply? || m.AcceptReply?) && !ws[s][i].lrn.receiving
    ensures i in ws[t] && forall x :: x in ws[t][i].out && x !in ws[s + 1][i].out && x.Prepare? ==> x.pid > m.rejected
  {
    RejectionIsHeeded(Cfg(c, i), ws[s][i], m);
    RunGoesOnward(c, ws, s + 1, t, NO_GUARDS);
    assert Onward(ws[s + 1][i], ws[t][i]);
  }
}

/** A group of one: each proposal decides and executes exactly its own value before the call returns. */
module Solo {
  import opened Ballots
  import opened Messages
  import opened NodeModel

  ghost predicate Alone(cfg: Config) {
    cfg.members == {cfg.me} && forall k, v :: cfg.exec(k, v)
  }

  /** Idle, and nothing above the node's own ballot was ever promised. */
  predicate Idle(me: nat, n: Node) {
    && n.acc.inst == n.inst && n.prop.inst == n.inst && n.lrn.inst == n.inst
    && !n.proposing && !n.lrn.learned && !n.lrn.receiving
    && n.prop.pid >= 1 && !n.prop.rejected
    && n.acc.accepted == NO_BALLOT && Leq(n.acc.promised, Ballot(n.prop.pid, me))
  }

  predicate Executed(n: Node, v: Value, r: Node) {
    r.executed == n.executed + [v] && r.done == n.done + [Done] && r.inst == n.inst + 1
  }

  /** The accept phase of an otherwise idle proposer runs to the end by nested calls. */
  lemma AnnounceDecides(cfg: Config, n: Node)
    requires Alone(cfg) && n.acc.inst == n.inst && n.prop.inst == n.inst && n.lrn.inst == n.inst
    requires n.proposing && n.proposal == n.acc.value && !n.lrn.learned && !n.lrn.receiving
    requires n.acc.accepted == Ballot(n.prop.pid, cfg.me) && n.prop.pid >= 1
    ensures var r := AnnouncePhase(cfg, n);
      && Executed(n, n.proposal, r)
      && r == NextInstance(StartAnnounce(cfg, n).(
           executed := r.executed, done := r.done, proposing := false, timer := false, out := r.out,
           lrn := n.lrn.(learned := true, value := n.proposal)))
  {
    var n1, m := StartAnnounce(cfg, n), AnnounceMsg(cfg, n);
    assert OnPaxosMessage(cfg, n1, m) == CheckLearn(cfg, OnNewChosen(cfg, n1, m));
  }

  lemma AcceptDecides(cfg: Config, n: Node)
    requires Alone(cfg) && n.proposing && n.prop.value == n.proposal && Idle(cfg.me, n.(proposing := false))
    ensures var r := AcceptPhase(cfg, n); Executed(n, n.proposal, r) && Idle(cfg.me, r)
  {
    var n1, m := StartAccept(cfg, n), AcceptMsg(cfg, n);
    var n2, r2 := Vote(cfg, n1, m), VoteReply(cfg, n1, m);
    var k := CountVote(n2, r2);
    assert k.prop.counter.promisors == {cfg.me};
    AnnounceDecides(cfg, k);
    var a := AnnouncePhase(cfg, k);
    assert OnAcceptReply(cfg, n2, r2) == NoteRejection(a, 0);
    assert OnPaxosMessage(cfg, n2, r2) == NoteRejection(a, 0);
    assert OnAccept(cfg, n1, m) == NoteRejection(a, 0);
    assert OnPaxosMessage(cfg, n1, m) == NoteRejection(a, 0);
  }

  lemma PrepareDecides(cfg: Config, n: Node)
    requires Alone(cfg) && n.proposing && n.prop.value == n.proposal && Idle(cfg.me, n.(proposing := false))
    ensures var r := PreparePhase(cfg, n, false); Executed(n, n.proposal, r) && Idle(cfg.me, r)
  {
    var n1 := StartPrepare(cfg, n, false);
    var m := PrepareMsg(cfg, n1);
    var n2, r2 := Promise(cfg, n1, m), PromiseReply(cfg, n1, m);
    var k := CountPromise(n2, r2);
    assert k.prop.counter.promisors == {cfg.me};
    var k1 := k.(prop := k.prop.(preparing := false, skip := true, retry := None));
    AcceptDecides(cfg, k1);
    var a := AcceptPhase(cfg, k1);
    assert OnPrepareReply(cfg, n2, r2) == NoteRejection(a, 0);
    assert OnPaxosMessage(cfg, n2, r2) == NoteRejection(a, 0);
    assert OnPrepare(cfg, n1, m) == NoteRejection(a, 0);
    assert OnPaxosMessage(cfg, n1, m) == NoteRejection(a, 0);
  }

  lemma ProposalDecides(cfg: Config, n: Node, v: Value)
    requires Alone(cfg) && Idle(cfg.me, n)
    ensures Executed(n, v, OnPropose(cfg, n, v)) && Idle(cfg.me, OnPropose(cfg, n, v))
  {
    var n1 := n.(proposing := true, timer := true, proposal := v, prop := n.prop.(value := v));
    if n1.prop.skip {
      AcceptDecides(cfg, n1);
    } else {
      PrepareDecides(cfg, n1);
    }
  }

  function ProposeAll(cfg: Config, n: Node, vs: seq<Value>): Node
    requires Alone(cfg) && Idle(cfg.me, n)
    decreases |vs|
  {
    if vs == [] then n
    else
      ProposalDecides(cfg, n, vs[0]);
      ProposeAll(cfg, OnPropose(cfg, n, vs[0]), vs[1..])
  }

  /** Any sequence of proposals to a fresh group of one is executed in order, once each. */
  lemma {:induction false} AllExecutedInOrder(cfg: Config, n: Node, vs: seq<Value>)
    requires Alone(cfg) && Idle(cfg.me, n)
    ensures ProposeAll(cfg, n, vs).executed == n.executed + vs
    ensures ProposeAll(cfg, n, vs).inst == n.inst + |vs|
    ensures Idle(cfg.me, FRESH)
    decreases |vs|
  {
    if vs != [] {
      ProposalDecides(cfg, n, vs[0]);
      AllExecutedInOrder(cfg, OnPropose(cfg, n, vs[0]), vs[1..]);
      assert [vs[0]] + vs[1..] == vs;
    }
  }
}
