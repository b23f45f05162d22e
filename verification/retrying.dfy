/** A waiting proposal is never forgotten: its node can try again in the instance, or has announced a
    decision there. And once a proposal was given up, nothing more is asked for it. */
module Retrying {
  import opened Messages
  import opened NodeModel
  import opened Protocol
  import opened Progress
  import opened Invariant
  import opened Agreement

  /** Neither a majority of either answer has come, nor an answer of everybody. */
  predicate Open(members: set<nat>, k: CounterState) {
    && 2 * |k.promisors| <= |members| && 2 * |k.rejectors| <= |members|
    && |k.promisors + k.rejectors| < |members| && k.received == k.promisors + k.rejectors
  }

  predicate Urged(cfg: Config, n: Node) {
    && (n.proposing ==> n.prop.retry == Some(n.inst) || NewChosen(cfg.me, n.inst, n.prop.pid) in n.out)
    && (n.prop.preparing || n.prop.accepting ==> Open(cfg.members, n.prop.counter))
    && !(n.prop.preparing && n.prop.accepting)
  }

  lemma CheckLearnUrges(cfg: Config, n: Node)
    requires Urged(cfg, n)
    ensures Urged(cfg, CheckLearn(cfg, n))
  {
  }

  lemma RequestUrges(cfg: Config, n: Node, m: Msg)
    requires Aligned(n) && cfg.members != {} && Urged(cfg, n) && (m.Prepare? || m.Accept?)
    ensures Urged(cfg, Dispatch(cfg, n, m))
    decreases Rank(m), 2
  {
    if m.inst == n.acc.inst && m.src == cfg.me {
      if m.Prepare? {
        MessageUrges(cfg, Promise(cfg, n, m), PromiseReply(cfg, n, m));
      } else {
        MessageUrges(cfg, Vote(cfg, n, m), VoteReply(cfg, n, m));
      }
    } else if m.inst == n.acc.inst + 1 {
      MessageUrges(cfg, n, NewChosen(m.src, n.acc.inst, m.pid));
    }
  }

  lemma AcceptPhaseUrges(cfg: Config, n: Node)
    requires Aligned(n) && cfg.members != {}
    ensures Urged(cfg, AcceptPhase(cfg, n))
    decreases 3, 6
  {
    MessageUrges(cfg, StartAccept(cfg, n), AcceptMsg(cfg, n));
  }

  lemma PreparePhaseUrges(cfg: Config, n: Node, renew: bool)
    requires Aligned(n) && cfg.members != {}
    ensures Urged(cfg, PreparePhase(cfg, n, renew))
  {
    var n1 := StartPrepare(cfg, n, renew);
    MessageUrges(cfg, n1, PrepareMsg(cfg, n1));
  }

  lemma PromisesUrge(cfg: Config, n: Node, m: Msg)
    requires Aligned(n) && cfg.members != {} && Urged(cfg, n) && m.PrepareReply?
    ensures Urged(cfg, OnPrepareReply(cfg, n, m))
    decreases 4, 2
  {
    if PromisesPass(cfg, n, m) {
      var p := PromisesPassed(cfg, n, m);
      AcceptPhaseUrges(cfg, n.(prop := p));
    } else {
      PromisesPending(cfg, n, m, OnPrepareReply(cfg, n, m));
      PromisesLeaveOpen(cfg, n, m);
    }
  }

  lemma EveryAnswerCounts(k: CounterState, from: nat, rejected: nat)
    requires k.received == k.promisors + k.rejectors
    ensures var r := Received(k, from, rejected); r.received == r.promisors + r.rejectors
  {
  }

  lemma PromisesLeaveOpen(cfg: Config, n: Node, m: Msg)
    requires Urged(cfg, n) && m.PrepareReply? && !PromisesPass(cfg, n, m)
    ensures var p := OnPrepareReply(cfg, n, m).prop; p.preparing || p.accepting ==> Open(cfg.members, p.counter)
  {
    if n.prop.preparing {
      EveryAnswerCounts(n.prop.counter, m.src, m.rejected);
    }
    if !(n.prop.preparing && m.inst == n.prop.inst) {
      PromisesIgnored(cfg, n, m);
    } else if Failed(cfg, CountPromise(n, m).prop.counter) {
      PromisesFailed(cfg, n, m);
    } else {
      PromisesOpen(cfg, n, m);
    }
  }

  lemma VotesUrge(cfg: Config, n: Node, m: Msg)
    requires Aligned(n) && cfg.members != {} && Urged(cfg, n) && m.AcceptReply?
    ensures Urged(cfg, OnAcceptReply(cfg, n, m))
    decreases 2, 2
  {
    if VotesPass(cfg, n, m) {
      var p := VotesPassed(cfg, n, m);
      var n1 := n.(prop := p);
      MessageUrges(cfg, StartAnnounce(cfg, n1), AnnounceMsg(cfg, n1));
    } else {
      VotesPending(cfg, n, m, OnAcceptReply(cfg, n, m));
      VotesLeaveOpen(cfg, n, m);
    }
  }

  lemma VotesLeaveOpen(cfg: Config, n: Node, m: Msg)
    requires Urged(cfg, n) && m.AcceptReply? && !VotesPass(cfg, n, m)
    ensures var p := OnAcceptReply(cfg, n, m).prop; p.preparing || p.accepting ==> Open(cfg.members, p.counter)
  {
    if n.prop.accepting {
      EveryAnswerCounts(n.prop.counter, m.src, m.rejected);
    }
  }

  lemma LearnerUrges(cfg: Config, n: Node, m: Msg)
    requires Aligned(n) && cfg.members != {} && Urged(cfg, n) && Rank(m) <= 1
    ensures Urged(cfg, Dispatch(cfg, n, m))
  {
    if Rank(m) == 0 && !m.SendLearned? {
      AskingTalks(cfg, n, m, Dispatch(cfg, n, m));
    }
  }

  lemma DispatchUrges(cfg: Config, n: Node, m: Msg)
    requires Aligned(n) && cfg.members != {} && Urged(cfg, n)
    ensures Urged(cfg, Dispatch(cfg, n, m))
    decreases Rank(m), 3
  {
    if m.PrepareReply? {
      PromisesUrge(cfg, n, m);
    } else if m.AcceptReply? {
      VotesUrge(cfg, n, m);
    } else if m.Prepare? || m.Accept? {
      RequestUrges(cfg, n, m);
    } else {
      LearnerUrges(cfg, n, m);
    }
  }

  lemma MessageUrges(cfg: Config, n: Node, m: Msg)
    requires Aligned(n) && cfg.members != {} && Urged(cfg, n)
    ensures Urged(cfg, OnPaxosMessage(cfg, n, m))
    decreases Rank(m), 4
  {
    if !n.lrn.receiving {
      DispatchUrges(cfg, n, m);
      CheckLearnUrges(cfg, Dispatch(cfg, n, m));
    }
  }

  lemma ProposeUrges(cfg: Config, n: Node, v: Value)
    requires Aligned(n) && cfg.members != {} && !n.proposing && Urged(cfg, n)
    ensures Urged(cfg, OnPropose(cfg, n, v))
  {
    var n0 := n.(proposing := true, timer := true, proposal := v);
    var n1 := n0.(prop := n0.prop.(value := v));
    AcceptPhaseUrges(cfg, n1);
    PreparePhaseUrges(cfg, n1, n1.prop.rejected);
  }

  lemma RetryUrges(cfg: Config, n: Node)
    requires Aligned(n) && cfg.members != {} && Urged(cfg, n) && n.prop.retry.Some?
    ensures Urged(cfg, OnRetryTimer(cfg, n))
  {
    PreparePhaseUrges(cfg, n.(prop := n.prop.(retry := None)), n.prop.rejected);
  }

  lemma StepUrges(c: Cluster, w: World, s: Step)
    requires Enabled(c, w, s) && c.members != {} && Aligned(w[s.i]) && Urged(Cfg(c, s.i), w[s.i])
    ensures Urged(Cfg(c, s.i), StepNode(c, w, s))
  {
    match s
    case Deliver(i, m) => MessageUrges(Cfg(c, i), w[i], m);
    case Propose(i, v) => ProposeUrges(Cfg(c, i), w[i], v);
    case RetryTimer(i) => RetryUrges(Cfg(c, i), w[i]);
    case _ =>
  }

  ghost predicate AllUrged(c: Cluster, w: World) {
    forall i {:trigger w[i]} :: i in w ==> Urged(Cfg(c, i), w[i])
  }

  lemma NextUrges(c: Cluster, w: World, w': World, g: Guards)
    requires Safe(c, w, g) && AllUrged(c, w) && Next(c, w, w', g)
    ensures AllUrged(c, w')
  {
    var s :| Enabled(c, w, s) && Guarded(c, w, s, g) && w' == Apply(c, w, s);
    StepUrges(c, w, s);
  }

  lemma {:induction false} RunIsUrged(c: Cluster, ws: seq<World>, t: nat, g: Guards)
    requires IsRun(c, ws, g) && t < |ws|
    ensures AllUrged(c, ws[t])
  {
    if t > 0 {
      RunIsUrged(c, ws, t - 1, g);
      RunIsSafe(c, ws, t - 1, g);
      assert StepAt(c, ws, g, t - 1);
      NextUrges(c, ws[t - 1], ws[t], g);
    }
  }

  /** In every state of every run, whatever the guards: a node with a waiting proposal has announced a
      decision for its instance, or its retry timer may fire and then asks for promises there again. */
  lemma NeverStuck(c: Cluster, ws: seq<World>, t: nat, i: nat, g: Guards)
    requires IsRun(c, ws, g) && t < |ws| && i in ws[t] && ws[t][i].proposing
    ensures var n := ws[t][i];
      || NewChosen(i, n.inst, n.prop.pid) in n.out
      || (Enabled(c, ws[t], RetryTimer(i)) &&
          exists m :: m in StepNode(c, ws[t], RetryTimer(i)).out && m.Prepare? && m.src == i && m.inst == n.inst)
  {
    RunIsUrged(c, ws, t, g);
    RunIsSafe(c, ws, t, g);
    assert LocalInv(ws[t][i]) && Urged(Cfg(c, i), ws[t][i]);
    if ws[t][i].prop.retry == Some(ws[t][i].inst) {
      RetryAsks(Cfg(c, i), ws[t][i]);
    }
  }

  /** And a round that is still counted could go either way: whoever has all answers, a majority of promises
      or votes, or a majority of rejections, has ended it. */
  lemma RoundsAreOpen(c: Cluster, ws: seq<World>, t: nat, i: nat, g: Guards)
    requires IsRun(c, ws, g) && t < |ws| && i in ws[t] && (ws[t][i].prop.preparing || ws[t][i].prop.accepting)
    ensures Open(c.members, ws[t][i].prop.counter)
  {
    RunIsUrged(c, ws, t, g);
    assert Urged(Cfg(c, i), ws[t][i]);
  }

  lemma RetryAsks(cfg: Config, n: Node)
    requires LocalInv(n) && n.prop.retry == Some(n.inst)
    ensures exists m :: m in OnRetryTimer(cfg, n).out && m.Prepare? && m.src == cfg.me && m.inst == n.inst
  {
    var n1 := StartPrepare(cfg, n.(prop := n.prop.(retry := None)), n.prop.rejected);
    MessageMoves(cfg, n1, PrepareMsg(cfg, n1));
    assert PrepareMsg(cfg, n1) in n1.out;
  }

  // ------------------------------------------------------------ after a proposal was given up

  /** Nothing is under way. */
  predicate Resting(n: Node) {
    !n.proposing && !n.prop.preparing && !n.prop.accepting && n.prop.retry.None?
  }

  ghost predicate AsksNothing(n: Node, r: Node) {
    Resting(r) && forall m :: m in r.out && m !in n.out ==> !IsProposal(m)
  }

  lemma TimeoutRests(n: Node)
    requires n.timer
    ensures Resting(OnProposeTimeout(n)) && OnProposeTimeout(n).out == n.out
  {
  }

  lemma LearningRests(cfg: Config, n: Node, m: Msg)
    requires Resting(n) && Rank(m) <= 1
    ensures AsksNothing(n, CheckLearn(cfg, Dispatch(cfg, n, m)))
  {
    if Rank(m) == 0 && !m.SendLearned? {
      AskingTalks(cfg, n, m, Dispatch(cfg, n, m));
    }
  }

  lemma ReplyRests(cfg: Config, n: Node, m: Msg)
    requires Resting(n) && (m.PrepareReply? || m.AcceptReply?)
    ensures AsksNothing(n, CheckLearn(cfg, Dispatch(cfg, n, m)))
  {
    if m.PrepareReply? {
      PromisesPending(cfg, n, m, OnPrepareReply(cfg, n, m));
    } else {
      VotesPending(cfg, n, m, OnAcceptReply(cfg, n, m));
    }
  }

  lemma CheckLearnRests(cfg: Config, n: Node, d: Node)
    requires AsksNothing(n, d)
    ensures AsksNothing(n, CheckLearn(cfg, d))
  {
  }

  lemma RequestRests(cfg: Config, n: Node, m: Msg)
    requires Resting(n) && !n.lrn.receiving && m.src != cfg.me && (m.Prepare? || m.Accept?)
    ensures AsksNothing(n, Dispatch(cfg, n, m))
  {
    if m.inst == n.acc.inst + 1 {
      var x := NewChosen(m.src, n.acc.inst, m.pid);
      LearningRests(cfg, n, x);
      assert OnPaxosMessage(cfg, n, x) == CheckLearn(cfg, Dispatch(cfg, n, x));
    }
  }

  /** While nothing is under way, no message and no timer makes a node ask for promises or votes. */
  lemma MessageRests(cfg: Config, n: Node, m: Msg)
    requires Resting(n) && m.src != cfg.me
    ensures AsksNothing(n, OnPaxosMessage(cfg, n, m))
  {
    if !n.lrn.receiving {
      if Rank(m) <= 1 {
        LearningRests(cfg, n, m);
      } else if m.PrepareReply? || m.AcceptReply? {
        ReplyRests(cfg, n, m);
      } else {
        RequestRests(cfg, n, m);
        CheckLearnRests(cfg, n, Dispatch(cfg, n, m));
      }
    }
  }

  /** So a proposal that timed out is not pursued: until the next one is made, no step asks for anything. */
  lemma StepRests(c: Cluster, w: World, s: Step)
    requires Enabled(c, w, s) && !s.Propose? && Resting(w[s.i])
    ensures AsksNothing(w[s.i], StepNode(c, w, s))
  {
    if s.Deliver? {
      MessageRests(Cfg(c, s.i), w[s.i], s.m);
    }
  }
}
