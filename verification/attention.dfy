/** What a step of a node does to its votes, to what it tells others about its log, and to what it
    ignores: only the start of a checkpoint transfer makes it stop listening, and only then does a
    request of its own go unheard. */
module Attention {
  import opened Messages
  import opened NodeModel
  import opened Protocol
  import opened Progress

  /** The node still listens, ignored nothing, and votes only where it stands. */
  ghost predicate Attends(n: Node, r: Node) {
    && !r.lrn.receiving && r.ignored == n.ignored && r.minChosen == n.minChosen && n.inst <= r.inst
    && r.prop.pid == n.prop.pid
    && forall y :: y in r.out && y !in n.out ==> !y.SendNow? && (y.AcceptReply? ==> y.inst >= n.inst)
  }

  lemma AttendsThen(n: Node, a: Node, r: Node)
    requires Attends(n, a) && Attends(a, r)
    ensures Attends(n, r)
  {
  }

  lemma CheckLearnAttends(cfg: Config, n: Node, d: Node)
    requires Attends(n, d)
    ensures Attends(n, CheckLearn(cfg, d))
  {
    AttendsThen(n, d, CheckLearn(cfg, d));
  }

  /** One more message within the same handler run. */
  lemma NestedAttends(cfg: Config, n: Node, a: Node, m: Msg)
    requires Attends(n, a) && Aligned(a) && Rank(m) >= 1
    ensures Attends(n, OnPaxosMessage(cfg, a, m))
    decreases Rank(m), 5
  {
    MessageAttends(cfg, a, m);
    AttendsThen(n, a, OnPaxosMessage(cfg, a, m));
  }

  lemma RequestAttends(cfg: Config, n: Node, m: Msg)
    requires !n.lrn.receiving && Aligned(n) && (m.Prepare? || m.Accept?)
    ensures Attends(n, Dispatch(cfg, n, m))
    decreases Rank(m), 2
  {
    if m.inst == n.acc.inst && m.src == cfg.me {
      if m.Prepare? {
        NestedAttends(cfg, n, Promise(cfg, n, m), PromiseReply(cfg, n, m));
      } else {
        NestedAttends(cfg, n, Vote(cfg, n, m), VoteReply(cfg, n, m));
      }
    } else if m.inst == n.acc.inst + 1 {
      NestedAttends(cfg, n, n, NewChosen(m.src, n.acc.inst, m.pid));
    }
  }

  lemma AcceptPhaseAttends(cfg: Config, n: Node, n1: Node)
    requires !n.lrn.receiving && Aligned(n1) && Attends(n, n1)
    ensures Attends(n, AcceptPhase(cfg, n1))
    decreases 3, 6
  {
    NestedAttends(cfg, n, StartAccept(cfg, n1), AcceptMsg(cfg, n1));
  }

  lemma PreparePhaseAttends(cfg: Config, n: Node, renew: bool)
    requires !n.lrn.receiving && Aligned(n)
    ensures Attends(StartPrepare(cfg, n, renew), PreparePhase(cfg, n, renew))
  {
    var n1 := StartPrepare(cfg, n, renew);
    MessageAttends(cfg, n1, PrepareMsg(cfg, n1));
  }

  lemma PromisesAttend(cfg: Config, n: Node, m: Msg)
    requires !n.lrn.receiving && Aligned(n) && m.PrepareReply?
    ensures Attends(n, OnPrepareReply(cfg, n, m))
    decreases 4, 2
  {
    if PromisesPass(cfg, n, m) {
      var p := PromisesPassed(cfg, n, m);
      AcceptPhaseAttends(cfg, n, n.(prop := p));
    } else {
      PromisesPending(cfg, n, m, OnPrepareReply(cfg, n, m));
    }
  }

  lemma VotesAttend(cfg: Config, n: Node, m: Msg)
    requires !n.lrn.receiving && Aligned(n) && m.AcceptReply?
    ensures Attends(n, OnAcceptReply(cfg, n, m))
    decreases 2, 2
  {
    if VotesPass(cfg, n, m) {
      var p := VotesPassed(cfg, n, m);
      var n1 := n.(prop := p);
      NestedAttends(cfg, n, StartAnnounce(cfg, n1), AnnounceMsg(cfg, n1));
    } else {
      VotesPending(cfg, n, m, OnAcceptReply(cfg, n, m));
    }
  }

  lemma LearningAttends(cfg: Config, n: Node, m: Msg)
    requires !n.lrn.receiving && (m.NewChosen? || m.SendLearned?)
    ensures Attends(n, Dispatch(cfg, n, m))
  {
  }

  lemma DispatchAttends(cfg: Config, n: Node, m: Msg)
    requires !n.lrn.receiving && Aligned(n) && (Rank(m) >= 1 || m.SendLearned?)
    ensures Attends(n, Dispatch(cfg, n, m))
    decreases Rank(m), 3
  {
    if m.PrepareReply? {
      PromisesAttend(cfg, n, m);
    } else if m.AcceptReply? {
      VotesAttend(cfg, n, m);
    } else if m.Prepare? || m.Accept? {
      RequestAttends(cfg, n, m);
    } else {
      LearningAttends(cfg, n, m);
    }
  }

  lemma MessageAttends(cfg: Config, n: Node, m: Msg)
    requires !n.lrn.receiving && Aligned(n) && (Rank(m) >= 1 || m.SendLearned?)
    ensures Attends(n, OnPaxosMessage(cfg, n, m))
    decreases Rank(m), 4
  {
    DispatchAttends(cfg, n, m);
    CheckLearnAttends(cfg, n, Dispatch(cfg, n, m));
  }

  // ------------------------------------------------------------ whole steps

  /** What others rely on: the node does not go back, votes only where it stands and tells no more
      about its log than holds. */
  ghost predicate Forward(n: Node, r: Node) {
    && n.inst <= r.inst && (n.minChosen < n.inst ==> r.minChosen < r.inst)
    && forall y :: y in r.out && y !in n.out ==>
         (y.AcceptReply? ==> y.inst >= n.inst) && (y.SendNow? ==> y.minChosen == n.minChosen)
  }

  /** It waits for a checkpoint because it did already, or because it was just told that its next
      records are gone. */
  predicate Waits(n: Node, r: Node, s: Step) {
    && r.inst == n.inst
    && (n.lrn.receiving || (s.Deliver? && s.m.SendNow? && s.m.minChosen > n.inst && s.m.now > n.inst))
  }

  /** The ACCEPT it just sent without hearing it. */
  predicate Unheard(n: Node, x: Msg)
    requires x.Accept?
  {
    n.lrn.receiving && !n.prop.rejected && x.inst == n.inst && x.pid == n.prop.pid
  }

  /** A new proposal id is taken only after a rejection, and is the first above all that are known. */
  predicate IdKept(p: ProposerState, q: ProposerState) {
    q.pid == p.pid || (p.rejected && q.pid > p.pid && q.pid > p.maxPid && (q.pid == p.pid + 1 || q.pid == p.maxPid + 1))
  }

  ghost predicate Steps(i: nat, n: Node, r: Node, s: Step) {
    && Forward(n, r) && IdKept(n.prop, r.prop)
    && (r.lrn.receiving ==> Waits(n, r, s))
    && forall x :: x in r.ignored && x !in n.ignored && x.Accept? && x.src == i ==> Unheard(n, x)
  }

  lemma AttendingSteps(i: nat, n: Node, r: Node, s: Step)
    requires Attends(n, r)
    ensures Steps(i, n, r, s)
  {
  }

  /** Answers to learners, when nothing is left to execute. */
  lemma AskingSteps(cfg: Config, n: Node, s: Step)
    requires !n.lrn.receiving && !n.lrn.learned && Aligned(n)
    requires s.Deliver? && Rank(s.m) == 0 && !s.m.SendLearned?
    ensures Steps(cfg.me, n, OnPaxosMessage(cfg, n, s.m), s)
  {
    var d := Dispatch(cfg, n, s.m);
    AskingTalks(cfg, n, s.m, d);
    assert OnPaxosMessage(cfg, n, s.m) == CheckLearn(cfg, d) == d;
    if s.m.ConfirmAsk? {
      BatchIsLearned(cfg.me, s.m.src, n.log, s.m.inst, n.lrn.inst);
    }
  }

  lemma MessageSteps(cfg: Config, n: Node, s: Step)
    requires s.Deliver? && s.m.src != cfg.me && !n.lrn.learned && Aligned(n)
    ensures Steps(cfg.me, n, OnPaxosMessage(cfg, n, s.m), s)
  {
    if n.lrn.receiving {
      assert OnPaxosMessage(cfg, n, s.m) == n.(ignored := n.ignored + {s.m});
    } else if Rank(s.m) == 0 && !s.m.SendLearned? {
      AskingSteps(cfg, n, s);
    } else {
      MessageAttends(cfg, n, s.m);
      AttendingSteps(cfg.me, n, OnPaxosMessage(cfg, n, s.m), s);
    }
  }

  /** `n1` is `n` about to start a phase under its present id. */
  predicate About(n: Node, n1: Node) {
    && n1 == n.(prop := n1.prop, proposing := n1.proposing, timer := n1.timer, proposal := n1.proposal)
    && n1.prop.pid == n.prop.pid && n1.prop.inst == n.prop.inst && n1.prop.maxPid == n.prop.maxPid
  }

  /** While it receives a checkpoint a node starts a phase without hearing itself. */
  lemma DeafAccept(cfg: Config, n: Node, n1: Node, s: Step)
    requires n.lrn.receiving && Aligned(n) && !n.prop.rejected && About(n, n1)
    ensures Steps(cfg.me, n, AcceptPhase(cfg, n1), s)
  {
    assert AcceptPhase(cfg, n1) == StartAccept(cfg, n1).(ignored := n.ignored + {AcceptMsg(cfg, n1)});
  }

  lemma DeafPrepare(cfg: Config, n: Node, n1: Node, s: Step)
    requires n.lrn.receiving && Aligned(n) && About(n, n1)
    ensures Steps(cfg.me, n, PreparePhase(cfg, n1, n.prop.rejected), s)
  {
    var p := StartPrepare(cfg, n1, n.prop.rejected);
    assert PreparePhase(cfg, n1, n.prop.rejected) == p.(ignored := n.ignored + {PrepareMsg(cfg, p)});
  }

  lemma AcceptSteps(cfg: Config, n: Node, n1: Node, s: Step)
    requires Aligned(n) && !n.prop.rejected && About(n, n1)
    ensures Steps(cfg.me, n, AcceptPhase(cfg, n1), s)
  {
    if n.lrn.receiving {
      DeafAccept(cfg, n, n1, s);
    } else {
      AcceptPhaseAttends(cfg, n, n1);
      AttendingSteps(cfg.me, n, AcceptPhase(cfg, n1), s);
    }
  }

  lemma PrepareSteps(cfg: Config, n: Node, n1: Node, s: Step)
    requires Aligned(n) && About(n, n1)
    ensures Steps(cfg.me, n, PreparePhase(cfg, n1, n.prop.rejected), s)
  {
    if n.lrn.receiving {
      DeafPrepare(cfg, n, n1, s);
    } else {
      PreparePhaseAttends(cfg, n1, n.prop.rejected);
    }
  }

  lemma ProposeSteps(cfg: Config, n: Node, v: Value, s: Step)
    requires Aligned(n) && !n.proposing && cfg.me in cfg.members
    ensures Steps(cfg.me, n, OnPropose(cfg, n, v), s)
  {
    var n0 := n.(proposing := true, timer := true, proposal := v);
    var n1 := n0.(prop := n0.prop.(value := v));
    if n1.prop.skip && !n1.prop.rejected {
      AcceptSteps(cfg, n, n1, s);
    } else {
      PrepareSteps(cfg, n, n1, s);
    }
  }

  lemma RetrySteps(cfg: Config, n: Node, s: Step)
    requires Aligned(n) && n.prop.retry.Some?
    ensures Steps(cfg.me, n, OnRetryTimer(cfg, n), s)
  {
    PrepareSteps(cfg, n, n.(prop := n.prop.(retry := None)), s);
  }

  lemma EveryStep(c: Cluster, w: World, s: Step)
    requires Enabled(c, w, s) && w.Keys == c.members
    requires !w[s.i].lrn.learned && Aligned(w[s.i]) && w[s.i].maxChosen <= w[s.i].inst
    ensures Steps(s.i, w[s.i], StepNode(c, w, s), s)
  {
    match s
    case Deliver(i, m) => MessageSteps(Cfg(c, i), w[i], s);
    case Propose(i, v) => ProposeSteps(Cfg(c, i), w[i], v, s);
    case RetryTimer(i) => RetrySteps(Cfg(c, i), w[i], s);
    case ProposeTimeout(i) =>
    case Sync(i) =>
    case Clean(i, upTo) =>
    case Transfer(i, on) =>
  }
}
