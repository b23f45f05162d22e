/** What a node's synchronous delivery to itself guarantees: its own acceptor promised every id it
    sent, and either voted for its ACCEPT or made it take a new id before it goes on. */
module SelfDelivery {
  import opened Ballots
  import opened Messages
  import opened NodeModel
  import opened Progress

  predicate IsRequest(m: Msg) { m.Prepare? || m.Accept? }

  predicate OwnVote(me: nat, n: Node, m: Msg)
    requires m.Accept?
  {
    AcceptReply(me, me, m.inst, m.pid, 0) in n.out
  }

  /** The node will not use the id of `m` in a later instance. */
  predicate Retired(n: Node, m: Msg)
    requires m.Accept?
  {
    && (m.pid == n.prop.pid ==> n.prop.rejected && !n.prop.preparing)
    && forall x :: x in n.out && IsRequest(x) && x.inst > m.inst ==> x.pid > m.pid
  }

  predicate RequestFact(n: Node, m: Msg)
    requires IsRequest(m)
  {
    m.pid <= n.acc.promised.pid
  }

  predicate VotedOrRetired(me: nat, n: Node, m: Msg)
    requires m.Accept?
  {
    OwnVote(me, n, m) || Retired(n, m)
  }

  predicate InRange(n: Node, m: Msg)
    requires IsRequest(m)
  {
    m.inst <= n.inst && m.pid <= n.prop.pid
  }

  /** What the node sent, less what it ignored itself while it received a checkpoint. */
  function Heard(n: Node): set<Msg> {
    n.out - n.ignored
  }

  /** `pending` is the request being delivered to the node itself right now, if any. */
  ghost predicate SelfInv(me: nat, n: Node, pending: Option<Msg>) {
    && n.acc.inst == n.inst && n.prop.inst == n.inst && n.lrn.inst == n.inst
    && n.prop.pid >= 1
    && (forall m {:trigger InRange(n, m)} :: m in n.out && IsRequest(m) ==> InRange(n, m))
    && (forall m {:trigger RequestFact(n, m)} :: m in Heard(n) && IsRequest(m) && pending != Some(m) ==>
          RequestFact(n, m))
    && (forall m {:trigger VotedOrRetired(me, n, m)} :: m in Heard(n) && m.Accept? && pending != Some(m) ==>
          VotedOrRetired(me, n, m))
  }

  /** Nothing the invariant speaks of changed for the worse. */
  ghost predicate Harmless(n: Node, n': Node) {
    && n'.inst >= n.inst && n'.acc.inst == n'.inst && n'.prop.inst == n'.inst && n'.lrn.inst == n'.inst
    && n'.prop.pid == n.prop.pid && (n.prop.rejected ==> n'.prop.rejected)
    && (n'.prop.preparing ==> n.prop.preparing)
    && n'.acc.promised.pid >= n.acc.promised.pid
    && n.out <= n'.out
    && (forall m :: m in n'.out && IsRequest(m) ==> m in n.out)
    && n.ignored <= n'.ignored
  }

  lemma HarmlessKeeps(me: nat, n: Node, n': Node, pending: Option<Msg>)
    requires SelfInv(me, n, pending) && Harmless(n, n')
    ensures SelfInv(me, n', pending)
  {
    forall m | m in n'.out && IsRequest(m) ensures InRange(n', m) {
      assert InRange(n, m);
    }
    forall m | m in Heard(n') && IsRequest(m) && pending != Some(m) ensures RequestFact(n', m) {
      assert RequestFact(n, m);
    }
    forall m | m in Heard(n') && m.Accept? && pending != Some(m) ensures VotedOrRetired(me, n', m) {
      assert VotedOrRetired(me, n, m);
    }
  }

  function Pending(me: nat, m: Msg): Option<Msg> {
    if IsRequest(m) && m.src == me then Some(m) else None
  }

  /** The own acceptor answered the pending PREPARE, so the id is promised. */
  lemma PromiseSettles(cfg: Config, n: Node, m: Msg)
    requires m.Prepare? && SelfInv(cfg.me, n, Pending(cfg.me, m))
    ensures SelfInv(cfg.me, Promise(cfg, n, m), None)
  {
    var n' := Promise(cfg, n, m);
    assert n'.acc.promised.pid >= m.pid;
    HarmlessKeeps(cfg.me, n, n', Pending(cfg.me, m));
    forall x | x in Heard(n') && IsRequest(x) ensures RequestFact(n', x) {
      assert x == m || RequestFact(n', x);
    }
    forall x | x in Heard(n') && x.Accept? ensures VotedOrRetired(cfg.me, n', x) {
      assert VotedOrRetired(cfg.me, n', x);
    }
  }

  lemma VoteSettles(cfg: Config, n: Node, m: Msg)
    requires m.Accept? && SelfInv(cfg.me, n, Pending(cfg.me, m))
    requires m.src != cfg.me || Leq(n.acc.promised, Ballot(m.pid, m.src))
    ensures SelfInv(cfg.me, Vote(cfg, n, m), None)
  {
    var n' := Vote(cfg, n, m);
    assert m.src == cfg.me ==> OwnVote(cfg.me, n', m);
    HarmlessKeeps(cfg.me, n, n', Pending(cfg.me, m));
    forall x | x in Heard(n') && IsRequest(x) ensures RequestFact(n', x) {
      assert (m.src == cfg.me && x == m) || RequestFact(n', x);
    }
    forall x | x in Heard(n') && x.Accept? ensures VotedOrRetired(cfg.me, n', x) {
      assert (m.src == cfg.me && x == m) || VotedOrRetired(cfg.me, n', x);
    }
  }

  /** The own acceptor refused the pending ACCEPT: the proposer notes the rejection. */
  lemma RefusalRetires(cfg: Config, n: Node, m: Msg)
    requires m.Accept? && m.src == cfg.me && SelfInv(cfg.me, n, Some(m))
    requires m.inst == n.inst && m.pid == n.prop.pid && !n.prop.preparing && n.prop.counter == NO_ROUND
    requires !Leq(n.acc.promised, Ballot(m.pid, m.src)) && !n.lrn.receiving
    ensures SelfInv(cfg.me, OnPaxosMessage(cfg, Vote(cfg, n, m), VoteReply(cfg, n, m)), None)
  {
    var v, r := Vote(cfg, n, m), VoteReply(cfg, n, m);
    var d := OnAcceptReply(cfg, v, r);
    assert Received(NO_ROUND, cfg.me, r.rejected).promisors == {};
    assert !Passed(cfg, Received(NO_ROUND, cfg.me, r.rejected));
    assert d.prop.rejected && !d.prop.preparing && d.prop.pid == m.pid;
    assert Harmless(n, d);
    HarmlessKeeps(cfg.me, n, d, Some(m));
    RetireNow(cfg.me, d, m);
    CheckLearnKeeps(cfg, d);
  }

  lemma RetireNow(me: nat, n: Node, m: Msg)
    requires m.Accept? && SelfInv(me, n, Some(m)) && m.inst == n.inst && m.pid == n.prop.pid
    requires n.prop.rejected && !n.prop.preparing && n.acc.promised.pid >= m.pid
    ensures SelfInv(me, n, None)
  {
    forall x | x in n.out && IsRequest(x) ensures x.inst <= m.inst {
      assert InRange(n, x);
    }
    assert Retired(n, m);
    forall x | x in Heard(n) && IsRequest(x) ensures RequestFact(n, x) {
      assert x == m || RequestFact(n, x);
    }
    forall x | x in Heard(n) && x.Accept? ensures VotedOrRetired(me, n, x) {
      assert x == m || VotedOrRetired(me, n, x);
    }
  }

  lemma CheckLearnKeeps(cfg: Config, n: Node)
    requires SelfInv(cfg.me, n, None)
    ensures SelfInv(cfg.me, CheckLearn(cfg, n), None)
  {
    HarmlessKeeps(cfg.me, n, CheckLearn(cfg, n), None);
  }

  /** Ignoring a message settles nothing, and nothing is claimed of it from then on. */
  lemma IgnoreKeeps(cfg: Config, n: Node, m: Msg, pending: Option<Msg>)
    requires SelfInv(cfg.me, n, pending) && (pending == None || pending == Some(m))
    ensures SelfInv(cfg.me, n.(ignored := n.ignored + {m}), None)
  {
    HarmlessKeeps(cfg.me, n, n.(ignored := n.ignored + {m}), pending);
  }

  // ------------------------------------------------------------ handler runs

  lemma PrepareKeeps(cfg: Config, n: Node, m: Msg)
    requires m.Prepare? && SelfInv(cfg.me, n, Pending(cfg.me, m)) && cfg.members != {}
    requires m.src == cfg.me ==> m.inst == n.inst
    ensures SelfInv(cfg.me, OnPrepare(cfg, n, m), None)
    decreases 5, 2
  {
    if m.inst == n.acc.inst {
      PromiseSettles(cfg, n, m);
      if m.src == cfg.me {
        MessageKeeps(cfg, Promise(cfg, n, m), PromiseReply(cfg, n, m));
      }
    } else if m.inst == n.acc.inst + 1 {
      MessageKeeps(cfg, n, NewChosen(m.src, n.acc.inst, m.pid));
    }
  }

  lemma AcceptKeeps(cfg: Config, n: Node, m: Msg)
    requires m.Accept? && SelfInv(cfg.me, n, Pending(cfg.me, m)) && cfg.members != {}
    requires m.src == cfg.me ==>
      m.inst == n.inst && m.pid == n.prop.pid && !n.prop.preparing && n.prop.counter == NO_ROUND && !n.lrn.receiving
    ensures SelfInv(cfg.me, OnAccept(cfg, n, m), None)
    decreases 3, 2
  {
    if m.inst == n.acc.inst {
      if m.src != cfg.me {
        VoteSettles(cfg, n, m);
      } else if Leq(n.acc.promised, Ballot(m.pid, m.src)) {
        VoteSettles(cfg, n, m);
        MessageKeeps(cfg, Vote(cfg, n, m), VoteReply(cfg, n, m));
      } else {
        RefusalRetires(cfg, n, m);
      }
    } else if m.inst == n.acc.inst + 1 {
      MessageKeeps(cfg, n, NewChosen(m.src, n.acc.inst, m.pid));
    }
  }

  /** Issuing a request under an id that no refused ACCEPT used leaves only that request open. */
  lemma IssueKeeps(me: nat, n: Node, n': Node, m: Msg)
    requires SelfInv(me, n, None) && IsRequest(m) && m.src == me
    requires n' == n.(prop := n'.prop, out := n.out + {m}) && n'.prop.inst == n.prop.inst
    requires m.inst == n.inst && m.pid == n'.prop.pid >= n.prop.pid
    requires n'.prop.pid == n.prop.pid ==>
      (n.prop.rejected ==> n'.prop.rejected) || n.prop.preparing || !n.prop.rejected
    requires forall x :: x in Heard(n) && x.Accept? && x.pid == n'.prop.pid ==> OwnVote(me, n, x)
    ensures SelfInv(me, n', Some(m))
  {
    forall x | x in n'.out && IsRequest(x) ensures InRange(n', x) {
      assert x in n.out ==> InRange(n, x);
    }
    forall x | x in Heard(n') && IsRequest(x) && x != m ensures RequestFact(n', x) {
      assert RequestFact(n, x);
    }
    forall x | x in Heard(n') && x.Accept? && x != m ensures VotedOrRetired(me, n', x) {
      assert VotedOrRetired(me, n, x) && InRange(n, x);
      if !OwnVote(me, n, x) {
        assert x.pid < n'.prop.pid;
        assert Retired(n', x);
      }
    }
  }

  /** While preparing, or with no rejection noted, every ACCEPT under the current id has the own vote. */
  lemma CurrentIdVoted(me: nat, n: Node)
    requires SelfInv(me, n, None) && (n.prop.preparing || !n.prop.rejected)
    ensures forall x :: x in Heard(n) && x.Accept? && x.pid == n.prop.pid ==> OwnVote(me, n, x)
  {
    forall x | x in Heard(n) && x.Accept? && x.pid == n.prop.pid ensures OwnVote(me, n, x) {
      assert VotedOrRetired(me, n, x);
    }
  }

  lemma AcceptPhaseKeeps(cfg: Config, n: Node, n1: Node)
    requires SelfInv(cfg.me, n, None) && cfg.members != {} && (n.prop.preparing || !n.prop.rejected)
    requires n1 == n.(prop := n1.prop, proposing := n1.proposing, timer := n1.timer, proposal := n1.proposal)
    requires n1.prop.inst == n.prop.inst && n1.prop.pid == n.prop.pid && n1.prop.rejected == n.prop.rejected
    ensures SelfInv(cfg.me, AcceptPhase(cfg, n1), None)
    decreases 3, 5
  {
    CurrentIdVoted(cfg.me, n);
    var n2, m := StartAccept(cfg, n1), AcceptMsg(cfg, n1);
    var n0 := n.(proposing := n1.proposing, timer := n1.timer, proposal := n1.proposal);
    HarmlessKeeps(cfg.me, n, n0, None);
    IssueKeeps(cfg.me, n0, n2, m);
    if n2.lrn.receiving {
      IgnoreKeeps(cfg, n2, m, Some(m));
    } else {
      AcceptKeeps(cfg, n2, m);
      assert OnPaxosMessage(cfg, n2, m) == CheckLearn(cfg, Dispatch(cfg, n2, m));
      assert Dispatch(cfg, n2, m) == OnAccept(cfg, n2, m);
      CheckLearnKeeps(cfg, OnAccept(cfg, n2, m));
    }
  }

  lemma PreparePhaseKeeps(cfg: Config, n: Node, n1: Node)
    requires SelfInv(cfg.me, n, None) && cfg.members != {}
    requires n1 == n.(prop := n1.prop, proposing := n1.proposing, timer := n1.timer, proposal := n1.proposal)
    requires n1.prop.inst == n.prop.inst && n1.prop.pid == n.prop.pid && n1.prop.rejected == n.prop.rejected
    ensures SelfInv(cfg.me, PreparePhase(cfg, n1, n1.prop.rejected), None)
  {
    var n2 := StartPrepare(cfg, n1, n1.prop.rejected);
    var m := PrepareMsg(cfg, n2);
    var n0 := n.(proposing := n1.proposing, timer := n1.timer, proposal := n1.proposal);
    HarmlessKeeps(cfg.me, n, n0, None);
    if !n.prop.rejected {
      CurrentIdVoted(cfg.me, n0);
    } else {
      forall x | x in n0.out && x.Accept? ensures x.pid <= n0.prop.pid {
        assert IsRequest(x) && InRange(n0, x);
      }
    }
    IssueKeeps(cfg.me, n0, n2, m);
    if n2.lrn.receiving {
      IgnoreKeeps(cfg, n2, m, Some(m));
    } else {
      PrepareKeeps(cfg, n2, m);
      assert OnPaxosMessage(cfg, n2, m) == CheckLearn(cfg, Dispatch(cfg, n2, m));
      assert Dispatch(cfg, n2, m) == OnPrepare(cfg, n2, m);
      CheckLearnKeeps(cfg, OnPrepare(cfg, n2, m));
    }
  }

  lemma PromisesKeep(cfg: Config, n: Node, p: ProposerState, rejected: nat)
    requires SelfInv(cfg.me, n, None) && cfg.members != {}
    requires n.prop.preparing && p.inst == n.prop.inst && p.pid == n.prop.pid && p.rejected == n.prop.rejected
    ensures SelfInv(cfg.me, NoteRejection(AcceptPhase(cfg, n.(prop := p)), rejected), None)
    decreases 3, 7
  {
    var n1 := AcceptPhase(cfg, n.(prop := p));
    AcceptPhaseKeeps(cfg, n, n.(prop := p));
    HarmlessKeeps(cfg.me, n1, NoteRejection(n1, rejected), None);
  }

  lemma OnlyProposerKeeps(me: nat, n: Node, n': Node)
    requires SelfInv(me, n, None) && OnlyProposer(n, n')
    ensures SelfInv(me, n', None)
  {
    HarmlessKeeps(me, n, n', None);
  }

  lemma PrepareReplyKeeps(cfg: Config, n: Node, m: Msg)
    requires m.PrepareReply? && SelfInv(cfg.me, n, None) && cfg.members != {}
    ensures SelfInv(cfg.me, OnPrepareReply(cfg, n, m), None)
    decreases 4, 2
  {
    if PromisesPass(cfg, n, m) {
      var p := PromisesPassed(cfg, n, m);
      PromisesKeep(cfg, n, p, m.rejected);
    } else {
      PromisesPending(cfg, n, m, OnPrepareReply(cfg, n, m));
      OnlyProposerKeeps(cfg.me, n, OnPrepareReply(cfg, n, m));
    }
  }

  lemma AnnouncePhaseKeeps(cfg: Config, n: Node)
    requires SelfInv(cfg.me, n, None) && cfg.members != {}
    ensures SelfInv(cfg.me, AnnouncePhase(cfg, n), None)
    decreases 1, 5
  {
    var n1 := StartAnnounce(cfg, n);
    HarmlessKeeps(cfg.me, n, n1, None);
    MessageKeeps(cfg, n1, AnnounceMsg(cfg, n));
  }

  lemma VotesKeep(cfg: Config, n: Node, p: ProposerState, rejected: nat)
    requires SelfInv(cfg.me, n, None) && cfg.members != {}
    requires p.inst == n.prop.inst && p.pid == n.prop.pid && p.preparing == n.prop.preparing &&
        p.rejected == n.prop.rejected
    ensures SelfInv(cfg.me, NoteRejection(AnnouncePhase(cfg, n.(prop := p)), rejected), None)
    decreases 1, 7
  {
    var n1 := AnnouncePhase(cfg, n.(prop := p));
    HarmlessKeeps(cfg.me, n, n.(prop := p), None);
    AnnouncePhaseKeeps(cfg, n.(prop := p));
    HarmlessKeeps(cfg.me, n1, NoteRejection(n1, rejected), None);
  }

  lemma AcceptReplyKeeps(cfg: Config, n: Node, m: Msg)
    requires m.AcceptReply? && SelfInv(cfg.me, n, None) && cfg.members != {}
    ensures SelfInv(cfg.me, OnAcceptReply(cfg, n, m), None)
    decreases 2, 2
  {
    if VotesPass(cfg, n, m) {
      var p := VotesPassed(cfg, n, m);
      VotesKeep(cfg, n, p, m.rejected);
    } else {
      VotesPending(cfg, n, m, OnAcceptReply(cfg, n, m));
      OnlyProposerKeeps(cfg.me, n, OnAcceptReply(cfg, n, m));
    }
  }

  predicate InStep(n: Node) {
    n.acc.inst == n.inst && n.prop.inst == n.inst && n.lrn.inst == n.inst
  }

  lemma LearningIsHarmless(cfg: Config, n: Node, m: Msg)
    requires InStep(n)
    ensures m.NewChosen? ==> Harmless(n, OnNewChosen(cfg, n, m))
    ensures m.SendLearned? ==> Harmless(n, OnSendLearned(cfg, n, m))
  {
  }

  lemma LearnerIsHarmless(cfg: Config, n: Node, m: Msg)
    requires Rank(m) <= 1 && InStep(n)
    ensures Harmless(n, Dispatch(cfg, n, m))
  {
    if m.NewChosen? || m.SendLearned? {
      LearningIsHarmless(cfg, n, m);
    } else {
      AskingTalks(cfg, n, m, Dispatch(cfg, n, m));
    }
  }

  lemma MessageKeeps(cfg: Config, n: Node, m: Msg)
    requires SelfInv(cfg.me, n, None) && (IsRequest(m) ==> m.src != cfg.me) && cfg.members != {}
    ensures SelfInv(cfg.me, OnPaxosMessage(cfg, n, m), None)
    decreases Rank(m), 4
  {
    if n.lrn.receiving {
      IgnoreKeeps(cfg, n, m, None);
    } else {
      match m {
        case Prepare(_, _, _) => PrepareKeeps(cfg, n, m);
        case Accept(_, _, _, _) => AcceptKeeps(cfg, n, m);
        case PrepareReply(_, _, _, _, _, _, _) => PrepareReplyKeeps(cfg, n, m);
        case AcceptReply(_, _, _, _, _) => AcceptReplyKeeps(cfg, n, m);
        case _ =>
          LearnerIsHarmless(cfg, n, m);
          HarmlessKeeps(cfg.me, n, Dispatch(cfg, n, m), None);
      }
      CheckLearnKeeps(cfg, Dispatch(cfg, n, m));
    }
  }

  lemma ProposeKeeps(cfg: Config, n: Node, v: Value)
    requires SelfInv(cfg.me, n, None) && cfg.members != {} && !n.proposing
    ensures SelfInv(cfg.me, OnPropose(cfg, n, v), None)
  {
    if cfg.me in cfg.members {
      var n0 := n.(proposing := true, timer := true, proposal := v);
      var n1 := n0.(prop := n0.prop.(value := v));
      if n1.prop.skip && !n1.prop.rejected {
        AcceptPhaseKeeps(cfg, n, n1);
      } else {
        PreparePhaseKeeps(cfg, n, n1);
      }
    } else {
      HarmlessKeeps(cfg.me, n, OnPropose(cfg, n, v), None);
    }
  }

  lemma RetryKeeps(cfg: Config, n: Node)
    requires SelfInv(cfg.me, n, None) && cfg.members != {} && n.prop.retry.Some?
    ensures SelfInv(cfg.me, OnRetryTimer(cfg, n), None)
  {
    var n1 := n.(prop := n.prop.(retry := None));
    if n.prop.retry.value == n.prop.inst {
      PreparePhaseKeeps(cfg, n, n1);
    } else {
      HarmlessKeeps(cfg.me, n, n1, None);
    }
  }
}
