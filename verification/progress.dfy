/** What every handler run does to its own node, whatever the messages: the nested call chain
    advances at most one instance, keeps the parts aligned and never takes anything back. */
module Progress {
  import opened Ballots
  import opened Messages
  import opened NodeModel

  predicate Aligned(n: Node) {
    n.acc.inst == n.inst && n.prop.inst == n.inst && n.lrn.inst == n.inst
  }

  /** The record a restart would find last: the acceptor's, unless the learner wrote over it. */
  predicate Stored(n: Node) {
    && n.inst >= 1 && n.maxChosen == (if n.inst == 1 then 1 else n.inst - 1)
    && (forall k :: k in n.log ==> k <= n.inst && n.log[k].inst == k)
    && (n.inst in n.log && n.inst !in n.byLearner ==>
          n.log[n.inst] == Record(n.inst, n.acc.promised, n.acc.accepted, n.acc.value))
    && (n.inst !in n.log && n.inst - 1 in n.log && n.inst - 1 !in n.byLearner ==>
          n.log[n.inst - 1].promised == n.acc.promised)
    && (n.inst > 1 ==> n.inst - 1 in n.log)
    && (n.inst == 1 && 1 !in n.log ==> n.acc.promised == NO_BALLOT)
    && (n.acc.accepted.pid > 0 || n.lrn.learned ==> n.inst in n.log)
  }

  /** The proposer counts as rejected exactly if it knows of a promise at or above its own id. */
  predicate Informed(p: ProposerState) {
    p.pid >= 1 && (p.rejected <==> p.maxPid >= p.pid)
  }

  /** What holds at a node between handler runs, whatever was delivered. */
  predicate LocalInv(n: Node) {
    && Aligned(n)
    && (n.timer <==> n.proposing)
    && (!n.lrn.learned ==> n.lrn.value == NO_VALUE)
    && Informed(n.prop)
    && Stored(n)
  }

  predicate Plausible(m: Msg) {
    m.Prepare? || m.Accept? || m.NewChosen? ==> m.pid >= 1
  }

  /** One if a proposal is still waiting for its outcome. */
  function Waiting(n: Node): nat {
    if n.proposing then 1 else 0
  }

  /** A machine refused the value learned for the current instance. */
  predicate Refused(cfg: Config, n: Node) {
    n.lrn.learned && !cfg.exec(n.inst, n.lrn.value)
  }

  /** A reported outcome says what happened: after Done the instance has executed the waiting
      proposal's value, after Conflict another's, and after MachineError a machine refused the value and the next
      proposal has to prepare. */
  predicate Reported(cfg: Config, n: Node, r: Node) {
    |n.done| < |r.done| ==>
      match r.done[|n.done|]
      case Done => |n.executed| < |r.executed| && r.executed[|n.executed|].id == n.proposal.id
      case Conflict => |n.executed| < |r.executed| && r.executed[|n.executed|].id != n.proposal.id
      case MachineError => r.inst == n.inst && Refused(cfg, r) && !r.prop.skip
      case _ => false
  }

  /** The highest rejection the node still heeds: any PREPARE it sends next exceeds it. */
  function Floor(n: Node): int {
    if n.prop.rejected || n.prop.maxPid < n.prop.pid then n.prop.maxPid else n.prop.pid - 1
  }

  /** No rejection is forgotten, and PREPAREs sent meanwhile exceed those known before. */
  ghost predicate Heeds(n: Node, r: Node) {
    && Floor(n) <= Floor(r)
    && forall x :: x in r.out && x.Prepare? && x !in n.out ==> x.pid > Floor(n)
  }

  ghost predicate Moved(cfg: Config, n: Node, r: Node) {
    && LocalInv(r)
    && n.inst <= r.inst <= n.inst + 1
    && n.executed <= r.executed && |r.executed| - |n.executed| == r.inst - n.inst
    && (r.inst > n.inst ==> !r.lrn.learned && !r.proposing)
    && n.out <= r.out
    && Leq(n.acc.promised, r.acc.promised)
    && n.prop.pid <= r.prop.pid && n.prop.maxPid <= r.prop.maxPid
    && n.done <= r.done && |r.done| + Waiting(r) == |n.done| + Waiting(n)
    && n.proposal == r.proposal && Reported(cfg, n, r) && Heeds(n, r)
    && n.ignored <= r.ignored
  }

  lemma MovedThenMoved(cfg: Config, n: Node, a: Node, r: Node)
    requires Moved(cfg, n, a) && Moved(cfg, a, r)
    requires a.inst == n.inst || (r.inst == a.inst && (r.lrn.learned ==> a.lrn.learned))
    requires |a.done| > |n.done| && a.inst == n.inst ==>
      r.inst == a.inst && r.lrn == a.lrn && (r.prop.skip ==> a.prop.skip)
    ensures Moved(cfg, n, r)
  {
    TotalOrder(n.acc.promised, a.acc.promised, r.acc.promised);
  }

  lemma PropMoves(cfg: Config, n: Node, p: ProposerState)
    requires LocalInv(n) && p.inst == n.prop.inst && p.pid >= n.prop.pid && p.maxPid >= n.prop.maxPid
    requires Floor(n) <= Floor(n.(prop := p)) && Informed(p)
    ensures Moved(cfg, n, n.(prop := p))
  {
  }

  lemma NoteMoves(cfg: Config, n: Node, rejected: nat)
    requires LocalInv(n)
    ensures Moved(cfg, n, NoteRejection(n, rejected))
  {
  }

  lemma CheckLearnMoves(cfg: Config, n: Node)
    requires LocalInv(n)
    ensures Moved(cfg, n, CheckLearn(cfg, n))
  {
  }

  lemma PromiseMoves(cfg: Config, n: Node, m: Msg)
    requires LocalInv(n) && m.Prepare? && m.pid >= 1 && m.inst == n.acc.inst
    ensures Moved(cfg, n, Promise(cfg, n, m)) && Promise(cfg, n, m).inst == n.inst
  {
  }

  lemma VoteMoves(cfg: Config, n: Node, m: Msg)
    requires LocalInv(n) && m.Accept? && m.pid >= 1 && m.inst == n.acc.inst
    ensures Moved(cfg, n, Vote(cfg, n, m)) && Vote(cfg, n, m).inst == n.inst
  {
  }

  /** A handler that answers itself: one more message within the same run. */
  lemma ReplyMoves(cfg: Config, n: Node, n1: Node, reply: Msg)
    requires LocalInv(n) && Moved(cfg, n, n1) && n1.inst == n.inst && n1.done == n.done
    requires reply.PrepareReply? || reply.AcceptReply?
    ensures Moved(cfg, n, OnPaxosMessage(cfg, n1, reply))
    decreases Rank(reply), 5
  {
    MessageMoves(cfg, n1, reply);
    MovedThenMoved(cfg, n, n1, OnPaxosMessage(cfg, n1, reply));
  }

  lemma PrepareMoves(cfg: Config, n: Node, m: Msg)
    requires LocalInv(n) && m.Prepare? && m.pid >= 1
    ensures Moved(cfg, n, OnPrepare(cfg, n, m))
    decreases 5, 2
  {
    if m.inst == n.acc.inst {
      PromiseMoves(cfg, n, m);
      if m.src == cfg.me {
        ReplyMoves(cfg, n, Promise(cfg, n, m), PromiseReply(cfg, n, m));
      }
    } else if m.inst == n.acc.inst + 1 {
      MessageMoves(cfg, n, NewChosen(m.src, n.acc.inst, m.pid));
    }
  }

  lemma AcceptMoves(cfg: Config, n: Node, m: Msg)
    requires LocalInv(n) && m.Accept? && m.pid >= 1
    ensures Moved(cfg, n, OnAccept(cfg, n, m))
    decreases 3, 2
  {
    if m.inst == n.acc.inst {
      VoteMoves(cfg, n, m);
      if m.src == cfg.me {
        ReplyMoves(cfg, n, Vote(cfg, n, m), VoteReply(cfg, n, m));
      }
    } else if m.inst == n.acc.inst + 1 {
      MessageMoves(cfg, n, NewChosen(m.src, n.acc.inst, m.pid));
    }
  }

  lemma AcceptPhaseMoves(cfg: Config, n: Node)
    requires LocalInv(n)
    ensures Moved(cfg, n, AcceptPhase(cfg, n))
    decreases 3, 5
  {
    var n1 := StartAccept(cfg, n);
    MessageMoves(cfg, n1, AcceptMsg(cfg, n));
    MovedThenMoved(cfg, n, n1, AcceptPhase(cfg, n));
  }

  lemma PreparePhaseMoves(cfg: Config, n: Node, renew: bool)
    requires LocalInv(n) && (n.prop.rejected <==> renew)
    ensures Moved(cfg, n, PreparePhase(cfg, n, renew))
  {
    var n1 := StartPrepare(cfg, n, renew);
    MessageMoves(cfg, n1, PrepareMsg(cfg, n1));
    MovedThenMoved(cfg, n, n1, PreparePhase(cfg, n, renew));
  }

  lemma RoundPassedMoves(cfg: Config, n: Node, p: ProposerState, rejected: nat)
    requires LocalInv(n) && p.inst == n.prop.inst && p.pid == n.prop.pid && p.maxPid == n.prop.maxPid
    requires p.rejected == n.prop.rejected
    ensures Moved(cfg, n, NoteRejection(AcceptPhase(cfg, n.(prop := p)), rejected))
    decreases 3, 7
  {
    var k := n.(prop := p);
    PropMoves(cfg, n, p);
    AcceptPhaseMoves(cfg, k);
    NotedMoves(cfg, n, k, AcceptPhase(cfg, k), rejected);
  }

  predicate PromisesPass(cfg: Config, n: Node, m: Msg)
    requires m.PrepareReply?
  {
    n.prop.preparing && m.inst == n.prop.inst && Passed(cfg, CountPromise(n, m).prop.counter)
  }

  lemma PromisesPassed(cfg: Config, n: Node, m: Msg) returns (p: ProposerState)
    requires m.PrepareReply? && PromisesPass(cfg, n, m)
    ensures p.inst == n.prop.inst && p.pid == n.prop.pid && p.maxPid == n.prop.maxPid
    ensures !p.preparing && p.rejected == n.prop.rejected
    ensures OnPrepareReply(cfg, n, m) == NoteRejection(AcceptPhase(cfg, n.(prop := p)), m.rejected)
  {
    p := CountPromise(n, m).prop.(preparing := false, skip := true, retry := None);
  }

  lemma PromisesIgnored(cfg: Config, n: Node, m: Msg)
    requires m.PrepareReply? && !(n.prop.preparing && m.inst == n.prop.inst)
    ensures OnPrepareReply(cfg, n, m) == NoteRejection(n, m.rejected)
  {
  }

  lemma PromisesFailed(cfg: Config, n: Node, m: Msg)
    requires m.PrepareReply? && n.prop.preparing && m.inst == n.prop.inst && !PromisesPass(cfg, n, m)
    requires Failed(cfg, CountPromise(n, m).prop.counter)
    ensures var k := CountPromise(n, m);
            OnPrepareReply(cfg, n, m) ==
            NoteRejection(k.(prop := k.prop.(preparing := false, retry := Some(k.prop.inst))), m.rejected)
  {
  }

  lemma PromisesOpen(cfg: Config, n: Node, m: Msg)
    requires m.PrepareReply? && n.prop.preparing && m.inst == n.prop.inst && !PromisesPass(cfg, n, m)
    requires !Failed(cfg, CountPromise(n, m).prop.counter)
    ensures OnPrepareReply(cfg, n, m) == NoteRejection(CountPromise(n, m), m.rejected)
  {
  }

  /** A reply that does not complete the round touches only the proposer's own state. */
  predicate OnlyProposer(n: Node, n': Node) {
    && n' == n.(prop := n'.prop)
    && n'.prop.inst == n.prop.inst && n'.prop.pid == n.prop.pid && n'.prop.maxPid >= n.prop.maxPid
    && (n'.prop.preparing ==> n.prop.preparing) && (n.prop.rejected ==> n'.prop.rejected)
    && (n'.prop.accepting ==> n.prop.accepting) && (Informed(n.prop) ==> Informed(n'.prop))
    && (n'.prop.retry == n.prop.retry || n'.prop.retry == Some(n.prop.inst))
    && (n'.prop.retry != n.prop.retry ==> n.prop.preparing || n.prop.accepting)
  }

  lemma PromisesPending(cfg: Config, n: Node, m: Msg, n': Node)
    requires m.PrepareReply? && !PromisesPass(cfg, n, m) && n' == OnPrepareReply(cfg, n, m)
    ensures OnlyProposer(n, n')
  {
    if !(n.prop.preparing && m.inst == n.prop.inst) {
      PromisesIgnored(cfg, n, m);
    } else if Failed(cfg, CountPromise(n, m).prop.counter) {
      PromisesFailed(cfg, n, m);
    } else {
      PromisesOpen(cfg, n, m);
    }
  }

  lemma PrepareReplyMoves(cfg: Config, n: Node, m: Msg)
    requires LocalInv(n) && m.PrepareReply?
    ensures Moved(cfg, n, OnPrepareReply(cfg, n, m))
    decreases 4, 2
  {
    if PromisesPass(cfg, n, m) {
      var p := PromisesPassed(cfg, n, m);
      RoundPassedMoves(cfg, n, p, m.rejected);
    } else {
      PromisesPending(cfg, n, m, OnPrepareReply(cfg, n, m));
      OnlyProposerMoves(cfg, n, OnPrepareReply(cfg, n, m));
    }
  }

  lemma OnlyProposerMoves(cfg: Config, n: Node, n': Node)
    requires LocalInv(n) && OnlyProposer(n, n')
    ensures Moved(cfg, n, n')
  {
    PropMoves(cfg, n, n'.prop);
  }

  lemma NotedMoves(cfg: Config, n: Node, k: Node, r: Node, rejected: nat)
    requires LocalInv(n) && Moved(cfg, n, k) && k.inst == n.inst && k.done == n.done && Moved(cfg, k, r)
    ensures Moved(cfg, n, NoteRejection(r, rejected))
  {
    MovedThenMoved(cfg, n, k, r);
    NoteMoves(cfg, r, rejected);
    MovedThenMoved(cfg, n, r, NoteRejection(r, rejected));
  }

  lemma AnnouncePhaseMoves(cfg: Config, n: Node)
    requires LocalInv(n)
    ensures Moved(cfg, n, AnnouncePhase(cfg, n))
    decreases 1, 5
  {
    var n1 := StartAnnounce(cfg, n);
    MessageMoves(cfg, n1, AnnounceMsg(cfg, n));
    MovedThenMoved(cfg, n, n1, AnnouncePhase(cfg, n));
  }

  lemma VotesPassedMoves(cfg: Config, n: Node, p: ProposerState, rejected: nat)
    requires LocalInv(n) && p.inst == n.prop.inst && p.pid == n.prop.pid && p.maxPid == n.prop.maxPid
    requires p.rejected == n.prop.rejected
    ensures Moved(cfg, n, NoteRejection(AnnouncePhase(cfg, n.(prop := p)), rejected))
    decreases 1, 7
  {
    var k := n.(prop := p);
    PropMoves(cfg, n, p);
    AnnouncePhaseMoves(cfg, k);
    NotedMoves(cfg, n, k, AnnouncePhase(cfg, k), rejected);
  }

  predicate VotesPass(cfg: Config, n: Node, m: Msg)
    requires m.AcceptReply?
  {
    n.prop.accepting && m.inst == n.prop.inst && Passed(cfg, CountVote(n, m).prop.counter)
  }

  lemma VotesPassed(cfg: Config, n: Node, m: Msg) returns (p: ProposerState)
    requires m.AcceptReply? && VotesPass(cfg, n, m)
    ensures p.inst == n.prop.inst && p.pid == n.prop.pid && p.maxPid == n.prop.maxPid
    ensures p.preparing == n.prop.preparing && p.rejected == n.prop.rejected
    ensures OnAcceptReply(cfg, n, m) == NoteRejection(AnnouncePhase(cfg, n.(prop := p)), m.rejected)
  {
    p := CountVote(n, m).prop;
  }

  lemma VotesPending(cfg: Config, n: Node, m: Msg, n': Node)
    requires m.AcceptReply? && !VotesPass(cfg, n, m) && n' == OnAcceptReply(cfg, n, m)
    ensures OnlyProposer(n, n')
  {
  }

  lemma AcceptReplyMoves(cfg: Config, n: Node, m: Msg)
    requires LocalInv(n) && m.AcceptReply?
    ensures Moved(cfg, n, OnAcceptReply(cfg, n, m))
    decreases 2, 2
  {
    if VotesPass(cfg, n, m) {
      var p := VotesPassed(cfg, n, m);
      VotesPassedMoves(cfg, n, p, m.rejected);
    } else {
      VotesPending(cfg, n, m, OnAcceptReply(cfg, n, m));
      OnlyProposerMoves(cfg, n, OnAcceptReply(cfg, n, m));
    }
  }

  lemma NewChosenMoves(cfg: Config, n: Node, m: Msg)
    requires LocalInv(n) && m.NewChosen? && m.pid >= 1
    ensures Moved(cfg, n, OnNewChosen(cfg, n, m))
  {
  }

  lemma SendLearnedMoves(cfg: Config, n: Node, m: Msg)
    requires LocalInv(n) && m.SendLearned?
    ensures Moved(cfg, n, OnSendLearned(cfg, n, m))
  {
  }

  lemma TalkMoves(cfg: Config, n: Node, n': Node)
    requires LocalInv(n) && Talks(n, n')
    ensures Moved(cfg, n, n')
  {
  }

  lemma AskingMoves(cfg: Config, n: Node, m: Msg)
    requires LocalInv(n) && Rank(m) == 0 && !m.SendLearned?
    ensures Moved(cfg, n, Dispatch(cfg, n, m))
  {
    var n' := Dispatch(cfg, n, m);
    AskingTalks(cfg, n, m, n');
    TalkMoves(cfg, n, n');
  }

  /** Only messages were added and learner flags set. */
  ghost predicate Talks(n: Node, n': Node) {
    && n.out <= n'.out && n' == n.(out := n'.out, lrn := n'.lrn)
    && (forall x :: x in n'.out && x !in n.out ==> Rank(x) == 0)
    && n'.lrn.inst == n.lrn.inst && n'.lrn.learned == n.lrn.learned && n'.lrn.value == n.lrn.value
  }

  lemma SendNowTalks(cfg: Config, n: Node, m: Msg)
    requires m.SendNow?
    ensures Talks(n, OnSendNow(cfg, n, m))
  {
  }

  lemma AskingTalks(cfg: Config, n: Node, m: Msg, n': Node)
    requires Rank(m) == 0 && !m.SendLearned? && n' == Dispatch(cfg, n, m)
    ensures Talks(n, n')
  {
    if m.SendNow? {
      SendNowTalks(cfg, n, m);
    } else if m.ConfirmAsk? {
      BatchIsLearned(cfg.me, m.src, n.log, m.inst, n.lrn.inst);
    }
  }

  lemma {:induction false} BatchIsLearned(me: nat, dst: nat, log: map<nat, Record>, from: nat, end: nat)
    ensures forall x :: x in Batch(me, dst, log, from, end) ==> x.SendLearned?
    decreases end - from
  {
    if from < end && from in log {
      BatchIsLearned(me, dst, log, from + 1, end);
    }
  }

  lemma DispatchMoves(cfg: Config, n: Node, m: Msg)
    requires LocalInv(n) && Plausible(m)
    ensures Moved(cfg, n, Dispatch(cfg, n, m))
    decreases Rank(m), 3
  {
    match m
    case Prepare(_, _, _) => PrepareMoves(cfg, n, m);
    case Accept(_, _, _, _) => AcceptMoves(cfg, n, m);
    case PrepareReply(_, _, _, _, _, _, _) => PrepareReplyMoves(cfg, n, m);
    case AcceptReply(_, _, _, _, _) => AcceptReplyMoves(cfg, n, m);
    case NewChosen(_, _, _) => NewChosenMoves(cfg, n, m);
    case SendLearned(_, _, _, _, _, _) => SendLearnedMoves(cfg, n, m);
    case _ => AskingMoves(cfg, n, m);
  }

  /** However deep the nested calls go, a handled message advances at most one instance, executes
      one value per instance advanced, and settles the waiting proposal at most once. */
  lemma MessageMoves(cfg: Config, n: Node, m: Msg)
    requires LocalInv(n) && Plausible(m)
    ensures Moved(cfg, n, OnPaxosMessage(cfg, n, m))
    decreases Rank(m), 4
  {
    if !n.lrn.receiving {
      DispatchMoves(cfg, n, m);
      var d := Dispatch(cfg, n, m);
      CheckLearnMoves(cfg, d);
      MovedThenMoved(cfg, n, d, CheckLearn(cfg, d));
    }
  }

  /** A waiting proposal is told of a machine error exactly if a machine refused the value learned for
      the instance; whatever else it is told, a value was executed. */
  lemma ErrorIffRefused(cfg: Config, n: Node, m: Msg)
    requires LocalInv(n) && Plausible(m) && n.proposing && !n.lrn.receiving
    ensures var r := OnPaxosMessage(cfg, n, m);
      && (r.done == n.done + [MachineError] <==> Refused(cfg, r))
      && (r.done == n.done || r.done == n.done + [MachineError] <==> r.executed == n.executed)
  {
    MessageMoves(cfg, n, m);
    var r := OnPaxosMessage(cfg, n, m);
    assert r == CheckLearn(cfg, Dispatch(cfg, n, m));
    assert r.lrn.learned ==> Refused(cfg, r) && !r.proposing;
    assert |r.done| > |n.done| ==> r.done == n.done + [r.done[|n.done|]];
  }

  /** Starting a proposal makes it wait; everything else is as for a message. */
  lemma ProposeMoves(cfg: Config, n: Node, v: Value)
    requires LocalInv(n) && !n.proposing && cfg.me in cfg.members
    ensures Moved(cfg, n.(proposing := true, timer := true, proposal := v), OnPropose(cfg, n, v))
  {
    var n0 := n.(proposing := true, timer := true, proposal := v);
    var n1 := n0.(prop := n0.prop.(value := v));
    assert Moved(cfg, n0, n1);
    if n1.prop.skip && !n1.prop.rejected {
      AcceptPhaseMoves(cfg, n1);
    } else {
      PreparePhaseMoves(cfg, n1, n1.prop.rejected);
    }
    MovedThenMoved(cfg, n0, n1, OnPropose(cfg, n, v));
  }

  lemma RetryMoves(cfg: Config, n: Node)
    requires LocalInv(n) && n.prop.retry.Some?
    ensures Moved(cfg, n, OnRetryTimer(cfg, n))
  {
    var n1 := n.(prop := n.prop.(retry := None));
    assert Moved(cfg, n, n1);
    if n.prop.retry.value == n.prop.inst {
      PreparePhaseMoves(cfg, n1, n1.prop.rejected);
      MovedThenMoved(cfg, n, n1, OnRetryTimer(cfg, n));
    }
  }
}
