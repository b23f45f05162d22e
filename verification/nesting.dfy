/** Whole handler runs, nested calls included, keep the invariant. */
module Nesting {
  import opened Ballots
  import opened Messages
  import opened NodeModel
  import opened Protocol
  import opened Invariant
  import opened Preserve

  /** What a message must satisfy when it reaches node `i`. */
  ghost predicate Incoming(c: Cluster, w: World, i: nat, m: Msg, g: Guards)
    requires i in w
  {
    match m
    case Prepare(src, k, pid) =>
      && Sent(w, m) && (g.Full() ==> R3(c, w, i, m))
      && (src == i ==> pid == w[i].prop.pid && k == w[i].prop.inst)
    case Accept(src, k, pid, _) =>
      && Sent(w, m) && (g.Full() ==> R3(c, w, i, m))
      && (src == i ==> pid == w[i].prop.pid && k == w[i].prop.inst)
    case PrepareReply(_, dst, _, _, _, _, _) => Sent(w, m) && dst == i && (!g.r1 || R1(w[i], m))
    case AcceptReply(_, dst, _, _, _) => Sent(w, m) && dst == i && (!g.r1 || R1(w[i], m))
    case NewChosen(src, k, pid) =>
      g.Full() && k == w[i].inst && Ballot(pid, src) == w[i].acc.accepted ==>
        Settled(c, w, k, Ballot(pid, src))
    case SendLearned(_, _, k, pid, _, v) => g.Full() ==> ChosenUnder(c, w, k, v, pid)
    case _ => true
  }

  /** The invariant as it stands between handler calls: nothing learned is left unprocessed. */
  ghost predicate Steady(c: Cluster, w: World, i: nat, g: Guards) {
    Inv(c, w, g) && i in w && (g.Full() ==> !w[i].lrn.learned)
  }

  lemma RequestIsBounded(c: Cluster, w: World, m: Msg, g: Guards)
    requires Inv(c, w, g) && Sent(w, m) && IsProposal(m)
    ensures m.inst <= w[m.src].inst
  {
    assert BoundInv(w[m.src]) by { assert NodeInv(c, w, m.src, g); }
    assert Bounded(w[m.src], m);
  }

  lemma FinishedHasMajority(c: Cluster, w: World, i: nat, k: nat)
    requires Inv(c, w, FULL) && i in w && 1 <= k < w[i].inst
    ensures HasMajority(c, w, k)
  {
    assert LearnerInv(c, w, w[i]) by { assert NodeInv(c, w, i, FULL); }
    assert Chosen(c, w, (k - 1) + 1, w[i].executed[k - 1]);
  }

  lemma PrepareOk(c: Cluster, w: World, i: nat, m: Msg, g: Guards)
    requires Steady(c, w, i, g) && m.Prepare? && Incoming(c, w, i, m, g)
    ensures Inv(c, w[i := OnPrepare(Cfg(c, i), w[i], m)], g)
    decreases 5, 2
  {
    var cfg, n := Cfg(c, i), w[i];
    assert Shape(i, n) by { assert NodeInv(c, w, i, g); }
    assert m.inst <= w[m.src].inst by { RequestIsBounded(c, w, m, g); }
    if m.inst == n.acc.inst {
      PromiseOk(c, w, i, m, g);
      if m.src == i {
        var w1 := w[i := Promise(cfg, n, m)];
        MessageOk(c, w1, i, PromiseReply(cfg, n, m), g);
        assert w1[i := OnPrepare(cfg, n, m)] == w[i := OnPrepare(cfg, n, m)];
      }
    } else if m.inst == n.acc.inst + 1 {
      if g.Full() { FinishedHasMajority(c, w, m.src, n.inst); }
      MessageOk(c, w, i, NewChosen(m.src, n.acc.inst, m.pid), g);
    } else {
      assert w[i := n] == w;
    }
  }

  lemma AcceptOk(c: Cluster, w: World, i: nat, m: Msg, g: Guards)
    requires Steady(c, w, i, g) && m.Accept? && Incoming(c, w, i, m, g)
    ensures Inv(c, w[i := OnAccept(Cfg(c, i), w[i], m)], g)
    decreases 3, 2
  {
    var cfg, n := Cfg(c, i), w[i];
    assert Shape(i, n) by { assert NodeInv(c, w, i, g); }
    assert m.inst <= w[m.src].inst by { RequestIsBounded(c, w, m, g); }
    if m.inst == n.acc.inst {
      VoteOk(c, w, i, m, g);
      if m.src == i {
        var w1 := w[i := Vote(cfg, n, m)];
        MessageOk(c, w1, i, VoteReply(cfg, n, m), g);
        assert w1[i := OnAccept(cfg, n, m)] == w[i := OnAccept(cfg, n, m)];
      }
    } else if m.inst == n.acc.inst + 1 {
      if g.Full() { FinishedHasMajority(c, w, m.src, n.inst); }
      MessageOk(c, w, i, NewChosen(m.src, n.acc.inst, m.pid), g);
    } else {
      assert w[i := n] == w;
    }
  }

  lemma AcceptPhaseOk(c: Cluster, w: World, i: nat, n1: Node, q: set<nat>, k0: nat, g: Guards)
    requires Steady(c, w, i, g) && Ready(w[i], n1)
    requires g.r1 && n1.prop.skip ==>
      && Quorum(c, q) && k0 <= n1.inst
      && forall a :: a in q ==> HasPromised(w, a, k0, Ballot(n1.prop.pid, i), Ballot(n1.prop.pid, i))
    requires g.Full() ==>
      && !AcceptIssued(i, w[i], w[i].prop.inst, w[i].prop.pid)
      && Supported(c, w, n1.inst, Ballot(n1.prop.pid, i), n1.prop.value)
    ensures Steady(c, w[i := AcceptPhase(Cfg(c, i), n1)], i, g)
    decreases 3, 5
  {
    var cfg := Cfg(c, i);
    assert Shape(i, w[i]) by { assert NodeInv(c, w, i, g); }
    StartAcceptOk(c, w, i, n1, q, k0, g);
    var w1 := w[i := StartAccept(cfg, n1)];
    MessageOk(c, w1, i, AcceptMsg(cfg, n1), g);
    assert w1[i := AcceptPhase(cfg, n1)] == w[i := AcceptPhase(cfg, n1)];
  }

  lemma NoteOk(c: Cluster, w: World, i: nat, n1: Node, rejected: nat, g: Guards)
    requires i in w && Inv(c, w[i := n1], g)
    ensures Inv(c, w[i := NoteRejection(n1, rejected)], g)
  {
    var w1 := w[i := n1];
    QuietOk(c, w1, i, NoteRejection(n1, rejected), g);
    assert w1[i := NoteRejection(n1, rejected)] == w[i := NoteRejection(n1, rejected)];
  }

  lemma PrepareReplyOk(c: Cluster, w: World, i: nat, m: Msg, g: Guards)
    requires Steady(c, w, i, g) && m.PrepareReply? && Incoming(c, w, i, m, g)
    ensures Inv(c, w[i := OnPrepareReply(Cfg(c, i), w[i], m)], g)
    decreases 4, 2
  {
    var cfg, n := Cfg(c, i), w[i];
    assert Shape(i, n) by { assert NodeInv(c, w, i, g); }
    var n1 := n;
    if n.prop.preparing && m.inst == n.prop.inst {
      CountPromiseOk(c, w, i, m, g);
      var k := CountPromise(n, m);
      var w1 := w[i := k];
      if Passed(cfg, k.prop.counter) {
        if g.r1 { PassPromises(c, w1, i, g); }
        if g.Full() { PassSupports(c, w1, i); }
        var k1 := k.(prop := k.prop.(preparing := false, skip := true, retry := None));
        AcceptPhaseOk(c, w1, i, k1, k.prop.counter.promisors, k.inst, g);
        n1 := AcceptPhase(cfg, k1);
        assert w1[i := n1] == w[i := n1];
      } else if Failed(cfg, k.prop.counter) {
        n1 := k.(prop := k.prop.(preparing := false, retry := Some(k.prop.inst)));
        QuietOk(c, w1, i, n1, g);
        assert w1[i := n1] == w[i := n1];
      } else {
        n1 := k;
      }
    } else {
      assert w[i := n] == w;
    }
    NoteOk(c, w, i, n1, m.rejected, g);
  }

  lemma AcceptReplyOk(c: Cluster, w: World, i: nat, m: Msg, g: Guards)
    requires Steady(c, w, i, g) && m.AcceptReply? && Incoming(c, w, i, m, g)
    ensures Inv(c, w[i := OnAcceptReply(Cfg(c, i), w[i], m)], g)
    decreases 2, 2
  {
    var cfg, n := Cfg(c, i), w[i];
    assert Shape(i, n) by { assert NodeInv(c, w, i, g); }
    var n1 := n;
    if n.prop.accepting && m.inst == n.prop.inst {
      CountVoteOk(c, w, i, m, g);
      var k := CountVote(n, m);
      var w1 := w[i := k];
      if Passed(cfg, k.prop.counter) {
        StartAnnounceOk(c, w1, i, g);
        var k1 := StartAnnounce(cfg, k);
        var w2 := w1[i := k1];
        MessageOk(c, w2, i, AnnounceMsg(cfg, k), g);
        n1 := AnnouncePhase(cfg, k);
        assert w2[i := n1] == w[i := n1];
      } else if Failed(cfg, k.prop.counter) {
        n1 := k.(prop := k.prop.(accepting := false, retry := Some(k.prop.inst)));
        QuietOk(c, w1, i, n1, g);
        assert w1[i := n1] == w[i := n1];
      } else {
        n1 := k;
      }
    } else {
      assert w[i := n] == w;
    }
    NoteOk(c, w, i, n1, m.rejected, g);
  }

  lemma LearnRequestOk(c: Cluster, w: World, i: nat, m: Msg, g: Guards)
    requires Steady(c, w, i, g) && Rank(m) == 0 && !m.SendLearned?
    ensures Inv(c, w[i := Dispatch(Cfg(c, i), w[i], m)], g)
  {
    var n := w[i];
    var n' := Dispatch(Cfg(c, i), n, m);
    assert Shape(i, n) && (g.Full() ==> LogInv(n) && LearnerInv(c, w, n)) by { assert NodeInv(c, w, i, g); }
    RequestIsAnswered(Cfg(c, i), n, m);
    forall x | g.Full() && x in n'.out && x !in n.out && x.SendLearned?
      ensures ChosenUnder(c, w, x.inst, x.value, x.pid)
    {
      var k :| k in n.log && k < n.inst && Repeats(x, n.log[k]);
      assert Final(n, k);
    }
    QuietOk(c, w, i, n', g);
  }

  predicate Repeats(x: Msg, r: Record)
    requires x.SendLearned?
  {
    x.inst == r.inst && x.value == r.value && x.pid == r.accepted.pid
  }

  /** Answering a learner only repeats stored records of finished instances. */
  ghost predicate Answered(i: nat, n: Node, n': Node) {
    && Quiet(i, n, n')
    && forall x :: x in n'.out && x !in n.out && x.SendLearned? ==>
         exists k :: k in n.log && k < n.inst && Repeats(x, n.log[k])
  }

  lemma AskIsAnswered(cfg: Config, n: Node, m: Msg)
    requires m.AskForLearn? && n.lrn.inst == n.inst
    ensures Answered(cfg.me, n, OnAskForLearn(cfg, n, m))
  {
  }

  lemma ConfirmIsAnswered(cfg: Config, n: Node, m: Msg)
    requires m.ConfirmAsk? && n.lrn.inst == n.inst
    ensures Answered(cfg.me, n, OnConfirmAsk(cfg, n, m))
  {
    BatchContents(cfg.me, m.src, n.log, m.inst, n.lrn.inst);
  }

  lemma RequestIsAnswered(cfg: Config, n: Node, m: Msg)
    requires Rank(m) == 0 && !m.SendLearned? && n.lrn.inst == n.inst
    ensures Answered(cfg.me, n, Dispatch(cfg, n, m))
  {
    match m
    case AskForLearn(_, _) => AskIsAnswered(cfg, n, m);
    case ConfirmAsk(_, _, _) => ConfirmIsAnswered(cfg, n, m);
    case SendNow(_, _, _, _, _) =>
    case AskForCheckpoint(_, _, _) =>
  }

  /** Every message of a batch repeats a record of the log. */
  lemma {:induction false} BatchContents(me: nat, dst: nat, log: map<nat, Record>, from: nat, end: nat)
    ensures forall x :: x in Batch(me, dst, log, from, end) ==>
      exists k :: k in log && from <= k < end && x == LearnedMsg(me, dst, log[k])
    decreases end - from
  {
    if from < end && from in log {
      BatchContents(me, dst, log, from + 1, end);
    }
  }

  lemma DispatchOk(c: Cluster, w: World, i: nat, m: Msg, g: Guards)
    requires Steady(c, w, i, g) && Incoming(c, w, i, m, g)
    ensures Inv(c, w[i := Dispatch(Cfg(c, i), w[i], m)], g)
    decreases Rank(m), 3
  {
    assert Shape(i, w[i]) by { assert NodeInv(c, w, i, g); }
    match m
    case Prepare(_, _, _) => PrepareOk(c, w, i, m, g);
    case Accept(_, _, _, _) => AcceptOk(c, w, i, m, g);
    case PrepareReply(_, _, _, _, _, _, _) => PrepareReplyOk(c, w, i, m, g);
    case AcceptReply(_, _, _, _, _) => AcceptReplyOk(c, w, i, m, g);
    case NewChosen(_, _, _) => NewChosenOk(c, w, i, m, g);
    case SendLearned(_, _, _, _, _, _) => SendLearnedOk(c, w, i, m, g);
    case _ => LearnRequestOk(c, w, i, m, g);
  }

  /** A whole handler run keeps the invariant and leaves nothing unprocessed. */
  lemma MessageOk(c: Cluster, w: World, i: nat, m: Msg, g: Guards)
    requires Steady(c, w, i, g) && Incoming(c, w, i, m, g)
    ensures Steady(c, w[i := OnPaxosMessage(Cfg(c, i), w[i], m)], i, g)
    decreases Rank(m), 4
  {
    var cfg, n := Cfg(c, i), w[i];
    if n.lrn.receiving {
      QuietOk(c, w, i, n.(ignored := n.ignored + {m}), g);
    } else {
      DispatchOk(c, w, i, m, g);
      var w1 := w[i := Dispatch(cfg, n, m)];
      CheckLearnOk(c, w1, i, g);
      assert w1[i := CheckLearn(cfg, w1[i])] == w[i := OnPaxosMessage(cfg, n, m)];
    }
  }
}
