/** Steps that recur in runs of a group, each with its outcome written out: what a handler run and all
    it sets off in its own node leave behind. */
module Traces {
  import opened Ballots
  import opened Messages
  import opened NodeModel
  import opened Protocol

  /** Between handler runs, with nothing learned and no checkpoint on its way. */
  predicate Quiet(n: Node) {
    && n.acc.inst == n.inst && n.prop.inst == n.inst && n.lrn.inst == n.inst
    && !n.lrn.learned && !n.lrn.receiving
  }

  ghost predicate Ready(c: Cluster, g: Guards, w: World, i: nat) {
    && Reachable(c, g, w) && R5(c) && c.followers == {} && |c.members| >= 2
    && i in c.members && i in w && Quiet(w[i])
  }

  function One(me: nat): CounterState {
    CounterState({me}, {}, {me})
  }

  /** The node has sent PREPARE and promised itself. */
  function Preparing(me: nat, n: Node, v: Value, pid: nat): Node {
    var b := Ballot(pid, me);
    n.(acc := n.acc.(promised := b),
       prop := ProposerState(n.inst, pid, n.prop.maxPid, NO_BALLOT, v, true, false, false, false, One(me),
           Some(n.inst)),
       log := n.log[n.inst := Record(n.inst, b, n.acc.accepted, n.acc.value)], byLearner := n.byLearner - {n.inst},
       out := n.out + {Msg.Prepare(me, n.inst, pid), PrepareReply(me, me, n.inst, pid, 0, NO_BALLOT, NO_VALUE)})
  }

  /** The node has sent ACCEPT and voted for it. */
  function Accepting(me: nat, n: Node, p: ProposerState): Node {
    var b := Ballot(p.pid, me);
    n.(acc := AcceptorState(n.inst, b, b, p.value),
       prop := p.(preparing := false, accepting := true, counter := One(me), retry := Some(n.inst)),
       log := n.log[n.inst := Record(n.inst, b, b, p.value)], byLearner := n.byLearner - {n.inst},
       out := n.out + {Msg.Accept(me, n.inst, p.pid, p.value), AcceptReply(me, me, n.inst, p.pid, 0)})
  }

  /** The node has executed `v` and moved on. */
  predicate Executed(n: Node, v: Value, r: Node) {
    && Quiet(r) && r.inst == n.inst + 1 && !r.proposing
    && r.executed == n.executed + [v]
    && r.acc == AcceptorState(n.inst + 1, n.acc.promised, NO_BALLOT, NO_VALUE)
  }

  lemma PreparePhaseIs(cfg: Config, n: Node, renew: bool, pid: nat)
    requires Quiet(n) && |cfg.members| >= 2 && n.acc.accepted == NO_BALLOT && n.acc.value == NO_VALUE
    requires pid >= 1 && pid == StartPrepare(cfg, n, renew).prop.pid && Leq(n.acc.promised, Ballot(pid, cfg.me))
    ensures PreparePhase(cfg, n, renew) == Preparing(cfg.me, n, n.prop.value, pid)
  {
    var n1 := StartPrepare(cfg, n, renew);
    var m := PrepareMsg(cfg, n1);
    var n2, r := Promise(cfg, n1, m), PromiseReply(cfg, n1, m);
    var k := NoteRejection(CountPromise(n2, r), 0);
    assert k.prop.counter == One(cfg.me) && |{cfg.me}| == 1;
    assert OnPrepareReply(cfg, n2, r) == k;
    assert OnPaxosMessage(cfg, n2, r) == k;
    assert OnPrepare(cfg, n1, m) == k;
    assert OnPaxosMessage(cfg, n1, m) == k;
    assert k.out == Preparing(cfg.me, n, n.prop.value, pid).out;
  }

  lemma AcceptPhaseIs(cfg: Config, n: Node)
    requires Quiet(n) && |cfg.members| >= 2 && n.prop.pid >= 1 && Leq(n.acc.promised, Ballot(n.prop.pid, cfg.me))
    ensures AcceptPhase(cfg, n) == Accepting(cfg.me, n, n.prop)
  {
    var n1, m := StartAccept(cfg, n), AcceptMsg(cfg, n);
    var n2, r := Vote(cfg, n1, m), VoteReply(cfg, n1, m);
    var k := NoteRejection(CountVote(n2, r), 0);
    assert k.prop.counter == One(cfg.me) && |{cfg.me}| == 1;
    assert OnAcceptReply(cfg, n2, r) == k;
    assert OnPaxosMessage(cfg, n2, r) == k;
    assert OnAccept(cfg, n1, m) == k;
    assert OnPaxosMessage(cfg, n1, m) == k;
    assert k.out == Accepting(cfg.me, n, n.prop).out;
  }

  lemma AnnouncePhaseIs(cfg: Config, n: Node)
    requires Quiet(n) && n.acc.accepted == Ballot(n.prop.pid, cfg.me) && cfg.followers == {} &&
        cfg.exec(n.inst, n.acc.value)
    ensures var r := AnnouncePhase(cfg, n);
      && Executed(n, n.acc.value, r) && r.log == n.log
      && r.prop == n.prop.(inst := n.inst + 1, accepting := false, retry := None)
      && r.out == n.out + {NewChosen(cfg.me, n.inst, n.prop.pid)}
  {
    var n1, m := StartAnnounce(cfg, n), AnnounceMsg(cfg, n);
    assert ToFollowers(cfg, n.lrn.inst, n.acc.accepted, n.acc.value) == {};
    assert OnPaxosMessage(cfg, n1, m) == CheckLearn(cfg, OnNewChosen(cfg, n1, m));
  }

  // ------------------------------------------------------------ proposing

  /** A proposal that has to prepare first. */
  lemma Proposes(c: Cluster, g: Guards, w: World, i: nat, v: Value) returns (w': World)
    requires Ready(c, g, w, i) && !w[i].proposing && (g.r2 ==> R2(i, w[i]))
    requires !w[i].prop.skip && !w[i].prop.rejected && w[i].prop.pid >= 1
    requires w[i].acc.accepted == NO_BALLOT && w[i].acc.value == NO_VALUE
    requires Leq(w[i].acc.promised, Ballot(w[i].prop.pid, i))
    ensures Reachable(c, g, w')
    ensures w' == w[i := Preparing(i, w[i].(proposing := true, timer := true, proposal := v), v, w[i].prop.pid)]
  {
    var n1 := w[i].(proposing := true, timer := true, proposal := v, prop := w[i].prop.(value := v));
    PreparePhaseIs(Cfg(c, i), n1, false, w[i].prop.pid);
    StepIsReachable(c, g, w, Propose(i, v));
    w' := Apply(c, w, Propose(i, v));
  }

  /** A proposal that skips the prepare phase. */
  lemma ProposesAtOnce(c: Cluster, g: Guards, w: World, i: nat, v: Value) returns (w': World)
    requires Ready(c, g, w, i) && !w[i].proposing && (g.r2 ==> R2(i, w[i]))
    requires w[i].prop.skip && !w[i].prop.rejected && w[i].prop.pid >= 1
    requires Leq(w[i].acc.promised, Ballot(w[i].prop.pid, i))
    ensures Reachable(c, g, w')
    ensures w' == w[i := Accepting(i, w[i].(proposing := true, timer := true, proposal := v), w[i].prop.(value := v))]
  {
    var n1 := w[i].(proposing := true, timer := true, proposal := v, prop := w[i].prop.(value := v));
    AcceptPhaseIs(Cfg(c, i), n1);
    StepIsReachable(c, g, w, Propose(i, v));
    w' := Apply(c, w, Propose(i, v));
  }

  /** A retry after a rejection takes the next id. */
  lemma Retries(c: Cluster, g: Guards, w: World, i: nat) returns (w': World)
    requires Ready(c, g, w, i) && w[i].prop.retry == Some(w[i].inst) && w[i].prop.rejected
    requires w[i].acc.accepted == NO_BALLOT && w[i].acc.value == NO_VALUE
    requires w[i].acc.promised.pid <= w[i].prop.pid && w[i].prop.maxPid <= w[i].prop.pid
    ensures Reachable(c, g, w') && w' == w[i := Preparing(i, w[i], w[i].prop.value, w[i].prop.pid + 1)]
  {
    var n1 := w[i].(prop := w[i].prop.(retry := None));
    PreparePhaseIs(Cfg(c, i), n1, true, w[i].prop.pid + 1);
    StepIsReachable(c, g, w, RetryTimer(i));
    w' := Apply(c, w, RetryTimer(i));
  }

  // ------------------------------------------------------------ answering

  /** A request from another node for the acceptor's own instance. */
  lemma Answers(c: Cluster, g: Guards, w: World, i: nat, m: Msg) returns (w': World)
    requires Ready(c, g, w, i) && (m.Prepare? || m.Accept?) && m.src != i && Sent(w, m) && m.inst == w[i].inst
    ensures Reachable(c, g, w')
    ensures m.Prepare? ==> w' == w[i := Promise(Cfg(c, i), w[i], m)]
    ensures m.Accept? ==> w' == w[i := Vote(Cfg(c, i), w[i], m)]
  {
    var cfg := Cfg(c, i);
    assert m.Prepare? ==> OnPrepare(cfg, w[i], m) == Promise(cfg, w[i], m);
    assert m.Accept? ==> OnAccept(cfg, w[i], m) == Vote(cfg, w[i], m);
    assert OnPaxosMessage(cfg, w[i], m) == CheckLearn(cfg, Dispatch(cfg, w[i], m));
    StepIsReachable(c, g, w, Deliver(i, m));
    w' := Apply(c, w, Deliver(i, m));
  }

  // ------------------------------------------------------------ counting

  /** A reply that leaves the round open. */
  lemma Counts(c: Cluster, g: Guards, w: World, i: nat, m: Msg) returns (w': World)
    requires Ready(c, g, w, i) && m.src != i && Sent(w, m) && (g.r1 ==> R1(w[i], m))
    requires (m.PrepareReply? && w[i].prop.preparing) || (m.AcceptReply? && w[i].prop.accepting)
    requires m.dst == i && m.inst == w[i].inst
    requires var k := Received(w[i].prop.counter, m.src, m.rejected);
      !Passed(Cfg(c, i), k) && !Failed(Cfg(c, i), k)
    ensures Reachable(c, g, w')
    ensures m.PrepareReply? ==> w' == w[i := NoteRejection(CountPromise(w[i], m), m.rejected)]
    ensures m.AcceptReply? ==> w' == w[i := NoteRejection(CountVote(w[i], m), m.rejected)]
  {
    var cfg := Cfg(c, i);
    assert m.PrepareReply? ==> OnPrepareReply(cfg, w[i], m) == NoteRejection(CountPromise(w[i], m), m.rejected);
    assert m.AcceptReply? ==> OnAcceptReply(cfg, w[i], m) == NoteRejection(CountVote(w[i], m), m.rejected);
    assert OnPaxosMessage(cfg, w[i], m) == CheckLearn(cfg, Dispatch(cfg, w[i], m));
    StepIsReachable(c, g, w, Deliver(i, m));
    w' := Apply(c, w, Deliver(i, m));
  }

  /** The promise that completes the round: ACCEPT goes out. */
  lemma CompletesPromises(c: Cluster, g: Guards, w: World, i: nat, m: Msg) returns (w': World)
    requires Ready(c, g, w, i) && m.src != i && Sent(w, m) && (g.r1 ==> R1(w[i], m))
    requires m.PrepareReply? && m.rejected == 0 && m.pre == NO_BALLOT && w[i].prop.preparing
    requires m.dst == i && m.inst == w[i].inst && w[i].prop.pid >= 1 && !w[i].prop.rejected
    requires Leq(w[i].acc.promised, Ballot(w[i].prop.pid, i))
    requires Passed(Cfg(c, i), Received(w[i].prop.counter, m.src, 0))
    ensures Reachable(c, g, w') && w' == w[i := Accepting(i, w[i], w[i].prop.(skip := true))]
  {
    var cfg := Cfg(c, i);
    var k := CountPromise(w[i], m);
    var k1 := k.(prop := k.prop.(preparing := false, skip := true, retry := None));
    AcceptPhaseIs(cfg, k1);
    assert OnPrepareReply(cfg, w[i], m) == NoteRejection(AcceptPhase(cfg, k1), 0);
    assert OnPaxosMessage(cfg, w[i], m) == Accepting(i, w[i], w[i].prop.(skip := true));
    StepIsReachable(c, g, w, Deliver(i, m));
    w' := Apply(c, w, Deliver(i, m));
  }

  /** The vote that completes the round: the value is announced, learned and executed. */
  lemma CompletesVotes(c: Cluster, g: Guards, w: World, i: nat, m: Msg) returns (w': World)
    requires Ready(c, g, w, i) && m.src != i && Sent(w, m) && (g.r1 ==> R1(w[i], m))
    requires m.AcceptReply? && m.rejected == 0 && w[i].prop.accepting && m.dst == i && m.inst == w[i].inst
    requires w[i].prop.pid >= 1 && w[i].acc.accepted == Ballot(w[i].prop.pid, i)
    requires Passed(Cfg(c, i), Received(w[i].prop.counter, m.src, 0))
    ensures Reachable(c, g, w') && w'.Keys == w.Keys && forall j :: j in w && j != i ==> w'[j] == w[j]
    ensures Executed(w[i], w[i].acc.value, w'[i]) && w'[i].log == w[i].log
    ensures w'[i].prop.skip == w[i].prop.skip && w'[i].prop.pid == w[i].prop.pid
    ensures w'[i].out == w[i].out + {NewChosen(i, w[i].inst, w[i].prop.pid)}
  {
    var cfg := Cfg(c, i);
    var k := CountVote(w[i], m);
    AnnouncePhaseIs(cfg, k);
    assert OnAcceptReply(cfg, w[i], m) == NoteRejection(AnnouncePhase(cfg, k), 0);
    assert OnPaxosMessage(cfg, w[i], m) == NoteRejection(AnnouncePhase(cfg, k), 0);
    StepIsReachable(c, g, w, Deliver(i, m));
    w' := Apply(c, w, Deliver(i, m));
  }

  // ------------------------------------------------------------ learning

  /** The announcement of the accepted ballot, or without R3 a message for the next instance that
      stands in for it. */
  lemma Learns(c: Cluster, g: Guards, w: World, i: nat, m: Msg) returns (w': World)
    requires Ready(c, g, w, i) && m.src != i && Sent(w, m) && (m.NewChosen? || m.Accept?)
    requires m.inst == if m.NewChosen? then w[i].inst else w[i].inst + 1
    requires m.Accept? ==> !g.r3
    requires w[i].acc.accepted == Ballot(m.pid, m.src)
    ensures Reachable(c, g, w') && w'.Keys == w.Keys && forall j :: j in w && j != i ==> w'[j] == w[j]
    ensures Executed(w[i], w[i].acc.value, w'[i])
  {
    var cfg := Cfg(c, i);
    var x := NewChosen(m.src, w[i].inst, m.pid);
    assert ToFollowers(cfg, w[i].lrn.inst, w[i].acc.accepted, w[i].acc.value) == {};
    assert OnPaxosMessage(cfg, w[i], x) == CheckLearn(cfg, OnNewChosen(cfg, w[i], x));
    var r := CheckLearn(cfg, OnNewChosen(cfg, w[i], x));
    assert m.Accept? ==> OnAccept(cfg, w[i], m) == r;
    assert OnPaxosMessage(cfg, w[i], m) == r;
    StepIsReachable(c, g, w, Deliver(i, m));
    w' := Apply(c, w, Deliver(i, m));
  }

  // ------------------------------------------------------------ a first round

  /** The acceptor has promised ballot (1, `src`) and nothing else changed. */
  predicate Promised(me: nat, n: Node, src: nat, r: Node) {
    && Quiet(r) && r.inst == n.inst && r.executed == n.executed && r.prop == n.prop && r.proposing == n.proposing
    && r.acc == n.acc.(promised := Ballot(1, src))
    && r.out == n.out + {PrepareReply(me, src, n.inst, 1, 0, NO_BALLOT, NO_VALUE)}
  }

  /** An untouched node proposes under its first ballot, and another promises it. */
  lemma Asks(c: Cluster, g: Guards, w: World, i: nat, j: nat, v: Value) returns (w': World)
    requires Ready(c, g, w, i) && Ready(c, g, w, j) && i != j && w[i] == FRESH
    requires w[j].inst == 1 && w[j].acc.accepted == NO_BALLOT && Leq(w[j].acc.promised, Ballot(1, i))
    ensures Reachable(c, g, w') && w'.Keys == w.Keys && forall k :: k in w && k != i && k != j ==> w'[k] == w[k]
    ensures w'[i] == Preparing(i, FRESH.(proposing := true, timer := true, proposal := v), v, 1)
    ensures Promised(j, w[j], i, w'[j])
  {
    w' := Proposes(c, g, w, i, v);
    w' := Answers(c, g, w', j, Msg.Prepare(i, 1, 1));
  }

  predicate Open(w: World, j: nat, i: nat) {
    && j in w && Quiet(w[j]) && w[j].inst == 1 && w[j].executed == []
    && w[j].acc.accepted == NO_BALLOT && w[j].acc.value == NO_VALUE && Leq(w[j].acc.promised, Ballot(1, i))
  }

  predicate HasAsked(n: Node, i: nat, v: Value) {
    && Quiet(n) && n.inst == 1 && n.executed == [] && n.acc == AcceptorState(1, Ballot(1, i), Ballot(1, i), v)
    && n.prop == ProposerState(1, 1, 0, NO_BALLOT, v, false, true, true, false, One(i), Some(1))
    && Msg.Accept(i, 1, 1, v) in n.out && (forall m :: m in n.out && m.Accept? ==> m.inst == 1)
    && n.log == map[1 := Record(1, Ballot(1, i), Ballot(1, i), v)]
  }

  /** In a group of five an untouched node gets two promises and sends ACCEPT. */
  lemma GetsMajority(c: Cluster, g: Guards, w: World, i: nat, j: nat, k: nat, v: Value) returns (w': World)
    requires Ready(c, g, w, i) && Ready(c, g, w, j) && Ready(c, g, w, k) && |c.members| == 5 && w[i] == FRESH
    requires Open(w, j, i) && Open(w, k, i) && i != j && j != k && i != k
    ensures Reachable(c, g, w') && w'.Keys == w.Keys
    ensures forall x :: x in w && x != i && x != j && x != k ==> w'[x] == w[x]
    ensures HasAsked(w'[i], i, v) && Promised(j, w[j], i, w'[j]) && Promised(k, w[k], i, w'[k])
  {
    w' := Asks(c, g, w, i, j, v);
    w' := Answers(c, g, w', k, Msg.Prepare(i, 1, 1));
    assert {i} + {j} == {i, j} && |{i, j}| == 2;
    w' := Counts(c, g, w', i, PrepareReply(j, i, 1, 1, 0, NO_BALLOT, NO_VALUE));
    w' := LastPromise(c, g, w', i, j, k, v);
  }

  lemma LastPromise(c: Cluster, g: Guards, w: World, i: nat, j: nat, k: nat, v: Value) returns (w': World)
    requires Ready(c, g, w, i) && k in w && |c.members| == 5 && i != j && j != k && i != k
    requires var n := Preparing(i, FRESH.(proposing := true, timer := true, proposal := v), v, 1);
      w[i] == n.(prop := n.prop.(counter := CounterState({i, j}, {}, {i, j})))
    requires PrepareReply(k, i, 1, 1, 0, NO_BALLOT, NO_VALUE) in w[k].out
    ensures Reachable(c, g, w') && w'.Keys == w.Keys && forall x :: x in w && x != i ==> w'[x] == w[x]
    ensures HasAsked(w'[i], i, v)
  {
    assert {i, j} + {k} == {i, j, k} && |{i, j, k}| == 3;
    w' := CompletesPromises(c, g, w, i, PrepareReply(k, i, 1, 1, 0, NO_BALLOT, NO_VALUE));
  }
}
