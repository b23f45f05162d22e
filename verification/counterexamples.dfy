/** Two nodes that keep R1 and R3 but reuse a ballot after a timeout execute different values. */
module WithoutR2 {
  import opened Ballots
  import opened Messages
  import opened NodeModel
  import opened Protocol
  import opened Traces

  const GROUP := Cluster({1, 2}, {}, (k: nat, v: Value) => true)
  const GUARDS := Guards(true, false, true)

  const ALPHA := Value(1, 0, "alpha")
  const BETA := Value(2, 0, "beta")

  /** Node 1 asks for ALPHA, gives up, and asks for BETA under the same ballot. */
  lemma SameBallotTwice() returns (w: World)
    ensures Reachable(GROUP, GUARDS, w) && w.Keys == {1, 2}
    ensures Quiet(w[1]) && w[1].executed == [] && w[1].prop.accepting && w[1].prop.pid == 1
    ensures w[1].acc == AcceptorState(1, Ballot(1, 1), Ballot(1, 1), BETA) && w[1].prop.counter == One(1)
    ensures Msg.Accept(1, 1, 1, ALPHA) in w[1].out
    ensures Quiet(w[2]) && w[2].executed == [] && w[2].acc == AcceptorState(1, Ballot(1, 1), NO_BALLOT, NO_VALUE)
  {
    w := Start(GROUP);
    StartIsReachable(GROUP, GUARDS);
    w := Asks(GROUP, GUARDS, w, 1, 2, ALPHA);
    assert {1} + {2} == {1, 2};
    w := CompletesPromises(GROUP, GUARDS, w, 1, PrepareReply(2, 1, 1, 1, 0, NO_BALLOT, NO_VALUE));
    StepIsReachable(GROUP, GUARDS, w, ProposeTimeout(1));
    w := Apply(GROUP, w, ProposeTimeout(1));
    w := ProposesAtOnce(GROUP, GUARDS, w, 1, BETA);
  }

  /** A reachable state in which two nodes executed different values first. */
  lemma Disagree() returns (w: World)
    ensures R5(GROUP) && Reachable(GROUP, GUARDS, w) && 1 in w && 2 in w
    ensures |w[1].executed| > 0 && |w[2].executed| > 0 && w[1].executed[0] != w[2].executed[0]
  {
    w := SameBallotTwice();
    w := Answers(GROUP, GUARDS, w, 2, Msg.Accept(1, 1, 1, ALPHA));
    assert {1} + {2} == {1, 2};
    w := CompletesVotes(GROUP, GUARDS, w, 1, AcceptReply(2, 1, 1, 1, 0));
    w := Learns(GROUP, GUARDS, w, 2, NewChosen(1, 1, 1));
  }
}

/** Three nodes that keep R2 and R3 but count a promise of an earlier ballot execute different values. */
module WithoutR1 {
  import opened Ballots
  import opened Messages
  import opened NodeModel
  import opened Protocol
  import opened Traces

  const GROUP := Cluster({1, 2, 3}, {}, (k: nat, v: Value) => true)
  const GUARDS := Guards(false, true, true)

  const ALPHA := Value(1, 0, "alpha")
  const BETA := Value(2, 0, "beta")

  /** Nodes 1 and 3 prepare, and node 2 promises both. */
  lemma BothAsk(g: Guards) returns (w: World)
    ensures Reachable(GROUP, g, w) && w.Keys == {1, 2, 3}
    ensures w[1] == Preparing(1, FRESH.(proposing := true, timer := true, proposal := ALPHA), ALPHA, 1)
    ensures w[3] == Preparing(3, FRESH.(proposing := true, timer := true, proposal := BETA), BETA, 1)
    ensures Quiet(w[2]) && w[2].executed == [] && w[2].acc == AcceptorState(1, Ballot(1, 3), NO_BALLOT, NO_VALUE)
    ensures PrepareReply(2, 1, 1, 1, 0, NO_BALLOT, NO_VALUE) in w[2].out
    ensures PrepareReply(2, 3, 1, 1, 0, NO_BALLOT, NO_VALUE) in w[2].out
  {
    w := Start(GROUP);
    StartIsReachable(GROUP, g);
    w := Asks(GROUP, g, w, 1, 2, ALPHA);
    w := Asks(GROUP, g, w, 3, 2, BETA);
  }

  /** Node 3 refuses node 1. */
  lemma ThirdRefuses(g: Guards) returns (w: World)
    ensures Reachable(GROUP, g, w) && w.Keys == {1, 2, 3}
    ensures w[1] == Preparing(1, FRESH.(proposing := true, timer := true, proposal := ALPHA), ALPHA, 1)
    ensures Quiet(w[2]) && w[2].executed == [] && w[2].acc == AcceptorState(1, Ballot(1, 3), NO_BALLOT, NO_VALUE)
    ensures PrepareReply(2, 1, 1, 1, 0, NO_BALLOT, NO_VALUE) in w[2].out
    ensures PrepareReply(2, 3, 1, 1, 0, NO_BALLOT, NO_VALUE) in w[2].out
    ensures Quiet(w[3]) && w[3].executed == [] && w[3].acc == AcceptorState(1, Ballot(1, 3), NO_BALLOT, NO_VALUE)
    ensures w[3].prop == ProposerState(1, 1, 0, NO_BALLOT, BETA, true, false, false, false, One(3), Some(1))
    ensures w[3].log.Keys == {1} && PrepareReply(3, 1, 1, 1, 1, NO_BALLOT, NO_VALUE) in w[3].out
  {
    w := BothAsk(g);
    w := Answers(GROUP, g, w, 3, Msg.Prepare(1, 1, 1));
  }

  /** Node 1 counts the refusal. */
  lemma FirstIsRefused(g: Guards) returns (w: World)
    ensures Reachable(GROUP, g, w) && w.Keys == {1, 2, 3}
    ensures Quiet(w[1]) && w[1].executed == [] && w[1].acc == AcceptorState(1, Ballot(1, 1), NO_BALLOT, NO_VALUE)
    ensures w[1].prop == ProposerState(1, 1, 1, NO_BALLOT, ALPHA, true, false, false, true,
                                       CounterState({1, 3}, {3}, {1}), Some(1))
    ensures Quiet(w[2]) && w[2].executed == [] && w[2].acc == AcceptorState(1, Ballot(1, 3), NO_BALLOT, NO_VALUE)
    ensures PrepareReply(2, 1, 1, 1, 0, NO_BALLOT, NO_VALUE) in w[2].out
    ensures PrepareReply(2, 3, 1, 1, 0, NO_BALLOT, NO_VALUE) in w[2].out
    ensures Quiet(w[3]) && w[3].executed == [] && w[3].acc == AcceptorState(1, Ballot(1, 3), NO_BALLOT, NO_VALUE)
    ensures w[3].prop == ProposerState(1, 1, 0, NO_BALLOT, BETA, true, false, false, false, One(3), Some(1))
    ensures w[1].log.Keys == {1} && w[3].log.Keys == {1}
  {
    w := ThirdRefuses(g);
    assert {1} + {3} == {1, 3} && {} + {3} == {3};
    w := Counts(GROUP, g, w, 1, PrepareReply(3, 1, 1, 1, 1, NO_BALLOT, NO_VALUE));
  }

  /** Node 3 asks for BETA and node 2 votes for it. */
  lemma ThirdAsks(g: Guards) returns (w: World)
    ensures Reachable(GROUP, g, w) && w.Keys == {1, 2, 3}
    ensures w[1].acc == AcceptorState(1, Ballot(1, 1), NO_BALLOT, NO_VALUE) && Quiet(w[1]) && w[1].executed == []
    ensures w[1].prop == ProposerState(1, 1, 1, NO_BALLOT, ALPHA, true, false, false, true,
                                       CounterState({1, 3}, {3}, {1}), Some(1))
    ensures Quiet(w[2]) && w[2].inst == 1 && w[2].acc.promised == Ballot(1, 3) && AcceptReply(2, 3, 1, 1, 0) in w[2].out
    ensures PrepareReply(2, 1, 1, 1, 0, NO_BALLOT, NO_VALUE) in w[2].out
    ensures w[3].acc == AcceptorState(1, Ballot(1, 3), Ballot(1, 3), BETA) && Quiet(w[3]) && w[3].executed == []
    ensures w[3].prop.accepting && w[3].prop.pid == 1 && w[3].prop.counter == One(3)
    ensures 1 in w[3].log && w[3].log[1] == Record(1, Ballot(1, 3), Ballot(1, 3), BETA) && w[1].log.Keys == {1}
  {
    w := FirstIsRefused(g);
    assert {3} + {2} == {2, 3};
    w := CompletesPromises(GROUP, g, w, 3, PrepareReply(2, 3, 1, 1, 0, NO_BALLOT, NO_VALUE));
    w := Answers(GROUP, g, w, 2, Msg.Accept(3, 1, 1, BETA));
  }

  /** Node 3 gets BETA decided, and node 1 prepares again under a higher id. */
  lemma ThirdDecides(g: Guards) returns (w: World)
    ensures Reachable(GROUP, g, w) && w.Keys == {1, 2, 3}
    ensures w[1].acc == AcceptorState(1, Ballot(2, 1), NO_BALLOT, NO_VALUE) && Quiet(w[1]) && w[1].executed == []
    ensures w[1].prop == ProposerState(1, 2, 1, NO_BALLOT, ALPHA, true, false, false, false, One(1), Some(1))
    ensures Quiet(w[2]) && w[2].inst == 1 && w[2].acc.promised == Ballot(1, 3)
    ensures PrepareReply(2, 1, 1, 1, 0, NO_BALLOT, NO_VALUE) in w[2].out
    ensures Quiet(w[3]) && w[3].inst == 2 && w[3].executed == [BETA]
    ensures 1 in w[3].log && w[3].log[1] == Record(1, Ballot(1, 3), Ballot(1, 3), BETA) && w[1].log.Keys == {1}
  {
    w := ThirdAsks(g);
    assert {3} + {2} == {2, 3};
    w := CompletesVotes(GROUP, g, w, 3, AcceptReply(2, 3, 1, 1, 0));
    w := Retries(GROUP, g, w, 1);
  }

  /** Node 1 counts the promise of its old ballot under its new one. */
  lemma Disagree() returns (w: World)
    ensures R5(GROUP) && Reachable(GROUP, GUARDS, w) && 1 in w && 3 in w
    ensures |w[1].executed| > 0 && |w[3].executed| > 0 && w[1].executed[0] != w[3].executed[0]
  {
    w := ThirdDecides(GUARDS);
    assert {1} + {2} == {1, 2};
    w := CompletesPromises(GROUP, GUARDS, w, 1, PrepareReply(2, 1, 1, 1, 0, NO_BALLOT, NO_VALUE));
    w := Answers(GROUP, GUARDS, w, 2, Msg.Accept(1, 1, 2, ALPHA));
    w := CompletesVotes(GROUP, GUARDS, w, 1, AcceptReply(2, 1, 1, 2, 0));
  }
}

/** Five nodes that keep R1 and R2 but take a message for the next instance as a decision execute
    different values. */
module WithoutR3 {
  import opened Ballots
  import opened Messages
  import opened NodeModel
  import opened Protocol
  import opened Traces

  const GROUP := Cluster({1, 2, 3, 4, 5}, {}, (k: nat, v: Value) => true)
  const GUARDS := Guards(true, true, false)

  const ALPHA := Value(1, 0, "alpha")
  const BETA := Value(2, 0, "beta")
  const GAMMA := Value(3, 0, "gamma")

  predicate Voter(n: Node, i: nat, v: Value) {
    Quiet(n) && n.executed == [] && n.acc == AcceptorState(1, Ballot(1, i), Ballot(1, i), v)
  }

  /** Node 1 asks for ALPHA. */
  lemma FirstRound() returns (w: World)
    ensures Reachable(GROUP, GUARDS, w) && w.Keys == {1, 2, 3, 4, 5} && |w.Keys| == 5
    ensures HasAsked(w[1], 1, ALPHA) && Open(w, 2, 1) && Open(w, 3, 5) && w[4] == FRESH && w[5] == FRESH
  {
    w := Start(GROUP);
    StartIsReachable(GROUP, GUARDS);
    w := GetsMajority(GROUP, GUARDS, w, 1, 2, 3, ALPHA);
  }

  /** Only node 2 votes for ALPHA, and node 5 asks for BETA. */
  lemma SecondRound() returns (w: World)
    ensures Reachable(GROUP, GUARDS, w) && w.Keys == {1, 2, 3, 4, 5} && |w.Keys| == 5
    ensures HasAsked(w[1], 1, ALPHA) && Voter(w[2], 1, ALPHA) && HasAsked(w[5], 5, BETA)
    ensures Open(w, 3, 5) && Open(w, 4, 5)
  {
    w := FirstRound();
    w := Answers(GROUP, GUARDS, w, 2, Msg.Accept(1, 1, 1, ALPHA));
    w := GetsMajority(GROUP, GUARDS, w, 5, 3, 4, BETA);
  }

  /** Nodes 3 and 4 vote for BETA. */
  lemma BetaHasVotes() returns (w: World)
    ensures Reachable(GROUP, GUARDS, w) && w.Keys == {1, 2, 3, 4, 5} && |w.Keys| == 5
    ensures HasAsked(w[1], 1, ALPHA) && Voter(w[2], 1, ALPHA) && HasAsked(w[5], 5, BETA)
    ensures AcceptReply(3, 5, 1, 1, 0) in w[3].out && AcceptReply(4, 5, 1, 1, 0) in w[4].out
  {
    w := SecondRound();
    w := Answers(GROUP, GUARDS, w, 3, Msg.Accept(5, 1, 1, BETA));
    w := Answers(GROUP, GUARDS, w, 4, Msg.Accept(5, 1, 1, BETA));
  }

  /** Node 5 gets BETA decided. */
  lemma FifthDecides() returns (w: World)
    ensures Reachable(GROUP, GUARDS, w) && w.Keys == {1, 2, 3, 4, 5}
    ensures HasAsked(w[1], 1, ALPHA) && Voter(w[2], 1, ALPHA)
    ensures Quiet(w[5]) && w[5].inst == 2 && w[5].log == map[1 := Record(1, Ballot(1, 5), Ballot(1, 5), BETA)]
  {
    w := BetaHasVotes();
    assert {5} + {3} == {3, 5} && {3, 5} + {4} == {3, 4, 5};
    w := Counts(GROUP, GUARDS, w, 5, AcceptReply(3, 5, 1, 1, 0));
    w := CompletesVotes(GROUP, GUARDS, w, 5, AcceptReply(4, 5, 1, 1, 0));
  }

  /** Node 1 asks what it missed, and node 5 tells. */
  lemma FifthTells() returns (w: World)
    ensures Reachable(GROUP, GUARDS, w) && w.Keys == {1, 2, 3, 4, 5}
    ensures HasAsked(w[1], 1, ALPHA) && Voter(w[2], 1, ALPHA) && SendLearned(5, 1, 1, 1, 5, BETA) in w[5].out
  {
    w := FifthDecides();
    StepIsReachable(GROUP, GUARDS, w, Sync(1));
    w := Apply(GROUP, w, Sync(1));
    StepIsReachable(GROUP, GUARDS, w, Deliver(5, Msg.AskForLearn(1, 1)));
    w := Apply(GROUP, w, Deliver(5, Msg.AskForLearn(1, 1)));
  }

  /** Node 1 learns BETA from node 5 and goes on under its old ballot. */
  lemma FirstCatchesUp() returns (w: World)
    ensures Reachable(GROUP, GUARDS, w) && w.Keys == {1, 2, 3, 4, 5} && Voter(w[2], 1, ALPHA)
    ensures Quiet(w[1]) && w[1].inst == 2 && w[1].executed == [BETA] && !w[1].proposing
    ensures w[1].acc == AcceptorState(2, Ballot(1, 1), NO_BALLOT, NO_VALUE)
    ensures w[1].prop.skip && !w[1].prop.rejected && w[1].prop.pid == 1
    ensures forall m :: m in w[1].out && m.Accept? ==> m.inst == 1
  {
    w := FifthTells();
    StepIsReachable(GROUP, GUARDS, w, Deliver(1, SendLearned(5, 1, 1, 1, 5, BETA)));
    w := Apply(GROUP, w, Deliver(1, SendLearned(5, 1, 1, 1, 5, BETA)));
  }

  /** Node 2 takes the ACCEPT of the next instance for the decision of ALPHA. */
  lemma Disagree() returns (w: World)
    ensures R5(GROUP) && Reachable(GROUP, GUARDS, w) && 1 in w && 2 in w
    ensures |w[1].executed| > 0 && |w[2].executed| > 0 && w[1].executed[0] != w[2].executed[0]
  {
    w := FirstCatchesUp();
    w := ProposesAtOnce(GROUP, GUARDS, w, 1, GAMMA);
    w := Learns(GROUP, GUARDS, w, 2, Msg.Accept(1, 2, 1, GAMMA));
  }
}

/** A run that respects every rule and ends with a node whose restart would lower its promise. */
module LoweredPromise {
  import opened Ballots
  import opened Messages
  import opened Protocol
  import opened Restart
  import WithoutR1

  /** Node 1 has promised (2, 1) and then learns the value decided under (1, 3). */
  lemma RestartLowersPromise() returns (w: World)
    ensures Reachable(WithoutR1.GROUP, FULL, w) && 1 in w
    ensures Less(Recover(w[1].log, 0).acc.promised, w[1].acc.promised)
  {
    var c := WithoutR1.GROUP;
    w := WithoutR1.ThirdDecides(FULL);
    StepIsReachable(c, FULL, w, Sync(1));
    w := Apply(c, w, Sync(1));
    StepIsReachable(c, FULL, w, Deliver(3, Msg.AskForLearn(1, 1)));
    w := Apply(c, w, Deliver(3, Msg.AskForLearn(1, 1)));
    var m := SendLearned(3, 1, 1, 1, 3, WithoutR1.BETA);
    assert m in w[3].out;
    StepIsReachable(c, FULL, w, Deliver(1, m));
    w := Apply(c, w, Deliver(1, m));
    assert w[1].log.Keys == {1} && w[1].log[1].promised == Ballot(1, 3) && LastKey(w[1].log) == 1;
  }
}
