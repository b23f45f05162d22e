/** Each part of a handler keeps the invariant, at every level of guards. */
module Preserve {
  import opened Ballots
  import opened Messages
  import opened NodeModel
  import opened Protocol
  import opened Invariant
  import opened Monotone

  // ------------------------------------------------------------ framing

  predicate IsReply(m: Msg) { m.PrepareReply? || m.AcceptReply? }

  ghost predicate NoNewReplies(n: Node, n': Node) {
    n.out <= n'.out && forall m :: m in n'.out && IsReply(m) ==> m in n.out
  }

  ghost predicate NoNewProposals(n: Node, n': Node) {
    n.out <= n'.out && forall m :: m in n'.out && IsProposal(m) ==> m in n.out
  }

  ghost predicate NoNewLearned(n: Node, n': Node) {
    n.out <= n'.out && forall m :: m in n'.out && m.SendLearned? ==> m in n.out
  }

  lemma FrameAcceptor(i: nat, w: World, n: Node, n': Node)
    requires AcceptorInv(i, n) && EchoInv(w, n)
    requires n'.acc == n.acc && n'.inst == n.inst && NoNewReplies(n, n')
    ensures AcceptorInv(i, n') && EchoInv(w, n')
  {
    forall m | m in n'.out && IsVote(m) ensures VoteFact(n', m) { assert VoteFact(n, m); }
    forall m | m in n'.out && IsPromise(m) ensures PromiseFact(n', m) { assert PromiseFact(n, m); }
    forall m | m in n'.out && IsReply(m) ensures RefusalFact(n', m) { assert RefusalFact(n, m); }
  }

  lemma FrameBounds(n: Node, n': Node)
    requires BoundInv(n)
    requires !(n'.prop.preparing && n'.prop.accepting)
    requires n'.prop.pid >= n.prop.pid && n'.inst >= n.inst
    requires n.out <= n'.out
    requires forall m :: m in n'.out && m !in n.out && IsProposal(m) ==> m.pid == n'.prop.pid && m.inst == n.inst
    ensures BoundInv(n')
  {
    forall m | m in n'.out && IsProposal(m) ensures Bounded(n', m) {
      assert m in n.out ==> Bounded(n, m);
    }
  }

  lemma FrameProposals(c: Cluster, w: World, i: nat, n: Node, n': Node)
    requires ProposalInv(c, w, i, n)
    requires n.out <= n'.out && forall m :: m in n'.out && (m.Accept? || m.NewChosen?) ==> m in n.out
    ensures ProposalInv(c, w, i, n')
  {
  }

  lemma SameIssued(i: nat, n: Node, n': Node)
    requires n.out <= n'.out && forall m :: m in n'.out && m.Accept? ==> m in n.out
    ensures forall k: nat, pid: nat :: AcceptIssued(i, n, k, pid) <==> AcceptIssued(i, n', k, pid)
  {
    forall k: nat, pid: nat | AcceptIssued(i, n', k, pid) ensures AcceptIssued(i, n, k, pid) {
      var m :| m in n'.out && m.Accept? && m.src == i && m.inst == k && m.pid == pid;
      assert m in n.out;
    }
  }

  lemma IssuedIsBounded(i: nat, n: Node)
    requires BoundInv(n)
    ensures forall k: nat, pid: nat :: AcceptIssued(i, n, k, pid) ==> pid <= n.prop.pid && k <= n.inst
  {
    forall k: nat, pid: nat | AcceptIssued(i, n, k, pid) ensures pid <= n.prop.pid && k <= n.inst {
      var m :| m in n.out && m.Accept? && m.src == i && m.inst == k && m.pid == pid;
      assert IsProposal(m) && Bounded(n, m);
    }
  }

  /** The proposer kept its round and at most dropped phase flags. */
  predicate Calmer(p: ProposerState, p': ProposerState) {
    && p'.inst == p.inst && p'.pid == p.pid && p'.maxBallot == p.maxBallot && p'.value == p.value
    && p'.counter == p.counter
    && (p'.preparing ==> p.preparing) && (p'.accepting ==> p.accepting) && (p'.skip ==> p.skip)
  }

  lemma FrameSkip(c: Cluster, w: World, i: nat, n: Node, n': Node)
    requires n.prop.skip ==> exists q, k0 :: SkipEvidence(c, w, i, n, q, k0)
    requires n'.prop.skip ==> n.prop.skip
    requires n'.prop.pid == n.prop.pid && n'.inst >= n.inst
    ensures n'.prop.skip ==> exists q, k0 :: SkipEvidence(c, w, i, n', q, k0)
  {
    if n'.prop.skip {
      var q, k0 :| SkipEvidence(c, w, i, n, q, k0);
      assert SkipEvidence(c, w, i, n', q, k0);
    }
  }

  lemma FrameSkipFull(c: Cluster, w: World, i: nat, n: Node, n': Node)
    requires RoundInv(c, w, i, n)
    requires n'.prop.skip ==> n.prop.skip
    requires n'.prop.pid == n.prop.pid && n'.inst >= n.inst
    requires n.out <= n'.out
    ensures n'.prop.skip ==> exists q, k0 ::
      SkipEvidence(c, w, i, n', q, k0) && (k0 == n'.inst ==> AcceptIssued(i, n', n'.inst, n'.prop.pid))
  {
    if n'.prop.skip {
      var q, k0 :| SkipEvidence(c, w, i, n, q, k0) && (k0 == n.inst ==> AcceptIssued(i, n, n.inst, n.prop.pid));
      if AcceptIssued(i, n, n.inst, n.prop.pid) {
        var m :| m in n.out && m.Accept? && m.src == i && m.inst == n.inst && m.pid == n.prop.pid;
        assert m in n'.out;
      }
      assert SkipEvidence(c, w, i, n', q, k0) && (k0 == n'.inst ==> AcceptIssued(i, n', n'.inst, n'.prop.pid));
    }
  }

  lemma FramePromises(c: Cluster, w: World, i: nat, n: Node, n': Node)
    requires PromiseInv(c, w, i, n)
    requires Calmer(n.prop, n'.prop) && n'.inst == n.inst && NoNewProposals(n, n')
    ensures PromiseInv(c, w, i, n')
  {
    FrameSkip(c, w, i, n, n');
    assert IsProposal(Prepare(i, n.inst, n.prop.pid));
  }

  lemma FrameRound(c: Cluster, w: World, i: nat, n: Node, n': Node)
    requires RoundInv(c, w, i, n)
    requires Calmer(n.prop, n'.prop) && n'.inst == n.inst && NoNewProposals(n, n')
    ensures RoundInv(c, w, i, n')
  {
    SameIssued(i, n, n');
    FrameSkipFull(c, w, i, n, n');
    assert IsProposal(Prepare(i, n.inst, n.prop.pid));
  }

  ghost predicate SameRecords(n: Node, n': Node) {
    forall k :: k in n'.log && Final(n', k) ==> k in n.log && n'.log[k] == n.log[k]
  }

  lemma StillTells(n: Node, n': Node)
    requires n.out <= n'.out
    ensures forall f, k, v :: Tells(n, f, k, v) ==> Tells(n', f, k, v)
  {
    forall f, k, v | Tells(n, f, k, v) ensures Tells(n', f, k, v) {
      var m :| m in n.out && m.SendLearned? && m.dst == f && m.inst == k && m.value == v;
      assert m in n'.out;
    }
  }

  lemma FrameLearner(c: Cluster, w: World, n: Node, n': Node)
    requires LearnerInv(c, w, n)
    requires n'.executed == n.executed && n'.inst == n.inst
    requires n'.lrn.learned == n.lrn.learned && n'.lrn.value == n.lrn.value && NoNewLearned(n, n')
    requires SameRecords(n, n')
    ensures LearnerInv(c, w, n')
  {
  }

  lemma FrameLog(n: Node, n': Node)
    requires LogInv(n)
    requires n'.log == n.log && n'.minChosen == n.minChosen && n'.executed == n.executed && n'.inst == n.inst
    requires n'.acc.accepted == n.acc.accepted && n'.acc.value == n.acc.value
    requires n'.lrn.learned == n.lrn.learned && n'.lrn.value == n.lrn.value
    ensures LogInv(n')
  {
  }

  /** The acting node's own invariant, read in the world after its step. */
  lemma Carry(c: Cluster, w: World, i: nat, n': Node, g: Guards)
    requires Inv(c, w, g) && i in w && w[i].out <= n'.out
    ensures var w' := w[i := n'];
      && Grows(w, w')
      && Shape(i, w[i]) && AcceptorInv(i, w[i]) && EchoInv(w', w[i]) && BoundInv(w[i])
      && (g.r1 ==> PromiseInv(c, w', i, w[i]))
      && (g.Full() ==>
            ProposalInv(c, w', i, w[i]) && RoundInv(c, w', i, w[i]) && LearnerInv(c, w', w[i]) && LogInv(w[i]))
  {
    assert NodeInv(c, w, i, g);
    StepGrows(w, i, n');
    NodeStays(c, w, w[i := n'], i, w[i], g);
  }

  /** `n'` differs from `n` only in what the invariant does not speak of. */
  ghost predicate Quiet(i: nat, n: Node, n': Node) {
    && n'.acc == n.acc && Calmer(n.prop, n'.prop)
    && n'.lrn.inst == n.lrn.inst && n'.lrn.learned == n.lrn.learned && n'.lrn.value == n.lrn.value
    && n'.inst == n.inst && n'.log == n.log && n'.minChosen == n.minChosen && n'.executed == n.executed
    && n.out <= n'.out
    && (forall m :: m in n'.out && m !in n.out ==> m.src == i && !IsReply(m) && !IsProposal(m))
  }

  lemma QuietOk(c: Cluster, w: World, i: nat, n': Node, g: Guards)
    requires Inv(c, w, g) && i in w && Quiet(i, w[i], n')
    requires forall m :: g.Full() && m in n'.out && m !in w[i].out && m.SendLearned? ==>
               ChosenUnder(c, w, m.inst, m.value, m.pid)
    ensures Inv(c, w[i := n'], g)
  {
    var n, w' := w[i], w[i := n'];
    Carry(c, w, i, n', g);
    FrameAcceptor(i, w', n, n');
    FrameBounds(n, n');
    if g.r1 { FramePromises(c, w', i, n, n'); }
    if g.Full() {
      FrameProposals(c, w', i, n, n');
      FrameRound(c, w', i, n, n');
      FrameLog(n, n');
      forall m | m in n'.out && m !in n.out && m.SendLearned? ensures ChosenUnder(c, w', m.inst, m.value, m.pid) {
        UnderStays(c, w, w', m.inst, m.value, m.pid);
      }
      StillTells(n, n');
      assert LearnerInv(c, w', n');
    }
    assert NodeInv(c, w', i, g);
    OthersKeep(c, w, i, n', g);
  }

  // ------------------------------------------------------------ acceptor

  lemma SentHasPid(c: Cluster, w: World, m: Msg, g: Guards)
    requires Inv(c, w, g) && Sent(w, m) && IsProposal(m)
    ensures m.pid >= 1
  {
    assert NodeInv(c, w, m.src, g);
    assert Bounded(w[m.src], m);
  }

  lemma PromiseOk(c: Cluster, w: World, i: nat, m: Msg, g: Guards)
    requires Inv(c, w, g) && i in w && (g.Full() ==> !w[i].lrn.learned)
    requires m.Prepare? && Sent(w, m) && m.inst == w[i].acc.inst
    ensures Inv(c, w[i := Promise(Cfg(c, i), w[i], m)], g)
  {
    var n := w[i];
    var n' := Promise(Cfg(c, i), n, m);
    SentHasPid(c, w, m, g);
    Carry(c, w, i, n', g);
    PromiseAcceptor(c, w[i := n'], i, n, n', m);
    AcceptorOnly(c, w, i, n', g);
  }

  lemma PromiseEcho(c: Cluster, w: World, i: nat, n: Node, n': Node, m: Msg)
    requires m.Prepare? && m.pid >= 1 && m.inst == n.acc.inst == n.inst && Sent(w, m)
    requires n' == Promise(Cfg(c, i), n, m) && EchoInv(w, n)
    ensures EchoInv(w, n')
  {
    var r := PromiseReply(Cfg(c, i), n, m);
    assert n'.out == n.out + {r};
    forall x | x in n'.out && x.PrepareReply? ensures EchoPrepare(w, x) {
      assert x in n.out ==> EchoPrepare(w, x);
    }
  }

  lemma PromiseAcceptor(c: Cluster, w: World, i: nat, n: Node, n': Node, m: Msg)
    requires m.Prepare? && m.pid >= 1 && m.inst == n.acc.inst == n.inst && Sent(w, m)
    requires n' == Promise(Cfg(c, i), n, m)
    requires AcceptorInv(i, n) && EchoInv(w, n)
    ensures AcceptorInv(i, n') && EchoInv(w, n')
  {
    var r := PromiseReply(Cfg(c, i), n, m);
    assert n'.out == n.out + {r};
    forall x | x in n'.out && IsVote(x) ensures VoteFact(n', x) {
      assert VoteFact(n, x);
    }
    forall x | x in n'.out && IsPromise(x) ensures PromiseFact(n', x) {
      assert x in n.out ==> PromiseFact(n, x);
    }
    forall x | x in n'.out && IsReply(x) ensures RefusalFact(n', x) {
      assert x in n.out ==> RefusalFact(n, x);
    }
    forall p, x | p in n'.out && IsPromise(p) && x in n'.out && IsVote(x) ensures Kept(p, x) {
      assert VoteFact(n, x);
      assert p in n.out ==> Kept(p, x);
    }
    PromiseEcho(c, w, i, n, n', m);
  }

  lemma VoteOk(c: Cluster, w: World, i: nat, m: Msg, g: Guards)
    requires Inv(c, w, g) && i in w && (g.Full() ==> !w[i].lrn.learned)
    requires m.Accept? && Sent(w, m) && m.inst == w[i].acc.inst
    ensures Inv(c, w[i := Vote(Cfg(c, i), w[i], m)], g)
  {
    var n := w[i];
    var n' := Vote(Cfg(c, i), n, m);
    SentHasPid(c, w, m, g);
    Carry(c, w, i, n', g);
    VoteAcceptor(c, w[i := n'], i, n, n', m);
    AcceptorOnly(c, w, i, n', g);
  }

  lemma VoteEcho(c: Cluster, w: World, i: nat, n: Node, n': Node, m: Msg)
    requires m.Accept? && m.pid >= 1 && m.inst == n.acc.inst == n.inst && Sent(w, m)
    requires n' == Vote(Cfg(c, i), n, m) && EchoInv(w, n)
    ensures EchoInv(w, n')
  {
    var r := VoteReply(Cfg(c, i), n, m);
    assert n'.out == n.out + {r};
    assert Proposed(w, m.inst, Ballot(m.pid, m.src), m.value);
    forall x | x in n'.out && x.AcceptReply? ensures EchoVote(w, x) {
      assert x in n.out ==> EchoVote(w, x);
      assert x == r ==> ReplyBallot(x) == Ballot(m.pid, m.src);
    }
  }

  lemma VoteAcceptor(c: Cluster, w: World, i: nat, n: Node, n': Node, m: Msg)
    requires m.Accept? && m.pid >= 1 && m.inst == n.acc.inst == n.inst && Sent(w, m)
    requires n' == Vote(Cfg(c, i), n, m)
    requires AcceptorInv(i, n) && EchoInv(w, n)
    ensures AcceptorInv(i, n') && EchoInv(w, n')
  {
    var r := VoteReply(Cfg(c, i), n, m);
    assert n'.out == n.out + {r};
    forall x | x in n'.out && IsVote(x) ensures VoteFact(n', x) {
      assert x in n.out ==> VoteFact(n, x);
    }
    forall x | x in n'.out && IsPromise(x) ensures PromiseFact(n', x) {
      assert PromiseFact(n, x);
    }
    forall x | x in n'.out && IsReply(x) ensures RefusalFact(n', x) {
      assert x in n.out ==> RefusalFact(n, x);
    }
    forall p, x | p in n'.out && IsPromise(p) && x in n'.out && IsVote(x) ensures Kept(p, x) {
      assert PromiseFact(n, p);
      assert x in n.out ==> Kept(p, x);
    }
    VoteEcho(c, w, i, n, n', m);
  }

  /** An acceptor step stores a record of the current instance and issues one reply. */
  lemma AcceptorOnly(c: Cluster, w: World, i: nat, n': Node, g: Guards)
    requires Inv(c, w, g) && i in w && (g.Full() ==> !w[i].lrn.learned)
    requires n'.prop == w[i].prop && n'.lrn == w[i].lrn && n'.inst == w[i].inst
    requires n'.executed == w[i].executed && n'.minChosen == w[i].minChosen && n'.acc.inst == w[i].acc.inst
    requires (n'.acc.value == w[i].acc.value && n'.acc.accepted == w[i].acc.accepted && n'.log == w[i].log)
             || n'.log == w[i].log[n'.acc.inst := Record(n'.acc.inst, n'.acc.promised, n'.acc.accepted, n'.acc.value)]
    requires w[i].out <= n'.out && forall m :: m in n'.out && m !in w[i].out ==> m.src == i && IsReply(m)
    requires AcceptorInv(i, n') && EchoInv(w[i := n'], n')
    ensures Inv(c, w[i := n'], g)
  {
    var n, w' := w[i], w[i := n'];
    Carry(c, w, i, n', g);
    FrameBounds(n, n');
    if g.r1 { FramePromises(c, w', i, n, n'); }
    if g.Full() {
      FrameProposals(c, w', i, n, n');
      FrameRound(c, w', i, n, n');
      FrameLearner(c, w', n, n');
      assert LogInv(n');
    }
    assert NodeInv(c, w', i, g);
    OthersKeep(c, w, i, n', g);
  }

  // ------------------------------------------------------------ proposer

  /** Only the proposer's round, and nothing the acceptor, learner or log rely on, was touched. */
  ghost predicate OnlyProposer(i: nat, n: Node, n': Node) {
    && n'.acc == n.acc
    && n'.lrn.inst == n.lrn.inst && n'.lrn.learned == n.lrn.learned && n'.lrn.value == n.lrn.value
    && n'.inst == n.inst && n'.log == n.log && n'.minChosen == n.minChosen && n'.executed == n.executed
    && n'.prop.inst == n.prop.inst && n'.prop.pid >= n.prop.pid
    && n.out <= n'.out
    && (forall m :: m in n'.out && m !in n.out ==>
          IsProposal(m) && m.src == i && m.pid == n'.prop.pid && m.inst == n.inst)
    && !(n'.prop.preparing && n'.prop.accepting)
  }

  lemma ProposerOnly(c: Cluster, w: World, i: nat, n': Node, g: Guards)
    requires Inv(c, w, g) && i in w && OnlyProposer(i, w[i], n')
    requires g.r1 ==> PromiseInv(c, w[i := n'], i, n')
    requires g.Full() ==> ProposalInv(c, w[i := n'], i, n') && RoundInv(c, w[i := n'], i, n')
    ensures Inv(c, w[i := n'], g)
  {
    Carry(c, w, i, n', g);
    FrameAcceptor(i, w[i := n'], w[i], n');
    FrameBounds(w[i], n');
    if g.Full() {
      FrameLearner(c, w[i := n'], w[i], n');
      FrameLog(w[i], n');
    }
    assert NodeInv(c, w[i := n'], i, g);
    OthersKeep(c, w, i, n', g);
  }

  /** `n1` is `n` about to start a phase: only the proposer and the driver fields were touched. */
  predicate Ready(n: Node, n1: Node) {
    && n1.acc == n.acc && n1.lrn == n.lrn && n1.inst == n.inst && n1.out == n.out
    && n1.log == n.log && n1.minChosen == n.minChosen && n1.executed == n.executed
    && n1.prop.inst == n.prop.inst && n1.prop.pid == n.prop.pid
  }

  lemma StartPrepareOk(c: Cluster, w: World, i: nat, n1: Node, renew: bool, g: Guards)
    requires Inv(c, w, g) && i in w && Ready(w[i], n1)
    requires g.Full() && AcceptIssued(i, w[i], w[i].prop.inst, w[i].prop.pid) ==> renew
    ensures Inv(c, w[i := StartPrepare(Cfg(c, i), n1, renew)], g)
  {
    var n := w[i];
    var n' := StartPrepare(Cfg(c, i), n1, renew);
    Carry(c, w, i, n', g);
    IssuedIsBounded(i, n);
    SameIssued(i, n, n');
    if g.Full() { FrameProposals(c, w[i := n'], i, n, n'); }
    ProposerOnly(c, w, i, n', g);
  }

  lemma StartAcceptOk(c: Cluster, w: World, i: nat, n1: Node, q: set<nat>, k0: nat, g: Guards)
    requires Inv(c, w, g) && i in w && Ready(w[i], n1)
    requires g.r1 && n1.prop.skip ==>
      && Quorum(c, q) && k0 <= n1.inst
      && forall a :: a in q ==> HasPromised(w, a, k0, Ballot(n1.prop.pid, i), Ballot(n1.prop.pid, i))
    requires g.Full() ==>
      && !AcceptIssued(i, w[i], w[i].prop.inst, w[i].prop.pid)
      && Supported(c, w, n1.inst, Ballot(n1.prop.pid, i), n1.prop.value)
    ensures Inv(c, w[i := StartAccept(Cfg(c, i), n1)], g)
  {
    var n := w[i];
    var n' := StartAccept(Cfg(c, i), n1);
    var w' := w[i := n'];
    var b := Ballot(n1.prop.pid, i);
    Carry(c, w, i, n', g);
    var m := AcceptMsg(Cfg(c, i), n1);
    assert n'.out == n.out + {m} && m.Accept? && m.inst == n.inst;
    assert AcceptIssued(i, n', n.inst, n.prop.pid);
    if g.r1 && n1.prop.skip {
      forall a | a in q ensures HasPromised(w', a, k0, b, b) {
        PromisedStays(w, w', a, k0, b, b);
      }
      assert SkipEvidence(c, w', i, n', q, k0);
    }
    if g.Full() {
      SupportedStays(c, w, w', n.inst, b, n1.prop.value);
      forall x, y | x in n'.out && y in n'.out && x.Accept? && y.Accept? ensures SameIfSameBallot(x, y) {
        assert x in n.out && y in n.out ==> SameIfSameBallot(x, y);
      }
      assert ProposalInv(c, w', i, n');
    }
    ProposerOnly(c, w, i, n', g);
  }

  lemma HigherCap(w: World, a: nat, k: nat, b: Ballot, cap: Ballot, cap': Ballot)
    requires HasPromised(w, a, k, b, cap) && Leq(cap, cap')
    ensures HasPromised(w, a, k, b, cap')
  {
    var pre, v :| Sent(w, PrepareReply(a, b.node, k, b.pid, 0, pre, v)) && Leq(pre, cap);
    assert Leq(pre, cap');
  }

  lemma PrepareReplyFacts(c: Cluster, w: World, m: Msg, g: Guards)
    requires Inv(c, w, g) && m.PrepareReply? && Sent(w, m)
    ensures m.src in c.members && Sent(w, Prepare(m.dst, m.inst, m.pid))
    ensures IsPromise(m) ==>
      && Leq(m.pre, ReplyBallot(m))
      && (m.pre.pid > 0 ==> Proposed(w, m.inst, m.pre, m.value))
      && (m.pre.pid == 0 ==> m.pre == NO_BALLOT)
  {
    assert NodeInv(c, w, m.src, g);
    assert EchoPrepare(w, m);
    assert IsPromise(m) ==> PromiseFact(w[m.src], m);
  }

  lemma CountPromiseOk(c: Cluster, w: World, i: nat, m: Msg, g: Guards)
    requires Inv(c, w, g) && i in w
    requires m.PrepareReply? && Sent(w, m) && m.dst == i
    requires w[i].prop.preparing && m.inst == w[i].prop.inst
    requires g.r1 ==> m.pid == w[i].prop.pid
    ensures Inv(c, w[i := CountPromise(w[i], m)], g)
    ensures g.r1 ==> Prepare(i, m.inst, m.pid) in w[i].out
  {
    var n := w[i];
    var n' := CountPromise(n, m);
    var w' := w[i := n'];
    Carry(c, w, i, n', g);
    if g.r1 {
      PrepareReplyFacts(c, w, m, g);
      FrameSkip(c, w', i, n, n');
      CountPromiseEvidence(c, w', i, n, n', m);
    }
    if g.Full() {
      FrameProposals(c, w', i, n, n');
      SameIssued(i, n, n');
      FrameSkipFull(c, w', i, n, n');
    }
    ProposerOnly(c, w, i, n', g);
  }

  lemma CountPromiseEvidence(c: Cluster, w: World, i: nat, n: Node, n': Node, m: Msg)
    requires PrepareEvidence(c, w, i, n)
    requires m.PrepareReply? && Sent(w, m) && m.dst == i && m.inst == n.inst && m.pid == n.prop.pid
    requires n' == CountPromise(n, m) && m.src in c.members
    requires IsPromise(m) ==> Leq(m.pre, ReplyBallot(m))
    ensures PrepareEvidence(c, w, i, n')
  {
    var b := Ballot(n.prop.pid, i);
    assert Leq(n.prop.maxBallot, n'.prop.maxBallot);
    forall a | a in n'.prop.counter.promisors ensures a in c.members &&
        HasPromised(w, a, n.inst, b, n'.prop.maxBallot) {
      if a in n.prop.counter.promisors {
        HigherCap(w, a, n.inst, b, n.prop.maxBallot, n'.prop.maxBallot);
      } else {
        assert a == m.src && m == PrepareReply(a, b.node, n.inst, b.pid, 0, m.pre, m.value);
        assert Leq(m.pre, n'.prop.maxBallot);
      }
    }
  }

  /** A passed prepare round is a majority of promises. */
  lemma PassPromises(c: Cluster, w: World, i: nat, g: Guards)
    requires Inv(c, w, g) && g.r1 && i in w
    requires w[i].prop.preparing && Prepare(i, w[i].prop.inst, w[i].prop.pid) in w[i].out
    requires Passed(Cfg(c, i), w[i].prop.counter)
    ensures Quorum(c, w[i].prop.counter.promisors)
    ensures forall a :: a in w[i].prop.counter.promisors ==>
              HasPromised(w, a, w[i].inst, Ballot(w[i].prop.pid, i), Ballot(w[i].prop.pid, i))
  {
    var n := w[i];
    var b, cap, q := Ballot(n.prop.pid, i), n.prop.maxBallot, n.prop.counter.promisors;
    assert Shape(i, n) && PromiseInv(c, w, i, n) by { assert NodeInv(c, w, i, g); }
    forall a | a in q ensures HasPromised(w, a, n.inst, b, b) {
      HigherCap(w, a, n.inst, b, cap, b);
    }
  }

  /** A passed prepare round supports the value the proposer now holds. */
  lemma PassSupports(c: Cluster, w: World, i: nat)
    requires Inv(c, w, FULL) && i in w
    requires w[i].prop.preparing && Prepare(i, w[i].prop.inst, w[i].prop.pid) in w[i].out
    requires Passed(Cfg(c, i), w[i].prop.counter)
    ensures !AcceptIssued(i, w[i], w[i].prop.inst, w[i].prop.pid)
    ensures Supported(c, w, w[i].inst, Ballot(w[i].prop.pid, i), w[i].prop.value)
  {
    var n := w[i];
    var b, cap, q := Ballot(n.prop.pid, i), n.prop.maxBallot, n.prop.counter.promisors;
    assert Shape(i, n) && BoundInv(n) && PromiseInv(c, w, i, n) && RoundInv(c, w, i, n) by {
      assert NodeInv(c, w, i, FULL);
    }
    assert Quorum(c, q);
    assert cap != b by {
      assert Accept(i, n.inst, n.prop.pid, n.prop.value) in n.out ==> AcceptIssued(i, n, n.inst, n.prop.pid);
    }
    assert Support(c, w, n.inst, b, n.prop.value, q, n.inst, cap);
  }

  /** A skipped prepare phase is covered by the promises of the earlier instance. */
  lemma SkipSupports(c: Cluster, w: World, i: nat, v: Value)
    requires Inv(c, w, FULL) && i in w && w[i].prop.skip
    requires !AcceptIssued(i, w[i], w[i].prop.inst, w[i].prop.pid)
    ensures Supported(c, w, w[i].inst, Ballot(w[i].prop.pid, i), v)
  {
    var n := w[i];
    var b := Ballot(n.prop.pid, i);
    assert Shape(i, n) && RoundInv(c, w, i, n) by { assert NodeInv(c, w, i, FULL); }
    var q, k0 :| SkipEvidence(c, w, i, n, q, k0) && (k0 == n.inst ==> AcceptIssued(i, n, n.inst, n.prop.pid));
    assert Support(c, w, n.inst, b, v, q, k0, b);
  }

  lemma AcceptReplyFacts(c: Cluster, w: World, m: Msg, g: Guards)
    requires Inv(c, w, g) && m.AcceptReply? && Sent(w, m)
    ensures m.src in c.members
    ensures m.dst in w && AcceptIssued(m.dst, w[m.dst], m.inst, m.pid)
  {
    assert NodeInv(c, w, m.src, g);
    assert EchoVote(w, m);
    var v :| Proposed(w, m.inst, ReplyBallot(m), v);
    assert Accept(m.dst, m.inst, m.pid, v) in w[m.dst].out;
  }

  lemma CountVoteOk(c: Cluster, w: World, i: nat, m: Msg, g: Guards)
    requires Inv(c, w, g) && i in w
    requires m.AcceptReply? && Sent(w, m) && m.dst == i
    requires w[i].prop.accepting && m.inst == w[i].prop.inst
    requires g.r1 ==> m.pid == w[i].prop.pid
    ensures Inv(c, w[i := CountVote(w[i], m)], g)
    ensures AcceptIssued(i, w[i], m.inst, m.pid)
  {
    var n := w[i];
    var n' := CountVote(n, m);
    var w' := w[i := n'];
    Carry(c, w, i, n', g);
    AcceptReplyFacts(c, w, m, g);
    if g.r1 {
      FrameSkip(c, w', i, n, n');
    }
    if g.Full() {
      FrameProposals(c, w', i, n, n');
      SameIssued(i, n, n');
      FrameSkipFull(c, w', i, n, n');
      assert IsVote(m) ==> Voted(w', m.src, n.inst, Ballot(n.prop.pid, i));
    }
    ProposerOnly(c, w, i, n', g);
  }

  lemma StartAnnounceOk(c: Cluster, w: World, i: nat, g: Guards)
    requires Inv(c, w, g) && i in w
    requires w[i].prop.accepting && Passed(Cfg(c, i), w[i].prop.counter)
    requires g.Full() ==> AcceptIssued(i, w[i], w[i].prop.inst, w[i].prop.pid)
    ensures Inv(c, w[i := StartAnnounce(Cfg(c, i), w[i])], g)
    ensures var w' := w[i := StartAnnounce(Cfg(c, i), w[i])];
      g.Full() ==> Settled(c, w', w[i].prop.inst, Ballot(w[i].prop.pid, i))
  {
    var n := w[i];
    var n' := StartAnnounce(Cfg(c, i), n);
    var w' := w[i := n'];
    var b, q := Ballot(n.prop.pid, i), n.prop.counter.promisors;
    Carry(c, w, i, n', g);
    if g.r1 {
      FrameSkip(c, w', i, n, n');
    }
    if g.Full() {
      assert Blocking(c, q) && AllVoted(w', q, n.inst, b);
      assert Quorum(c, q) && Settled(c, w', n.inst, b);
      assert ProposalInv(c, w', i, n');
      SameIssued(i, n, n');
      FrameSkipFull(c, w', i, n, n');
    }
    ProposerOnly(c, w, i, n', g);
  }

  // ------------------------------------------------------------ learner and driver

  lemma FinishLearnOk(c: Cluster, w: World, i: nat, n1: Node, b: Ballot, v: Value, g: Guards)
    requires Inv(c, w, g) && i in w
    requires n1 == w[i].(log := n1.log, byLearner := n1.byLearner)
    requires g.Full() ==> LogInv(n1.(lrn := n1.lrn.(learned := true, value := v)))
    requires g.Full() ==> ChosenUnder(c, w, w[i].inst, v, b.pid) && n1.log[w[i].inst].accepted.pid == b.pid
    requires g.Full() ==> n1.log - {w[i].inst} == w[i].log - {w[i].inst}
    ensures Inv(c, w[i := FinishLearn(Cfg(c, i), n1, b, v)], g)
  {
    var n := w[i];
    var n' := FinishLearn(Cfg(c, i), n1, b, v);
    var w' := w[i := n'];
    Carry(c, w, i, n', g);
    FrameAcceptor(i, w', n, n');
    FrameBounds(n, n');
    if g.r1 { FramePromises(c, w', i, n, n'); }
    if g.Full() {
      FrameProposals(c, w', i, n, n');
      FrameRound(c, w', i, n, n');
      UnderStays(c, w, w', n.inst, v, b.pid);
      FinishLearnTells(c, w', i, n, n1, b, v);
      FrameLog(n1.(lrn := n1.lrn.(learned := true, value := v)), n');
    }
    assert NodeInv(c, w', i, g);
    OthersKeep(c, w, i, n', g);
  }

  lemma FinishLearnTells(c: Cluster, w: World, i: nat, n: Node, n1: Node, b: Ballot, v: Value)
    requires LearnerInv(c, w, n) && Shape(i, n) && n1 == n.(log := n1.log, byLearner := n1.byLearner)
    requires n.inst in n1.log && n1.log[n.inst].value == v && n1.log[n.inst].accepted.pid == b.pid
    requires n1.log - {n.inst} == n.log - {n.inst} && ChosenUnder(c, w, n.inst, v, b.pid)
    ensures LearnerInv(c, w, FinishLearn(Cfg(c, i), n1, b, v))
  {
    var n' := FinishLearn(Cfg(c, i), n1, b, v);
    StillTells(n, n');
    forall f | f in c.followers ensures Tells(n', f, n.inst, v) {
      assert SendLearned(i, f, n.inst, b.pid, b.node, v) in n'.out;
    }
    forall k | k in n'.log && Final(n', k) && k != n.inst ensures k in n.log && n'.log[k] == n.log[k] {
      assert k in n1.log - {n.inst};
      assert (n1.log - {n.inst})[k] == (n.log - {n.inst})[k];
    }
  }

  lemma NewChosenOk(c: Cluster, w: World, i: nat, m: Msg, g: Guards)
    requires Inv(c, w, g) && i in w && m.NewChosen?
    requires g.Full() ==> !w[i].lrn.learned
    requires g.Full() && m.inst == w[i].inst && Ballot(m.pid, m.src) == w[i].acc.accepted ==>
               Settled(c, w, m.inst, Ballot(m.pid, m.src))
    ensures Inv(c, w[i := OnNewChosen(Cfg(c, i), w[i], m)], g)
  {
    var n := w[i];
    if m.inst == n.lrn.inst && Ballot(m.pid, m.src) == n.acc.accepted {
      assert Shape(i, n) && EchoInv(w, n) && (g.Full() ==> LogInv(n)) by { assert NodeInv(c, w, i, g); }
      if g.Full() {
        DecidedHasPid(c, w, m.inst, n.acc.accepted);
        assert ChosenUnder(c, w, n.inst, n.acc.value, n.acc.accepted.pid);
      }
      FinishLearnOk(c, w, i, n, n.acc.accepted, n.acc.value, g);
    } else {
      assert w[i := n] == w;
    }
  }

  lemma StoredIsKept(n: Node, n1: Node, m: Msg)
    requires m.SendLearned? && n1 == StoreLearned(n, m) && m.inst == n.inst && LogInv(n) && n.inst >= 1
    ensures LogInv(n1.(lrn := n1.lrn.(learned := true, value := m.value)))
    ensures n1.log[n.inst].accepted.pid == m.pid && n1.log - {n.inst} == n.log - {n.inst}
  {
  }

  lemma SendLearnedOk(c: Cluster, w: World, i: nat, m: Msg, g: Guards)
    requires Inv(c, w, g) && i in w && m.SendLearned?
    requires g.Full() ==> !w[i].lrn.learned && ChosenUnder(c, w, m.inst, m.value, m.pid)
    ensures Inv(c, w[i := OnSendLearned(Cfg(c, i), w[i], m)], g)
  {
    var n := w[i];
    if m.inst == n.lrn.inst {
      assert Shape(i, n) && (g.Full() ==> LogInv(n)) by { assert NodeInv(c, w, i, g); }
      var n1 := StoreLearned(n, m);
      if g.Full() { StoredIsKept(n, n1, m); }
      FinishLearnOk(c, w, i, n1, Ballot(m.pid, m.src), m.value, g);
    } else {
      assert w[i := n] == w;
    }
  }

  /** Executing the learned value and moving to the next instance. */
  lemma AdvanceFull(c: Cluster, w: World, i: nat, n: Node, n': Node)
    requires i in w && n.lrn.learned && n' == CheckLearn(Cfg(c, i), n) && c.exec(n.inst, n.lrn.value)
    requires Shape(i, n) && BoundInv(n)
    requires ProposalInv(c, w, i, n) && RoundInv(c, w, i, n) && LearnerInv(c, w, n) && LogInv(n)
    ensures ProposalInv(c, w, i, n') && RoundInv(c, w, i, n') && LearnerInv(c, w, n') && LogInv(n')
  {
    FrameProposals(c, w, i, n, n');
    AdvanceRound(c, w, i, n, n');
    AdvanceLearner(c, w, n, n');
    AdvanceLog(n, n');
  }

  lemma AdvanceOk(c: Cluster, w: World, i: nat, n': Node, g: Guards)
    requires Inv(c, w, g) && i in w && w[i].lrn.learned && c.exec(w[i].inst, w[i].lrn.value)
    requires n' == CheckLearn(Cfg(c, i), w[i])
    ensures Inv(c, w[i := n'], g)
  {
    var n := w[i];
    var w' := w[i := n'];
    Carry(c, w, i, n', g);
    AdvanceAcceptor(w', i, n, n');
    FrameBounds(n, n');
    if g.r1 {
      AdvancePromises(c, w', i, n, n');
    }
    if g.Full() {
      AdvanceFull(c, w', i, n, n');
    }
    assert NodeInv(c, w', i, g);
    OthersKeep(c, w, i, n', g);
  }

  lemma CheckLearnOk(c: Cluster, w: World, i: nat, g: Guards)
    requires Inv(c, w, g) && i in w
    ensures Inv(c, w[i := CheckLearn(Cfg(c, i), w[i])], g)
    ensures g.Full() ==> !CheckLearn(Cfg(c, i), w[i]).lrn.learned
  {
    var n := w[i];
    var n' := CheckLearn(Cfg(c, i), n);
    var w' := w[i := n'];
    if !n.lrn.learned {
      assert w' == w;
    } else if !c.exec(n.inst, n.lrn.value) {
      QuietOk(c, w, i, n', g);
    } else {
      AdvanceOk(c, w, i, n', g);
    }
  }

  lemma AdvanceAcceptor(w: World, i: nat, n: Node, n': Node)
    requires AcceptorInv(i, n) && EchoInv(w, n)
    requires n'.inst == n.inst + 1 && n'.out == n.out
    requires n'.acc == n.acc.(inst := n.acc.inst + 1, accepted := NO_BALLOT, value := NO_VALUE)
    ensures AcceptorInv(i, n') && EchoInv(w, n')
  {
    forall m | m in n'.out && IsVote(m) ensures VoteFact(n', m) { assert VoteFact(n, m); }
    forall m | m in n'.out && IsPromise(m) ensures PromiseFact(n', m) { assert PromiseFact(n, m); }
    forall m | m in n'.out && IsReply(m) ensures RefusalFact(n', m) { assert RefusalFact(n, m); }
  }

  lemma AdvancePromises(c: Cluster, w: World, i: nat, n: Node, n': Node)
    requires BoundInv(n) && PromiseInv(c, w, i, n)
    requires n'.inst == n.inst + 1 && n'.out == n.out && n'.prop == n.prop.(inst := n.prop.inst + 1)
    ensures PromiseInv(c, w, i, n')
  {
    FrameSkip(c, w, i, n, n');
    assert Prepare(i, n'.inst, n'.prop.pid) !in n'.out by {
      assert IsProposal(Prepare(i, n'.inst, n'.prop.pid)) && !Bounded(n, Prepare(i, n'.inst, n'.prop.pid));
    }
  }

  lemma AdvanceLearner(c: Cluster, w: World, n: Node, n': Node)
    requires LearnerInv(c, w, n) && n.lrn.learned && n.inst >= 1
    requires n'.inst == n.inst + 1 && n'.out == n.out && n'.executed == n.executed + [n.lrn.value] && !n'.lrn.learned
    requires n'.log == n.log
    ensures LearnerInv(c, w, n')
  {
    StillTells(n, n');
    forall f, j | f in c.followers && 0 <= j < |n'.executed| ensures Tells(n', f, j + 1, n'.executed[j]) {
      assert j < |n.executed| ==> Tells(n, f, j + 1, n.executed[j]);
    }
    assert forall k :: Final(n', k) <==> Final(n, k);
  }

  lemma AdvanceLog(n: Node, n': Node)
    requires LogInv(n) && n.lrn.learned && n.inst >= 1
    requires n'.inst == n.inst + 1 && n'.executed == n.executed + [n.lrn.value] && !n'.lrn.learned
    requires n'.log == n.log && n'.minChosen == n.minChosen && n'.acc.accepted == NO_BALLOT
    ensures LogInv(n')
  {
  }

  lemma AdvanceRound(c: Cluster, w: World, i: nat, n: Node, n': Node)
    requires BoundInv(n) && RoundInv(c, w, i, n)
    requires n'.inst == n.inst + 1 && n'.out == n.out && n'.prop == n.prop.(inst := n.prop.inst + 1)
    ensures RoundInv(c, w, i, n')
  {
    FrameSkipFull(c, w, i, n, n');
    assert Prepare(i, n'.inst, n'.prop.pid) !in n'.out by {
      assert IsProposal(Prepare(i, n'.inst, n'.prop.pid)) && !Bounded(n, Prepare(i, n'.inst, n'.prop.pid));
    }
    IssuedIsBounded(i, n);
    SameIssued(i, n, n');
  }

  lemma ForgetLog(n: Node, upTo: nat)
    requires LogInv(n) && n.minChosen <= upTo <= n.inst && (n.lrn.learned || n.acc.accepted.pid > 0 ==> n.inst in n.log)
    ensures LogInv(Forget(n, upTo))
  {
  }

  lemma ForgetFull(c: Cluster, w: World, i: nat, n: Node, n': Node, upTo: nat)
    requires i in w && n.minChosen <= upTo <= n.inst && n' == Forget(n, upTo)
    requires ProposalInv(c, w, i, n) && RoundInv(c, w, i, n) && LearnerInv(c, w, n) && LogInv(n)
    ensures ProposalInv(c, w, i, n') && RoundInv(c, w, i, n') && LearnerInv(c, w, n') && LogInv(n')
  {
    FrameProposals(c, w, i, n, n');
    FrameRound(c, w, i, n, n');
    FrameLearner(c, w, n, n');
    ForgetLog(n, upTo);
  }

  lemma ForgetOk(c: Cluster, w: World, i: nat, upTo: nat, g: Guards)
    requires Inv(c, w, g) && i in w && w[i].minChosen <= upTo <= w[i].inst
    ensures Inv(c, w[i := Forget(w[i], upTo)], g)
  {
    var n := w[i];
    var n' := Forget(n, upTo);
    var w' := w[i := n'];
    Carry(c, w, i, n', g);
    FrameAcceptor(i, w', n, n');
    FrameBounds(n, n');
    if g.r1 { FramePromises(c, w', i, n, n'); }
    if g.Full() {
      ForgetFull(c, w', i, n, n', upTo);
    }
    assert NodeInv(c, w', i, g);
    OthersKeep(c, w, i, n', g);
  }
}
