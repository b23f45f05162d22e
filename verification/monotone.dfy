/** Evidence in sent messages is never lost: what a node claims keeps holding while others step. */
module Monotone {
  import opened Ballots
  import opened Messages
  import opened NodeModel
  import opened Protocol
  import opened Invariant

  ghost predicate Grows(w: World, w': World) {
    forall m :: Sent(w, m) ==> Sent(w', m)
  }

  lemma DecidedStays(c: Cluster, w: World, w': World, k: nat, b: Ballot)
    requires Grows(w, w') && Decided(c, w, k, b)
    ensures Decided(c, w', k, b)
  {
    var q :| Blocking(c, q) && AllVoted(w, q, k, b);
    assert AllVoted(w', q, k, b);
  }

  lemma SettledStays(c: Cluster, w: World, w': World, k: nat, b: Ballot)
    requires Grows(w, w') && Settled(c, w, k, b)
    ensures Settled(c, w', k, b)
  {
    DecidedStays(c, w, w', k, b);
    var q, b0 :| Quorum(c, q) && AllVoted(w, q, k, b0);
    assert AllVoted(w', q, k, b0);
  }

  lemma ChosenStays(c: Cluster, w: World, w': World, k: nat, v: Value)
    requires Grows(w, w') && Chosen(c, w, k, v)
    ensures Chosen(c, w', k, v)
  {
    var b :| Settled(c, w, k, b) && Proposed(w, k, b, v);
    SettledStays(c, w, w', k, b);
    assert Proposed(w', k, b, v);
  }

  lemma UnderStays(c: Cluster, w: World, w': World, k: nat, v: Value, pid: nat)
    requires Grows(w, w') && ChosenUnder(c, w, k, v, pid)
    ensures ChosenUnder(c, w', k, v, pid)
  {
    var b: Ballot :| b.pid == pid && Settled(c, w, k, b) && Proposed(w, k, b, v);
    SettledStays(c, w, w', k, b);
    assert Proposed(w', k, b, v);
  }

  lemma PromisedStays(w: World, w': World, a: nat, k: nat, b: Ballot, cap: Ballot)
    requires Grows(w, w') && HasPromised(w, a, k, b, cap)
    ensures HasPromised(w', a, k, b, cap)
  {
    var pre, v :| Sent(w, PrepareReply(a, b.node, k, b.pid, 0, pre, v)) && Leq(pre, cap);
    assert Sent(w', PrepareReply(a, b.node, k, b.pid, 0, pre, v));
  }

  lemma SupportedStays(c: Cluster, w: World, w': World, k: nat, b: Ballot, v: Value)
    requires Grows(w, w') && Supported(c, w, k, b, v)
    ensures Supported(c, w', k, b, v)
  {
    var q, k0, cap :| Support(c, w, k, b, v, q, k0, cap);
    forall a | a in q ensures HasPromised(w', a, k0, b, cap) {
      PromisedStays(w, w', a, k0, b, cap);
    }
    assert Support(c, w', k, b, v, q, k0, cap);
  }

  lemma SkipStays(c: Cluster, w: World, w': World, i: nat, n: Node, q: set<nat>, k0: nat)
    requires Grows(w, w') && SkipEvidence(c, w, i, n, q, k0)
    ensures SkipEvidence(c, w', i, n, q, k0)
  {
    var b := Ballot(n.prop.pid, i);
    forall a | a in q ensures HasPromised(w', a, k0, b, b) {
      PromisedStays(w, w', a, k0, b, b);
    }
  }

  lemma EchoStays(w: World, w': World, n: Node)
    requires Grows(w, w') && EchoInv(w, n)
    ensures EchoInv(w', n)
  {
    forall m | m in n.out && m.AcceptReply? ensures EchoVote(w', m) {
      assert EchoVote(w, m);
      var v :| Proposed(w, m.inst, ReplyBallot(m), v);
      assert Proposed(w', m.inst, ReplyBallot(m), v);
    }
    forall m | m in n.out && m.PrepareReply? ensures EchoPrepare(w', m) {
      assert EchoPrepare(w, m);
    }
  }

  lemma LearnerStays(c: Cluster, w: World, w': World, n: Node)
    requires Grows(w, w') && LearnerInv(c, w, n)
    ensures LearnerInv(c, w', n)
  {
    forall k, v | Chosen(c, w, k, v) ensures Chosen(c, w', k, v) {
      ChosenStays(c, w, w', k, v);
    }
    forall k, v, pid | ChosenUnder(c, w, k, v, pid) ensures ChosenUnder(c, w', k, v, pid) {
      UnderStays(c, w, w', k, v, pid);
    }
  }

  lemma ProposalStays(c: Cluster, w: World, w': World, i: nat, n: Node)
    requires Grows(w, w') && ProposalInv(c, w, i, n)
    ensures ProposalInv(c, w', i, n)
  {
    forall m | m in n.out && m.Accept? ensures Supported(c, w', m.inst, Ballot(m.pid, i), m.value) {
      SupportedStays(c, w, w', m.inst, Ballot(m.pid, i), m.value);
    }
    forall m | m in n.out && m.NewChosen? ensures Settled(c, w', m.inst, Ballot(m.pid, i)) {
      SettledStays(c, w, w', m.inst, Ballot(m.pid, i));
    }
  }

  lemma PromisesStay(c: Cluster, w: World, w': World, i: nat, n: Node)
    requires Grows(w, w') && PromiseInv(c, w, i, n)
    ensures PromiseInv(c, w', i, n)
  {
    forall a, k, b, cap | HasPromised(w, a, k, b, cap) ensures HasPromised(w', a, k, b, cap) {
      PromisedStays(w, w', a, k, b, cap);
    }
    if n.prop.skip {
      var q, k0 :| SkipEvidence(c, w, i, n, q, k0);
      SkipStays(c, w, w', i, n, q, k0);
    }
  }

  lemma RoundStays(c: Cluster, w: World, w': World, i: nat, n: Node)
    requires Grows(w, w') && RoundInv(c, w, i, n)
    ensures RoundInv(c, w', i, n)
  {
    if n.prop.skip {
      var q, k0 :| SkipEvidence(c, w, i, n, q, k0) && (k0 == n.inst ==> AcceptIssued(i, n, n.inst, n.prop.pid));
      SkipStays(c, w, w', i, n, q, k0);
    }
  }

  lemma StepGrows(w: World, i: nat, n: Node)
    requires i in w && w[i].out <= n.out
    ensures Grows(w, w[i := n])
  {
  }

  /** A node's invariant, read in a world where more messages were sent. */
  lemma NodeStays(c: Cluster, w: World, w': World, i: nat, n: Node, g: Guards)
    requires Grows(w, w') && i in w && w[i] == n && NodeInv(c, w, i, g)
    ensures EchoInv(w', n)
    ensures g.r1 ==> PromiseInv(c, w', i, n)
    ensures g.Full() ==> ProposalInv(c, w', i, n) && RoundInv(c, w', i, n) && LearnerInv(c, w', n)
  {
    EchoStays(w, w', n);
    if g.r1 { PromisesStay(c, w, w', i, n); }
    if g.Full() {
      ProposalStays(c, w, w', i, n);
      RoundStays(c, w, w', i, n);
      LearnerStays(c, w, w', n);
    }
  }

  /** A step that only adds messages and keeps the acting node's invariant keeps everyone's. */
  lemma OthersKeep(c: Cluster, w: World, i: nat, n: Node, g: Guards)
    requires Inv(c, w, g) && i in w && w[i].out <= n.out
    requires NodeInv(c, w[i := n], i, g)
    ensures Inv(c, w[i := n], g)
  {
    var w' := w[i := n];
    StepGrows(w, i, n);
    forall j | j in w' && j != i ensures NodeInv(c, w', j, g) {
      assert NodeInv(c, w, j, g);
      NodeStays(c, w, w', j, w[j], g);
    }
  }
}
