/** The invariant of the protocol. What a node claims about others is stated by messages they
    sent, so it stays true while the others move on. */
module Invariant {
  import opened Ballots
  import opened Messages
  import opened NodeModel
  import opened Protocol

  // ------------------------------------------------------------ evidence in sent messages

  predicate Proposed(w: World, k: nat, b: Ballot, v: Value) {
    Sent(w, Accept(b.node, k, b.pid, v))
  }

  /** Some ballot has the votes of a majority in instance `k`. */
  ghost predicate HasMajority(c: Cluster, w: World, k: nat) {
    exists q, b :: Quorum(c, q) && AllVoted(w, q, k, b)
  }

  /** What an announcement of ballot `b` stands for. */
  ghost predicate Settled(c: Cluster, w: World, k: nat, b: Ballot) {
    Decided(c, w, k, b) && HasMajority(c, w, k)
  }

  /** Value `v` was decided in instance `k` under a ballot with id `pid`. */
  ghost predicate ChosenUnder(c: Cluster, w: World, k: nat, v: Value, pid: nat) {
    exists b: Ballot :: b.pid == pid && Settled(c, w, k, b) && Proposed(w, k, b, v)
  }

  /** Value `v` was decided in instance `k`. */
  ghost predicate Chosen(c: Cluster, w: World, k: nat, v: Value) {
    exists b :: Settled(c, w, k, b) && Proposed(w, k, b, v)
  }

  /** Acceptor `a` promised ballot `b` in instance `k`, reporting no vote above `cap`. */
  ghost predicate HasPromised(w: World, a: nat, k: nat, b: Ballot, cap: Ballot) {
    exists pre, v :: Sent(w, PrepareReply(a, b.node, k, b.pid, 0, pre, v)) && Leq(pre, cap)
  }

  /** Why ballot `b` may carry `v` in instance `k`: a majority promised it, in this instance with
      `v` the value of the highest earlier ballot reported, or already in an earlier instance. */
  ghost predicate Support(c: Cluster, w: World, k: nat, b: Ballot, v: Value, q: set<nat>, k0: nat, cap: Ballot) {
    && Quorum(c, q)
    && k0 <= k
    && (forall a :: a in q ==> HasPromised(w, a, k0, b, cap))
    && (k0 == k ==> Less(cap, b) && (cap.pid == 0 || Proposed(w, k, cap, v)))
  }

  ghost predicate Supported(c: Cluster, w: World, k: nat, b: Ballot, v: Value) {
    exists q, k0, cap :: Support(c, w, k, b, v, q, k0, cap)
  }

  // ------------------------------------------------------------ per node

  predicate IsPromise(m: Msg) { m.PrepareReply? && m.rejected == 0 }
  predicate IsVote(m: Msg) { m.AcceptReply? && m.rejected == 0 }

  function ReplyBallot(m: Msg): Ballot
    requires m.PrepareReply? || m.AcceptReply?
  {
    Ballot(m.pid, m.dst)
  }

  ghost predicate Shape(i: nat, n: Node) {
    && n.inst >= 1
    && n.acc.inst == n.inst && n.prop.inst == n.inst && n.lrn.inst == n.inst
    && (forall m :: m in n.out ==> m.src == i)
  }

  ghost predicate VoteFact(n: Node, m: Msg)
    requires m.AcceptReply?
  {
    && m.pid >= 1
    && m.inst <= n.inst
    && Leq(ReplyBallot(m), n.acc.promised)
    && (m.inst == n.inst ==> Leq(ReplyBallot(m), n.acc.accepted))
  }

  ghost predicate PromiseFact(n: Node, m: Msg)
    requires m.PrepareReply?
  {
    && m.pid >= 1
    && m.inst <= n.inst
    && Leq(ReplyBallot(m), n.acc.promised)
    && Leq(m.pre, ReplyBallot(m))
    && (m.pre.pid == 0 ==> m.pre == NO_BALLOT)
  }

  /** A refusal names the promise it was refused for. */
  ghost predicate RefusalFact(n: Node, m: Msg)
    requires m.PrepareReply? || m.AcceptReply?
  {
    m.rejected > 0 ==> m.pid <= m.rejected <= n.acc.promised.pid
  }

  /** Vote `m` respects promise `p` of the same acceptor. */
  ghost predicate Kept(p: Msg, m: Msg)
    requires p.PrepareReply? && m.AcceptReply?
  {
    && (m.inst == p.inst ==> Leq(ReplyBallot(m), p.pre) || Leq(ReplyBallot(p), ReplyBallot(m)))
    && (m.inst > p.inst ==> Leq(ReplyBallot(p), ReplyBallot(m)))
  }

  /** The acceptor keeps its promises, in every instance. */
  ghost predicate AcceptorInv(i: nat, n: Node) {
    && (n.acc.accepted.pid == 0 ==> n.acc.accepted == NO_BALLOT)
    && Leq(n.acc.accepted, n.acc.promised)
    && (n.acc.accepted.pid > 0 ==> AcceptReply(i, n.acc.accepted.node, n.inst, n.acc.accepted.pid, 0) in n.out)
    && (forall m {:trigger VoteFact(n, m)} :: m in n.out && IsVote(m) ==> VoteFact(n, m))
    && (forall m {:trigger PromiseFact(n, m)} :: m in n.out && IsPromise(m) ==> PromiseFact(n, m))
    && (forall m {:trigger RefusalFact(n, m)} :: m in n.out && (m.PrepareReply? || m.AcceptReply?) ==>
          RefusalFact(n, m))
    && (forall p, m {:trigger Kept(p, m)} :: p in n.out && IsPromise(p) && m in n.out && IsVote(m) ==> Kept(p, m))
  }

  ghost predicate EchoVote(w: World, m: Msg)
    requires m.AcceptReply?
  {
    exists v :: Proposed(w, m.inst, ReplyBallot(m), v)
  }

  ghost predicate EchoPrepare(w: World, m: Msg)
    requires m.PrepareReply?
  {
    && Sent(w, Prepare(m.dst, m.inst, m.pid))
    && (IsPromise(m) && m.pre.pid > 0 ==> Proposed(w, m.inst, m.pre, m.value))
  }

  /** What the acceptor answers and holds comes from messages that were sent to it. */
  ghost predicate EchoInv(w: World, n: Node) {
    && (n.acc.accepted.pid > 0 ==> Proposed(w, n.inst, n.acc.accepted, n.acc.value))
    && (forall m {:trigger EchoVote(w, m)} :: m in n.out && m.AcceptReply? ==> EchoVote(w, m))
    && (forall m {:trigger EchoPrepare(w, m)} :: m in n.out && m.PrepareReply? ==> EchoPrepare(w, m))
  }

  predicate IsProposal(m: Msg) { m.Prepare? || m.Accept? || m.NewChosen? }

  predicate Bounded(n: Node, m: Msg)
    requires IsProposal(m)
  {
    1 <= m.pid <= n.prop.pid && m.inst <= n.inst
  }

  predicate SameIfSameBallot(m: Msg, m': Msg)
    requires m.Accept? && m'.Accept?
  {
    m.inst == m'.inst && m.pid == m'.pid ==> m.value == m'.value
  }

  /** Proposal ids start at 1, so id 0 in a reply or a record stands for "none". */
  ghost predicate BoundInv(n: Node) {
    && n.prop.pid >= 1
    && !(n.prop.preparing && n.prop.accepting)
    && (forall m {:trigger Bounded(n, m)} :: m in n.out && IsProposal(m) ==> Bounded(n, m))
  }

  /** Promises counted in the running prepare round. */
  ghost predicate PrepareEvidence(c: Cluster, w: World, i: nat, n: Node) {
    var b := Ballot(n.prop.pid, i);
    && (forall a :: a in n.prop.counter.promisors ==> a in c.members && HasPromised(w, a, n.inst, b, n.prop.maxBallot))
    && Leq(n.prop.maxBallot, b)
  }

  /** The majority behind a skipped prepare phase. */
  ghost predicate SkipEvidence(c: Cluster, w: World, i: nat, n: Node, q: set<nat>, k0: nat) {
    var b := Ballot(n.prop.pid, i);
    && Quorum(c, q)
    && k0 <= n.inst
    && (forall a :: a in q ==> HasPromised(w, a, k0, b, b))
  }

  /** With R1: what the proposer counted are promises of its ballot. */
  ghost predicate PromiseInv(c: Cluster, w: World, i: nat, n: Node) {
    && (n.prop.preparing && Prepare(i, n.inst, n.prop.pid) in n.out ==> PrepareEvidence(c, w, i, n))
    && (n.prop.skip ==> exists q, k0 :: SkipEvidence(c, w, i, n, q, k0))
  }

  /** The proposer issues one ACCEPT per instance and ballot, and only with a majority behind it. */
  ghost predicate ProposalInv(c: Cluster, w: World, i: nat, n: Node) {
    && (forall m, m' {:trigger SameIfSameBallot(m, m')} :: m in n.out && m' in n.out && m.Accept? && m'.Accept?
          ==> SameIfSameBallot(m, m'))
    && (forall m {:trigger Supported(c, w, m.inst, Ballot(m.pid, i), m.value)} :: m in n.out && m.Accept? ==>
          Supported(c, w, m.inst, Ballot(m.pid, i), m.value))
    && (forall m {:trigger Settled(c, w, m.inst, Ballot(m.pid, i))} :: m in n.out && m.NewChosen? ==>
          Settled(c, w, m.inst, Ballot(m.pid, i)))
  }

  ghost predicate AcceptEvidence(c: Cluster, w: World, i: nat, n: Node) {
    forall a :: a in n.prop.counter.promisors ==> a in c.members && Voted(w, a, n.inst, Ballot(n.prop.pid, i))
  }

  /** With R1 and R2: the value held while preparing, the votes counted while accepting, and that
      a prepare phase is skipped only in a later instance or after ACCEPT went out. */
  ghost predicate RoundInv(c: Cluster, w: World, i: nat, n: Node) {
    && (n.prop.preparing ==> !AcceptIssued(i, n, n.inst, n.prop.pid))
    && (n.prop.preparing && Prepare(i, n.inst, n.prop.pid) in n.out ==>
          n.prop.maxBallot.pid == 0 || Proposed(w, n.inst, n.prop.maxBallot, n.prop.value))
    && (n.prop.accepting && AcceptIssued(i, n, n.inst, n.prop.pid) ==> AcceptEvidence(c, w, i, n))
    && (n.prop.skip ==> exists q, k0 ::
          SkipEvidence(c, w, i, n, q, k0) && (k0 == n.inst ==> AcceptIssued(i, n, n.inst, n.prop.pid)))
  }

  predicate Tells(n: Node, f: nat, k: nat, v: Value) {
    exists m :: m in n.out && m.SendLearned? && m.dst == f && m.inst == k && m.value == v
  }

  /** The record of instance `k` is final. */
  predicate Final(n: Node, k: nat) {
    k < n.inst || (n.lrn.learned && k == n.inst)
  }

  /** Everything learned, executed, stored or passed on was decided, and every follower was told. */
  ghost predicate LearnerInv(c: Cluster, w: World, n: Node) {
    && |n.executed| == n.inst - 1
    && (forall j :: 0 <= j < |n.executed| ==> Chosen(c, w, j + 1, n.executed[j]))
    && (n.lrn.learned ==> Chosen(c, w, n.inst, n.lrn.value))
    && (forall m :: m in n.out && m.SendLearned? ==> ChosenUnder(c, w, m.inst, m.value, m.pid))
    && (forall k :: k in n.log && Final(n, k) ==> ChosenUnder(c, w, k, n.log[k].value, n.log[k].accepted.pid))
    && (forall f, j :: f in c.followers && 0 <= j < |n.executed| ==> Tells(n, f, j + 1, n.executed[j]))
    && (forall f :: f in c.followers && n.lrn.learned ==> Tells(n, f, n.inst, n.lrn.value))
  }

  /** Every finished instance not yet cleaned has a record, and it holds the executed value. */
  ghost predicate LogInv(n: Node) {
    && n.minChosen <= n.inst
    && |n.executed| == n.inst - 1
    && (forall k :: k in n.log ==> 1 <= k <= n.inst && n.minChosen <= k && n.log[k].inst == k)
    && (forall k :: 1 <= k < n.inst && k in n.log ==> n.log[k].value == n.executed[k - 1])
    && (forall k :: 1 <= k < n.inst && n.minChosen <= k ==> k in n.log)
    && (n.acc.accepted.pid > 0 && !n.lrn.learned ==>
          n.inst in n.log && n.log[n.inst].value == n.acc.value && n.log[n.inst].accepted == n.acc.accepted)
    && (n.lrn.learned ==> n.inst in n.log && n.log[n.inst].value == n.lrn.value)
  }

  /** What holds at node `i`, given how much the run respects. */
  ghost predicate NodeInv(c: Cluster, w: World, i: nat, g: Guards)
    requires i in w
  {
    && Shape(i, w[i])
    && AcceptorInv(i, w[i])
    && EchoInv(w, w[i])
    && BoundInv(w[i])
    && (g.r1 ==> PromiseInv(c, w, i, w[i]))
    && (g.Full() ==> ProposalInv(c, w, i, w[i]) && RoundInv(c, w, i, w[i]) && LearnerInv(c, w, w[i]) && LogInv(w[i]))
  }

  ghost predicate Inv(c: Cluster, w: World, g: Guards) {
    && w.Keys == c.members
    && (g.Full() ==> R5(c))
    && forall i {:trigger NodeInv(c, w, i, g)} :: i in w ==> NodeInv(c, w, i, g)
  }

  // ------------------------------------------------------------ agreement follows

  lemma SubsetSize(s: set<nat>, t: set<nat>)
    requires s <= t
    ensures |s| <= |t|
  {
    assert t == s + (t - s);
  }

  lemma QuorumsMeet(c: Cluster, q1: set<nat>, q2: set<nat>) returns (a: nat)
    requires Blocking(c, q1) && Quorum(c, q2)
    ensures a in q1 && a in q2
  {
    if q1 * q2 == {} {
      SubsetSize(q1 + q2, c.members);
      assert false;
    }
    a :| a in q1 * q2;
  }

  lemma OneValuePerBallot(c: Cluster, w: World, k: nat, b: Ballot, v: Value, v': Value)
    requires Inv(c, w, FULL)
    requires Proposed(w, k, b, v) && Proposed(w, k, b, v')
    ensures v == v'
  {
    assert NodeInv(c, w, b.node, FULL);
    var m, m' := Accept(b.node, k, b.pid, v), Accept(b.node, k, b.pid, v');
    assert m in w[b.node].out && m' in w[b.node].out;
    assert SameIfSameBallot(m, m');
  }

  /** An acceptor that voted below a ballot it promised had told so when it promised. */
  lemma PromiseIsKept(c: Cluster, w: World, a: nat, k: nat, b: Ballot, k0: nat, b': Ballot, cap: Ballot)
    requires Inv(c, w, FULL) && a in w
    requires Voted(w, a, k, b) && HasPromised(w, a, k0, b', cap)
    requires Less(b, b') && k0 <= k
    ensures k0 == k && Leq(b, cap)
  {
    var pre, pv :| Sent(w, PrepareReply(a, b'.node, k0, b'.pid, 0, pre, pv)) && Leq(pre, cap);
    var p, m := PrepareReply(a, b'.node, k0, b'.pid, 0, pre, pv), AcceptReply(a, b.node, k, b.pid, 0);
    assert AcceptorInv(a, w[a]) by { assert NodeInv(c, w, a, FULL); }
    assert p in w[a].out && IsPromise(p) && m in w[a].out && IsVote(m);
    assert Kept(p, m);
  }

  lemma ProposalIsSupported(c: Cluster, w: World, k: nat, b: Ballot, v: Value)
    requires Inv(c, w, FULL)
    requires Proposed(w, k, b, v)
    ensures Supported(c, w, k, b, v)
  {
    assert NodeInv(c, w, b.node, FULL);
    var m := Accept(b.node, k, b.pid, v);
    assert m in w[b.node].out && Supported(c, w, m.inst, Ballot(m.pid, b.node), m.value);
  }

  lemma DecidedHasPid(c: Cluster, w: World, k: nat, b: Ballot)
    requires Inv(c, w, FULL) && c.members != {} && Decided(c, w, k, b)
    ensures b.pid >= 1
  {
    var q :| Blocking(c, q) && AllVoted(w, q, k, b);
    var a :| a in q;
    assert Voted(w, a, k, b);
    var m := AcceptReply(a, b.node, k, b.pid, 0);
    assert AcceptorInv(a, w[a]) by { assert NodeInv(c, w, a, FULL); }
    assert m in w[a].out && IsVote(m) && VoteFact(w[a], m);
  }

  /** Once a ballot is decided, every later ballot of the instance carries its value. */
  lemma {:induction false} LaterBallotsAgree(c: Cluster, w: World, k: nat, b: Ballot, v: Value, b': Ballot, v': Value)
    requires Inv(c, w, FULL)
    requires Decided(c, w, k, b) && Proposed(w, k, b, v)
    requires Proposed(w, k, b', v') && Leq(b, b')
    ensures v == v'
    decreases b'.pid, b'.node
  {
    if b == b' {
      OneValuePerBallot(c, w, k, b, v, v');
    } else {
      ProposalIsSupported(c, w, k, b', v');
      var q', k0, cap :| Support(c, w, k, b', v', q', k0, cap);
      var q :| Blocking(c, q) && AllVoted(w, q, k, b);
      var a := QuorumsMeet(c, q, q');
      PromiseIsKept(c, w, a, k, b, k0, b', cap);
      DecidedHasPid(c, w, k, b);
      LaterBallotsAgree(c, w, k, b, v, cap, v');
    }
  }

  /** No instance has two decided values. */
  lemma ChosenIsUnique(c: Cluster, w: World, k: nat, v: Value, v': Value)
    requires Inv(c, w, FULL)
    requires Chosen(c, w, k, v) && Chosen(c, w, k, v')
    ensures v == v'
  {
    var b :| Settled(c, w, k, b) && Proposed(w, k, b, v);
    var b' :| Settled(c, w, k, b') && Proposed(w, k, b', v');
    TotalOrder(b, b', b);
    if Leq(b, b') {
      LaterBallotsAgree(c, w, k, b, v, b', v');
    } else {
      LaterBallotsAgree(c, w, k, b', v', b, v);
    }
  }
}
