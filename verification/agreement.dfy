/** The promises of the protocol over whole runs. */
module Agreement {
  import opened Ballots
  import opened Messages
  import opened NodeModel
  import opened Protocol
  import opened Invariant
  import opened Monotone
  import opened Preserve
  import opened Nesting
  import opened Progress

  ghost predicate Safe(c: Cluster, w: World, g: Guards) {
    && Inv(c, w, g)
    && forall i :: i in w ==> LocalInv(w[i]) && (g.Full() ==> !w[i].lrn.learned)
  }

  /** Nothing a node sent, executed or promised is ever taken back. */
  ghost predicate Onward(n: Node, n': Node) {
    && n.out <= n'.out
    && n.executed <= n'.executed
    && Leq(n.acc.promised, n'.acc.promised)
    && n.prop.pid <= n'.prop.pid && n.prop.maxPid <= n'.prop.maxPid
    && Heeds(n, n')
  }

  ghost predicate AllOnward(w: World, w': World) {
    w'.Keys == w.Keys && forall i :: i in w ==> Onward(w[i], w'[i])
  }

  lemma StartIsSafe(c: Cluster, g: Guards)
    requires g.Full() ==> R5(c)
    ensures Safe(c, Start(c), g)
  {
    var w := Start(c);
    forall i | i in w ensures NodeInv(c, w, i, g) {
      assert w[i] == FRESH;
    }
  }

  lemma DeliverIncoming(c: Cluster, w: World, i: nat, m: Msg, g: Guards)
    requires Safe(c, w, g) && Enabled(c, w, Deliver(i, m)) && Guarded(c, w, Deliver(i, m), g)
    ensures Incoming(c, w, i, m, g)
  {
    if g.Full() {
      assert NodeInv(c, w, m.src, g);
      if m.NewChosen? {
        assert Settled(c, w, m.inst, Ballot(m.pid, m.src));
      }
    }
  }

  lemma PreparePhaseOk(c: Cluster, w: World, i: nat, n1: Node, renew: bool, g: Guards)
    requires Steady(c, w, i, g) && Ready(w[i], n1)
    requires g.Full() && AcceptIssued(i, w[i], w[i].prop.inst, w[i].prop.pid) ==> renew
    ensures Steady(c, w[i := PreparePhase(Cfg(c, i), n1, renew)], i, g)
  {
    var cfg := Cfg(c, i);
    assert Shape(i, w[i]) by { assert NodeInv(c, w, i, g); }
    StartPrepareOk(c, w, i, n1, renew, g);
    var n2 := StartPrepare(cfg, n1, renew);
    var w1 := w[i := n2];
    MessageOk(c, w1, i, PrepareMsg(cfg, n2), g);
    assert w1[i := PreparePhase(cfg, n1, renew)] == w[i := PreparePhase(cfg, n1, renew)];
  }

  lemma ProposeOk(c: Cluster, w: World, i: nat, v: Value, g: Guards)
    requires Steady(c, w, i, g) && i in c.members && !w[i].proposing && (g.Full() ==> R2(i, w[i]))
    ensures Steady(c, w[i := OnPropose(Cfg(c, i), w[i], v)], i, g)
  {
    var n := w[i];
    var n0 := n.(proposing := true, timer := true, proposal := v);
    var n1 := n0.(prop := n0.prop.(value := v));
    if n1.prop.skip && !n1.prop.rejected {
      assert Shape(i, n) && (g.r1 ==> PromiseInv(c, w, i, n)) by { assert NodeInv(c, w, i, g); }
      var q: set<nat>, k0: nat := {}, 0;
      if g.r1 {
        q, k0 :| SkipEvidence(c, w, i, n, q, k0);
      }
      if g.Full() {
        SkipSupports(c, w, i, v);
      }
      AcceptPhaseOk(c, w, i, n1, q, k0, g);
    } else {
      PreparePhaseOk(c, w, i, n1, n1.prop.rejected, g);
    }
  }

  lemma RetryOk(c: Cluster, w: World, i: nat, g: Guards)
    requires Steady(c, w, i, g) && w[i].prop.retry.Some?
    requires g.Full() && w[i].prop.retry == Some(w[i].prop.inst) ==> R2(i, w[i])
    ensures Steady(c, w[i := OnRetryTimer(Cfg(c, i), w[i])], i, g)
  {
    var n := w[i];
    var n1 := n.(prop := n.prop.(retry := None));
    if n.prop.retry.value == n.prop.inst {
      PreparePhaseOk(c, w, i, n1, n1.prop.rejected, g);
    } else {
      QuietOk(c, w, i, n1, g);
    }
  }

  lemma StepIsSteady(c: Cluster, w: World, s: Step, g: Guards)
    requires Safe(c, w, g) && Enabled(c, w, s) && Guarded(c, w, s, g)
    ensures Steady(c, Apply(c, w, s), s.i, g)
  {
    match s
    case Deliver(i, m) =>
      DeliverIncoming(c, w, i, m, g);
      MessageOk(c, w, i, m, g);
    case Propose(i, v) => ProposeOk(c, w, i, v, g);
    case ProposeTimeout(i) => QuietOk(c, w, i, OnProposeTimeout(w[i]), g);
    case RetryTimer(i) => RetryOk(c, w, i, g);
    case Sync(i) => QuietOk(c, w, i, AskAll(Cfg(c, i), w[i]), g);
    case Clean(i, upTo) => ForgetOk(c, w, i, upTo, g);
    case Transfer(i, on) => QuietOk(c, w, i, SetSending(w[i], on), g);
  }

  lemma StepMoves(c: Cluster, w: World, s: Step)
    requires Enabled(c, w, s) && w.Keys == c.members && LocalInv(w[s.i]) && (s.Deliver? ==> Plausible(s.m))
    ensures LocalInv(StepNode(c, w, s)) && Onward(w[s.i], StepNode(c, w, s))
  {
    match s
    case Deliver(i, m) => MessageMoves(Cfg(c, i), w[i], m);
    case Propose(i, v) => ProposeMoves(Cfg(c, i), w[i], v);
    case ProposeTimeout(i) =>
    case RetryTimer(i) => RetryMoves(Cfg(c, i), w[i]);
    case Sync(i) =>
    case Clean(i, upTo) =>
    case Transfer(i, on) =>
  }

  /** Only node `i` changed. */
  lemma OneNodeMoved(c: Cluster, w: World, i: nat, n': Node, g: Guards)
    requires Safe(c, w, g) && i in w && Steady(c, w[i := n'], i, g) && LocalInv(n') && Onward(w[i], n')
    ensures Safe(c, w[i := n'], g) && AllOnward(w, w[i := n'])
  {
    var w' := w[i := n'];
    forall j | j in w' ensures LocalInv(w'[j]) && (g.Full() ==> !w'[j].lrn.learned) && Onward(w[j], w'[j]) {
      if j != i {
        assert w'[j] == w[j];
      }
    }
  }

  lemma StepOk(c: Cluster, w: World, w': World, g: Guards)
    requires Safe(c, w, g) && Next(c, w, w', g)
    ensures Safe(c, w', g) && AllOnward(w, w')
  {
    var s :| Enabled(c, w, s) && Guarded(c, w, s, g) && w' == Apply(c, w, s);
    StepIsSteady(c, w, s, g);
    if s.Deliver? && IsProposal(s.m) {
      SentHasPid(c, w, s.m, g);
    }
    StepMoves(c, w, s);
    OneNodeMoved(c, w, s.i, StepNode(c, w, s), g);
  }

  /** Every state of every run is safe. */
  lemma {:induction false} RunIsSafe(c: Cluster, ws: seq<World>, t: nat, g: Guards)
    requires IsRun(c, ws, g) && t < |ws|
    ensures Safe(c, ws[t], g)
  {
    if t == 0 {
      StartIsSafe(c, g);
    } else {
      RunIsSafe(c, ws, t - 1, g);
      assert StepAt(c, ws, g, t - 1);
      StepOk(c, ws[t - 1], ws[t], g);
    }
  }

  lemma {:induction false} OnwardAlong(ws: seq<World>, s: nat, t: nat)
    requires s <= t < |ws| && forall i :: s <= i < t ==> AllOnward(ws[i], ws[i + 1])
    ensures AllOnward(ws[s], ws[t])
    decreases t - s
  {
    if s < t {
      OnwardAlong(ws, s, t - 1);
      assert AllOnward(ws[t - 1], ws[t - 1 + 1]);
      OnwardTrans(ws[s], ws[t - 1], ws[t]);
    }
  }

  lemma RunGoesOnward(c: Cluster, ws: seq<World>, s: nat, t: nat, g: Guards)
    requires IsRun(c, ws, g) && s <= t < |ws|
    ensures AllOnward(ws[s], ws[t]) && Grows(ws[s], ws[t])
  {
    forall i | s <= i < t ensures AllOnward(ws[i], ws[i + 1]) {
      RunIsSafe(c, ws, i, g);
      assert StepAt(c, ws, g, i);
      StepOk(c, ws[i], ws[i + 1], g);
    }
    OnwardAlong(ws, s, t);
  }

  lemma OnwardTrans(w: World, w1: World, w2: World)
    requires AllOnward(w, w1) && AllOnward(w1, w2)
    ensures AllOnward(w, w2)
  {
    forall i | i in w ensures Onward(w[i], w2[i]) {
      assert Onward(w[i], w1[i]) && Onward(w1[i], w2[i]);
      TotalOrder(w[i].acc.promised, w1[i].acc.promised, w2[i].acc.promised);
    }
  }

  // ------------------------------------------------------------ theorems

  /** A value executed anywhere at any time of the run was decided and stays so. */
  lemma ExecutedIsChosen(c: Cluster, ws: seq<World>, s: nat, t: nat, i: nat, k: nat)
    requires IsRun(c, ws, FULL) && s <= t < |ws| && i in ws[s] && k < |ws[s][i].executed|
    ensures Chosen(c, ws[t], k + 1, ws[s][i].executed[k])
  {
    RunIsSafe(c, ws, s, FULL);
    ExecutedChosenNow(c, ws[s], i, k);
    RunGoesOnward(c, ws, s, t, FULL);
    ChosenStays(c, ws[s], ws[t], k + 1, ws[s][i].executed[k]);
  }

  lemma ExecutedChosenNow(c: Cluster, w: World, i: nat, k: nat)
    requires Inv(c, w, FULL) && i in w && k < |w[i].executed|
    ensures Chosen(c, w, k + 1, w[i].executed[k])
  {
    assert LearnerInv(c, w, w[i]) by { assert NodeInv(c, w, i, FULL); }
  }

  lemma ChosenAgree(c: Cluster, ws: seq<World>, t: nat, k: nat, v: Value, v': Value)
    requires IsRun(c, ws, FULL) && t < |ws| && Chosen(c, ws[t], k, v) && Chosen(c, ws[t], k, v')
    ensures v == v'
  {
    RunIsSafe(c, ws, t, FULL);
    ChosenIsUnique(c, ws[t], k, v, v');
  }

  /** Agreement: two nodes that learn a value for the same instance, at whatever times and by
      whatever message, learn the same value. */
  lemma SameValueLearned(c: Cluster, ws: seq<World>, s: nat, t: nat, i: nat, j: nat, k: nat)
    requires IsRun(c, ws, FULL) && s < |ws| && t < |ws| && i in ws[s] && j in ws[t]
    requires k < |ws[s][i].executed| && k < |ws[t][j].executed|
    ensures ws[s][i].executed[k] == ws[t][j].executed[k]
  {
    var u := if s <= t then t else s;
    ExecutedIsChosen(c, ws, s, u, i, k);
    ExecutedIsChosen(c, ws, t, u, j, k);
    ChosenAgree(c, ws, u, k + 1, ws[s][i].executed[k], ws[t][j].executed[k]);
  }

  /** Log agreement: the executed sequences of any two nodes are prefixes of one another, hold one
      value per finished instance, and every stored finished record holds the executed value. */
  lemma LogsAgree(c: Cluster, ws: seq<World>, s: nat, t: nat, i: nat, j: nat)
    requires IsRun(c, ws, FULL) && s < |ws| && t < |ws| && i in ws[s] && j in ws[t]
    ensures ws[s][i].executed <= ws[t][j].executed || ws[t][j].executed <= ws[s][i].executed
    ensures |ws[s][i].executed| == ws[s][i].inst - 1
    ensures forall k :: 1 <= k < ws[s][i].inst && k in ws[s][i].log ==>
              ws[s][i].log[k].value == ws[s][i].executed[k - 1]
    ensures forall k :: 1 <= k < ws[s][i].inst && ws[s][i].minChosen <= k ==> k in ws[s][i].log
  {
    RunIsSafe(c, ws, s, FULL);
    assert NodeInv(c, ws[s], i, FULL);
    var x, y := ws[s][i].executed, ws[t][j].executed;
    forall k | 0 <= k < |x| && k < |y| ensures x[k] == y[k] {
      SameValueLearned(c, ws, s, t, i, j, k);
    }
  }

  lemma ToldIsChosen(c: Cluster, ws: seq<World>, s: nat, t: nat, m: Msg)
    requires IsRun(c, ws, FULL) && s <= t < |ws| && m.SendLearned? && Sent(ws[s], m)
    ensures ChosenUnder(c, ws[t], m.inst, m.value, m.pid)
  {
    RunIsSafe(c, ws, s, FULL);
    assert LearnerInv(c, ws[s], ws[s][m.src]) by { assert NodeInv(c, ws[s], m.src, FULL); }
    RunGoesOnward(c, ws, s, t, FULL);
    UnderStays(c, ws[s], ws[t], m.inst, m.value, m.pid);
  }

  /** Every follower has been sent every value a node executed. */
  lemma FollowersAreTold(c: Cluster, ws: seq<World>, t: nat, i: nat, f: nat, k: nat)
    requires IsRun(c, ws, FULL) && t < |ws| && i in ws[t] && f in c.followers && k < |ws[t][i].executed|
    ensures exists m :: m in ws[t][i].out && m.SendLearned? && m.src == i && m.dst == f && m.inst == k + 1
              && m.value == ws[t][i].executed[k]
  {
    RunIsSafe(c, ws, t, FULL);
    var n := ws[t][i];
    assert Shape(i, n) && LearnerInv(c, ws[t], n) by { assert NodeInv(c, ws[t], i, FULL); }
    assert Tells(n, f, k + 1, n.executed[k]);
  }

  /** What a learner or a follower is told agrees with every node's execution. */
  lemma ToldValueAgrees(c: Cluster, ws: seq<World>, s: nat, t: nat, m: Msg, j: nat)
    requires IsRun(c, ws, FULL) && s < |ws| && t < |ws|
    requires m.SendLearned? && Sent(ws[s], m) && j in ws[t] && 1 <= m.inst <= |ws[t][j].executed|
    ensures m.value == ws[t][j].executed[m.inst - 1]
  {
    var u := if s <= t then t else s;
    ToldIsChosen(c, ws, s, u, m);
    ExecutedIsChosen(c, ws, t, u, j, m.inst - 1);
    ChosenAgree(c, ws, u, m.inst, m.value, ws[t][j].executed[m.inst - 1]);
  }

  /** Skipping the prepare phase is sound, with R1 alone: a majority answered the proposer's PREPARE
      of instance `k0`, holds a promise of at least its ballot, and no member of it votes below that
      ballot in an instance after `k0`, ever. Where no PREPARE of this ballot went out, the current
      instance is one of those. */
  lemma SkipPrepareIsSound(c: Cluster, ws: seq<World>, t: nat, i: nat) returns (q: set<nat>, k0: nat)
    requires IsRun(c, ws, ONLY_R1) && t < |ws| && i in ws[t] && ws[t][i].prop.skip
    ensures Quorum(c, q) && k0 <= ws[t][i].inst && Prepare(i, k0, ws[t][i].prop.pid) in ws[t][i].out
    ensures Prepare(i, ws[t][i].inst, ws[t][i].prop.pid) !in ws[t][i].out ==> k0 < ws[t][i].inst
    ensures forall a :: a in q ==> a in ws[t] && Leq(Ballot(ws[t][i].prop.pid, i), ws[t][a].acc.promised)
    ensures forall a, u: nat, k: nat, b :: a in q && u < |ws| && k > k0 && Voted(ws[u], a, k, b) ==>
              Leq(Ballot(ws[t][i].prop.pid, i), b)
  {
    q, k0 := SkipMajority(c, ws, t, i);
    var own := Ballot(ws[t][i].prop.pid, i);
    forall a, u: nat, k: nat, b | a in q && u < |ws| && k > k0 && Voted(ws[u], a, k, b) ensures Leq(own, b) {
      NeverLower(c, ws, t, u, a, k0, own, k, b);
    }
  }

  lemma SkipMajority(c: Cluster, ws: seq<World>, t: nat, i: nat) returns (q: set<nat>, k0: nat)
    requires IsRun(c, ws, ONLY_R1) && t < |ws| && i in ws[t] && ws[t][i].prop.skip
    ensures Quorum(c, q) && k0 <= ws[t][i].inst && Prepare(i, k0, ws[t][i].prop.pid) in ws[t][i].out
    ensures forall a :: a in q ==> a in ws[t] && Leq(Ballot(ws[t][i].prop.pid, i), ws[t][a].acc.promised)
    ensures forall a :: a in q ==>
      HasPromised(ws[t], a, k0, Ballot(ws[t][i].prop.pid, i), Ballot(ws[t][i].prop.pid, i))
  {
    RunIsSafe(c, ws, t, ONLY_R1);
    assert PromiseInv(c, ws[t], i, ws[t][i]) by { assert NodeInv(c, ws[t], i, ONLY_R1); }
    q, k0 :| SkipEvidence(c, ws[t], i, ws[t][i], q, k0);
    SkipFacts(c, ws[t], i, q, k0);
  }

  lemma SkipFacts(c: Cluster, w: World, i: nat, q: set<nat>, k0: nat)
    requires Inv(c, w, ONLY_R1) && i in w && SkipEvidence(c, w, i, w[i], q, k0)
    ensures Prepare(i, k0, w[i].prop.pid) in w[i].out
    ensures forall a :: a in q ==> a in w && Leq(Ballot(w[i].prop.pid, i), w[a].acc.promised)
  {
    var own := Ballot(w[i].prop.pid, i);
    var first :| first in q;
    PromiseWasAsked(c, w, first, k0, own, own);
    forall a | a in q ensures a in w && Leq(own, w[a].acc.promised) {
      PromiseIsHeld(c, w, a, k0, own, own);
    }
  }

  /** A promise once given binds the votes of every later instance, before and after. */
  lemma NeverLower(c: Cluster, ws: seq<World>, t: nat, u: nat, a: nat, k0: nat, own: Ballot, k: nat, b: Ballot)
    requires IsRun(c, ws, ONLY_R1) && t < |ws| && u < |ws| && k > k0
    requires HasPromised(ws[t], a, k0, own, own) && Voted(ws[u], a, k, b)
    ensures Leq(own, b)
  {
    var l := if u <= t then t else u;
    RunGoesOnward(c, ws, u, l, ONLY_R1);
    RunGoesOnward(c, ws, t, l, ONLY_R1);
    RunIsSafe(c, ws, l, ONLY_R1);
    PromisedStays(ws[t], ws[l], a, k0, own, own);
    NoLowerVote(c, ws[l], a, k, b, k0, own, own);
  }

  lemma PromiseWasAsked(c: Cluster, w: World, a: nat, k: nat, b: Ballot, cap: Ballot)
    requires Inv(c, w, ONLY_R1) && HasPromised(w, a, k, b, cap)
    ensures Sent(w, Prepare(b.node, k, b.pid))
  {
    var pre, v :| Sent(w, PrepareReply(a, b.node, k, b.pid, 0, pre, v)) && Leq(pre, cap);
    PrepareReplyFacts(c, w, PrepareReply(a, b.node, k, b.pid, 0, pre, v), ONLY_R1);
  }

  lemma PromiseIsHeld(c: Cluster, w: World, a: nat, k: nat, b: Ballot, cap: Ballot)
    requires Inv(c, w, ONLY_R1) && HasPromised(w, a, k, b, cap)
    ensures a in w && Leq(b, w[a].acc.promised)
  {
    var pre, v :| Sent(w, PrepareReply(a, b.node, k, b.pid, 0, pre, v)) && Leq(pre, cap);
    var p := PrepareReply(a, b.node, k, b.pid, 0, pre, v);
    assert AcceptorInv(a, w[a]) by { assert NodeInv(c, w, a, ONLY_R1); }
    assert p in w[a].out && IsPromise(p) && PromiseFact(w[a], p);
  }

  lemma NoLowerVote(c: Cluster, w: World, a: nat, k: nat, b: Ballot, k0: nat, own: Ballot, cap: Ballot)
    requires Inv(c, w, ONLY_R1) && k > k0
    requires Voted(w, a, k, b) && HasPromised(w, a, k0, own, cap)
    ensures Leq(own, b)
  {
    var pre, v :| Sent(w, PrepareReply(a, own.node, k0, own.pid, 0, pre, v)) && Leq(pre, cap);
    var p, m := PrepareReply(a, own.node, k0, own.pid, 0, pre, v), AcceptReply(a, b.node, k, b.pid, 0);
    assert AcceptorInv(a, w[a]) by { assert NodeInv(c, w, a, ONLY_R1); }
    assert p in w[a].out && IsPromise(p) && m in w[a].out && IsVote(m) && Kept(p, m);
  }
}
