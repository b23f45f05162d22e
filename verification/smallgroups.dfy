/** R3 asks something only of groups of five or more: in a smaller group the sender of a message for
    the next instance and the receiver who accepted its ballot already meet every majority. */
module SmallGroups {
  import opened Ballots
  import opened Messages
  import opened NodeModel
  import opened Protocol
  import opened Invariant
  import opened Preserve
  import opened Nesting
  import opened Agreement
  import opened SelfDelivery
  import opened Attention

  ghost predicate AllSettled(w: World) {
    forall i :: i in w ==> SelfInv(i, w[i], None)
  }

  lemma StepSettles(c: Cluster, w: World, s: Step)
    requires Enabled(c, w, s) && w.Keys == c.members && AllSettled(w)
    ensures AllSettled(Apply(c, w, s))
  {
    assert SelfInv(s.i, w[s.i], None);
    match s
    case Deliver(i, m) => MessageKeeps(Cfg(c, i), w[i], m);
    case Propose(i, v) => ProposeKeeps(Cfg(c, i), w[i], v);
    case ProposeTimeout(i) => HarmlessKeeps(i, w[i], OnProposeTimeout(w[i]), None);
    case RetryTimer(i) => RetryKeeps(Cfg(c, i), w[i]);
    case Sync(i) => HarmlessKeeps(i, w[i], AskAll(Cfg(c, i), w[i]), None);
    case Clean(i, upTo) => HarmlessKeeps(i, w[i], Forget(w[i], upTo), None);
    case Transfer(i, on) => HarmlessKeeps(i, w[i], SetSending(w[i], on), None);
  }

  lemma NextSettles(c: Cluster, w: World, w': World, g: Guards)
    requires Next(c, w, w', g) && w.Keys == c.members && AllSettled(w)
    ensures AllSettled(w')
  {
    var s :| Enabled(c, w, s) && Guarded(c, w, s, g) && w' == Apply(c, w, s);
    StepSettles(c, w, s);
  }

  /** Self-delivery is settled in every state of every run, whatever the guards. */
  lemma {:induction false} RunIsSettled(c: Cluster, ws: seq<World>, t: nat, g: Guards)
    requires IsRun(c, ws, g) && t < |ws|
    ensures AllSettled(ws[t])
  {
    if t > 0 {
      RunIsSettled(c, ws, t - 1, g);
      RunIsSafe(c, ws, t - 1, g);
      assert StepAt(c, ws, g, t - 1);
      NextSettles(c, ws[t - 1], ws[t], g);
    }
  }

  // ------------------------------------------------------------ requests nobody heard

  /** No other node can ever vote for the ACCEPT: all were past its instance when it was sent. */
  ghost predicate Lost(w: World, i: nat, x: Msg)
    requires x.Accept?
  {
    forall j :: j in w && j != i ==> w[j].inst > x.inst && !Voted(w, j, x.inst, Ballot(x.pid, i))
  }

  ghost predicate VotedOrLost(w: World, i: nat, x: Msg)
    requires x.Accept? && i in w
  {
    OwnVote(i, w[i], x) || Lost(w, i, x)
  }

  /** A node that waits for a checkpoint is behind all others, so what it sends meanwhile is lost. */
  ghost predicate StrayInv(w: World, i: nat)
    requires i in w
  {
    var n := w[i];
    && n.minChosen < n.inst
    && (forall m :: m in n.out && m.SendNow? ==> m.minChosen < n.inst)
    && (n.lrn.receiving ==> forall j :: j in w && j != i ==> w[j].inst > n.inst)
    && (forall x {:trigger VotedOrLost(w, i, x)} :: x in n.ignored && x.Accept? && x.src == i ==> VotedOrLost(w, i, x))
  }

  ghost predicate AllStray(w: World) {
    forall i {:trigger StrayInv(w, i)} :: i in w ==> StrayInv(w, i)
  }

  lemma SameSize(s: set<nat>, t: set<nat>)
    requires s <= t && |s| >= |t|
    ensures s == t
  {
    assert t == s + (t - s);
  }

  lemma VoterIsThere(c: Cluster, w: World, a: nat, k: nat, b: Ballot)
    requires Inv(c, w, FULL) && Voted(w, a, k, b)
    ensures a in w && k <= w[a].inst
  {
    var m := AcceptReply(a, b.node, k, b.pid, 0);
    assert AcceptorInv(a, w[a]) by { assert NodeInv(c, w, a, FULL); }
    assert m in w[a].out && IsVote(m) && VoteFact(w[a], m);
  }

  /** In a group of at most four, a majority without node `i` is all the others. */
  lemma OthersVoted(c: Cluster, w: World, i: nat, k: nat)
    requires Inv(c, w, FULL) && |c.members| <= 4 && i in w && w[i].inst < k && HasMajority(c, w, k)
    ensures forall j :: j in w && j != i ==> w[j].inst >= k
  {
    var q, b :| Quorum(c, q) && AllVoted(w, q, k, b);
    if i in q {
      assert Voted(w, i, k, b);
      VoterIsThere(c, w, i, k, b);
    }
    SubsetSize(q, c.members - {i});
    SameSize(q, c.members - {i});
    forall j | j in w && j != i ensures w[j].inst >= k {
      assert Voted(w, j, k, b);
      VoterIsThere(c, w, j, k, b);
    }
  }

  /** Told that records after its instance are gone, a node is behind all others. */
  lemma ToldIsBehind(c: Cluster, w: World, i: nat, m: Msg)
    requires Inv(c, w, FULL) && |c.members| <= 4 && AllStray(w) && i in w
    requires m.SendNow? && Sent(w, m) && m.minChosen > w[i].inst
    ensures forall j :: j in w && j != i ==> w[j].inst > w[i].inst
  {
    assert StrayInv(w, m.src);
    assert Shape(i, w[i]) by { assert NodeInv(c, w, i, FULL); }
    FinishedHasMajority(c, w, m.src, w[i].inst + 1);
    OthersVoted(c, w, i, w[i].inst + 1);
  }

  /** Who voted for an ACCEPT of the current id that is not retired, though `i` did not? Nobody. */
  lemma UnheardIsLost(c: Cluster, w: World, i: nat, x: Msg)
    requires Inv(c, w, FULL) && i in w && SelfInv(i, w[i], None) && StrayInv(w, i)
    requires x.Accept? && Unheard(w[i], x)
    ensures VotedOrLost(w, i, x)
  {
    if !OwnVote(i, w[i], x) {
      forall j | j in w && j != i ensures !Voted(w, j, x.inst, Ballot(x.pid, i)) {
        if Voted(w, j, x.inst, Ballot(x.pid, i)) {
          VoterHadReason(c, w, i, j, x);
        }
      }
    }
  }

  lemma VoterHadReason(c: Cluster, w: World, i: nat, j: nat, x: Msg)
    requires Inv(c, w, FULL) && i in w && SelfInv(i, w[i], None) && StrayInv(w, i)
    requires x.Accept? && Unheard(w[i], x) && j in w && j != i && Voted(w, j, x.inst, Ballot(x.pid, i))
    ensures OwnVote(i, w[i], x)
  {
    var m := AcceptReply(j, i, x.inst, x.pid, 0);
    assert EchoInv(w, w[j]) by { assert NodeInv(c, w, j, FULL); }
    assert EchoVote(w, m);
    var v :| Proposed(w, x.inst, Ballot(x.pid, i), v);
    var y := Accept(i, x.inst, x.pid, v);
    assert y in w[i].out;
    if y in w[i].ignored {
      assert VotedOrLost(w, i, y);
    } else {
      assert y in Heard(w[i]) && VotedOrRetired(i, w[i], y);
    }
  }

  // ------------------------------------------------------------ every step keeps it

  lemma LostStays(w: World, i: nat, r: Node, j: nat, x: Msg)
    requires i in w && j in w && x.Accept? && Forward(w[i], r) && w[i].out <= r.out
    requires VotedOrLost(w, j, x)
    ensures VotedOrLost(w[i := r], j, x)
  {
    var w' := w[i := r];
    if Lost(w, j, x) {
      forall a | a in w' && a != j ensures w'[a].inst > x.inst && !Voted(w', a, x.inst, Ballot(x.pid, j)) {
        assert w[a].inst > x.inst && !Voted(w, a, x.inst, Ballot(x.pid, j));
      }
    }
  }

  lemma OtherStays(w: World, i: nat, r: Node, j: nat)
    requires i in w && j in w && j != i && StrayInv(w, j) && Forward(w[i], r) && w[i].out <= r.out
    ensures StrayInv(w[i := r], j)
  {
    forall x | x in w[j].ignored && x.Accept? && x.src == j ensures VotedOrLost(w[i := r], j, x) {
      assert VotedOrLost(w, j, x);
      LostStays(w, i, r, j, x);
    }
  }

  lemma ActorStays(c: Cluster, w: World, s: Step, r: Node)
    requires Inv(c, w, FULL) && |c.members| <= 4 && AllStray(w) && Enabled(c, w, s)
    requires SelfInv(s.i, w[s.i], None) && Steps(s.i, w[s.i], r, s) && w[s.i].out <= r.out
    ensures StrayInv(w[s.i := r], s.i)
  {
    var i, n, w' := s.i, w[s.i], w[s.i := r];
    assert StrayInv(w, i);
    if r.lrn.receiving && !n.lrn.receiving {
      ToldIsBehind(c, w, i, s.m);
    }
    forall x | x in r.ignored && x.Accept? && x.src == i ensures VotedOrLost(w', i, x) {
      if x in n.ignored {
        assert VotedOrLost(w, i, x);
      } else {
        UnheardIsLost(c, w, i, x);
      }
      LostStays(w, i, r, i, x);
    }
  }

  lemma StepStays(c: Cluster, w: World, s: Step)
    requires Safe(c, w, FULL) && |c.members| <= 4 && AllStray(w) && AllSettled(w) && Enabled(c, w, s)
    requires Onward(w[s.i], StepNode(c, w, s))
    ensures AllStray(Apply(c, w, s))
  {
    var r, w' := StepNode(c, w, s), Apply(c, w, s);
    EveryStep(c, w, s);
    assert SelfInv(s.i, w[s.i], None);
    forall j | j in w' ensures StrayInv(w', j) {
      assert StrayInv(w, j);
      if j == s.i {
        ActorStays(c, w, s, r);
      } else {
        OtherStays(w, s.i, r, j);
      }
    }
  }

  // ------------------------------------------------------------ R3 holds by itself

  /** A node that uses an id again in a later instance voted for its own ACCEPT in the earlier one,
      unless it did not hear it. */
  lemma SenderVoted(me: nat, n: Node, m: Msg, x: Msg)
    requires SelfInv(me, n, None) && x !in n.ignored
    requires m in n.out && IsRequest(m) && x in n.out && x.Accept? && m.inst > x.inst && m.pid == x.pid
    ensures OwnVote(me, n, x)
  {
    assert VotedOrRetired(me, n, x);
  }

  /** With at most four members R3 holds by itself: the sender voted too, or nobody could have. */
  lemma ShortcutIsSafe(c: Cluster, w: World, i: nat, m: Msg)
    requires Inv(c, w, FULL) && AllSettled(w) && AllStray(w) && |c.members| <= 4
    requires Enabled(c, w, Deliver(i, m))
    ensures R3(c, w, i, m)
  {
    var n := w[i];
    if (m.Prepare? || m.Accept?) && m.inst == n.acc.inst + 1 && n.acc.accepted == Ballot(m.pid, m.src) {
      SentHasPid(c, w, m, FULL);
      assert Shape(i, n) && AcceptorInv(i, n) && EchoInv(w, n) by { assert NodeInv(c, w, i, FULL); }
      assert Voted(w, i, n.inst, n.acc.accepted);
      var x := Accept(m.src, n.inst, m.pid, n.acc.value);
      assert Sent(w, x) by { assert Proposed(w, n.inst, n.acc.accepted, n.acc.value); }
      assert SelfInv(m.src, w[m.src], None) && StrayInv(w, m.src);
      if x in w[m.src].ignored {
        assert VotedOrLost(w, m.src, x);
      } else {
        SenderVoted(m.src, w[m.src], m, x);
      }
      TwoVotesDecide(c, w, i, m.src, n.inst, n.acc.accepted);
    }
  }

  lemma TwoVotesDecide(c: Cluster, w: World, i: nat, j: nat, k: nat, b: Ballot)
    requires |c.members| <= 4 && i in c.members && j in c.members && i != j && Voted(w, i, k, b) && Voted(w, j, k, b)
    ensures Decided(c, w, k, b)
  {
    var q := {i, j};
    assert |q| == 2;
    assert AllVoted(w, q, k, b) && Blocking(c, q);
  }

  /** So far the run respects R3 as well, and its strays are accounted for. */
  ghost predicate RunsFull(c: Cluster, ws: seq<World>, t: nat)
    requires t < |ws|
  {
    IsRun(c, ws[..t + 1], FULL) && AllStray(ws[t])
  }

  lemma {:induction false} FullSoFar(c: Cluster, ws: seq<World>, t: nat)
    requires IsRun(c, ws, Guards(true, true, false)) && R5(c) && |c.members| <= 4 && t < |ws|
    ensures RunsFull(c, ws, t)
  {
    if t == 0 {
      forall i | i in ws[0] ensures StrayInv(ws[0], i) {
        assert ws[0][i] == FRESH;
      }
    } else {
      FullSoFar(c, ws, t - 1);
      NextIsFull(c, ws, t - 1);
    }
  }

  lemma NextIsFull(c: Cluster, ws: seq<World>, t: nat)
    requires IsRun(c, ws, Guards(true, true, false)) && R5(c) && |c.members| <= 4 && t + 1 < |ws|
    requires RunsFull(c, ws, t)
    ensures RunsFull(c, ws, t + 1)
  {
    var g, w, us := Guards(true, true, false), ws[t], ws[..t + 1];
    assert us[t] == w;
    RunIsSafe(c, us, t, FULL);
    RunIsSettled(c, us, t, FULL);
    assert StepAt(c, ws, g, t);
    var s :| Enabled(c, w, s) && Guarded(c, w, s, g) && ws[t + 1] == Apply(c, w, s);
    if s.Deliver? {
      ShortcutIsSafe(c, w, s.i, s.m);
    }
    assert Guarded(c, w, s, FULL);
    assert Next(c, w, ws[t + 1], FULL);
    StepOk(c, w, ws[t + 1], FULL);
    StepStays(c, w, s);
    OneMoreStep(c, ws, t);
  }

  lemma OneMoreStep(c: Cluster, ws: seq<World>, t: nat)
    requires t + 1 < |ws| && IsRun(c, ws[..t + 1], FULL) && Next(c, ws[t], ws[t + 1], FULL)
    ensures IsRun(c, ws[..t + 2], FULL)
  {
    var us, vs := ws[..t + 1], ws[..t + 2];
    forall u: nat | u + 1 < |vs| ensures StepAt(c, vs, FULL, u) {
      assert u + 1 < |us| ==> StepAt(c, us, FULL, u);
    }
  }

  /** So in a group of at most four nodes R1, R2 and R5 are enough for everything shown of runs. */
  lemma SmallGroupNeedsNoR3(c: Cluster, ws: seq<World>)
    requires IsRun(c, ws, Guards(true, true, false)) && R5(c) && |c.members| <= 4
    ensures IsRun(c, ws, FULL)
  {
    FullSoFar(c, ws, |ws| - 1);
    assert ws[..|ws| - 1 + 1] == ws;
  }
}
