/** A lagging node that is sent a batch of stored records, over a network that may lose, repeat and
    reorder them: its log only ever grows by the sender's next values, without a gap. */
module CatchUp {
  import opened Ballots
  import opened Messages
  import opened NodeModel

  /** The receiver between two messages. */
  ghost predicate Receptive(cfg: Config, n: Node) {
    && n.acc.inst == n.inst && n.prop.inst == n.inst && n.lrn.inst == n.inst
    && !n.lrn.learned && !n.lrn.receiving
    && forall k, v :: cfg.exec(k, v)
  }

  ghost predicate WellKept(log: map<nat, Record>) {
    forall k :: k in log ==> log[k].inst == k
  }

  function Receive(cfg: Config, n: Node, ms: seq<Msg>): Node
    decreases |ms|
  {
    if ms == [] then n else Receive(cfg, OnPaxosMessage(cfg, n, ms[0]), ms[1..])
  }

  /** The values the sender stores for instances `from` up to `end`. */
  function Values(log: map<nat, Record>, from: nat, end: nat): seq<Value>
    requires from <= end && forall k :: from <= k < end ==> k in log
    decreases end - from
  {
    if from == end then [] else [log[from].value] + Values(log, from + 1, end)
  }

  /** One message either is the next record, which is stored and executed, or changes nothing. */
  lemma OneMessage(cfg: Config, n: Node, log: map<nat, Record>, src: nat, k: nat)
    requires Receptive(cfg, n) && WellKept(log) && k in log
    ensures var r := OnPaxosMessage(cfg, n, LearnedMsg(src, cfg.me, log[k]));
      && Receptive(cfg, r)
      && (k == n.inst ==> r.inst == n.inst + 1 && r.executed == n.executed + [log[k].value]
                          && k in r.log && r.log[k].value == log[k].value && r.log - {k} == n.log - {k})
      && (k != n.inst ==> r == n)
  {
    var m := LearnedMsg(src, cfg.me, log[k]);
    assert OnPaxosMessage(cfg, n, m) == CheckLearn(cfg, OnSendLearned(cfg, n, m));
    if k == n.inst {
      assert cfg.exec(n.inst, log[k].value);
    }
  }

  /** The accepted value of the current instance is decided: it is executed and the node moves on. */
  predicate Finishes(n: Node, r: Node) {
    r.inst == n.inst + 1 && r.executed == n.executed + [n.acc.value] && !r.lrn.learned
  }

  /** An announcement of the accepted ballot finishes the instance, and so does any request of its proposer for
      the next one under the same id; every other message of the kind changes nothing. */
  lemma NewsOfDecision(cfg: Config, n: Node, m: Msg)
    requires Receptive(cfg, n) && (m.NewChosen? || m.Prepare? || m.Accept?)
    requires m.inst == if m.NewChosen? then n.inst else n.inst + 1
    ensures var r := OnPaxosMessage(cfg, n, m);
      if Ballot(m.pid, m.src) == n.acc.accepted then Finishes(n, r) else r == n
  {
    var x := NewChosen(m.src, n.inst, m.pid);
    assert cfg.exec(n.inst, n.acc.value);
    assert OnPaxosMessage(cfg, n, x) == CheckLearn(cfg, OnNewChosen(cfg, n, x));
    if !m.NewChosen? {
      assert Dispatch(cfg, n, m) == OnPaxosMessage(cfg, n, x);
    }
  }

  /** The value goes on to the followers, with the ballot it was accepted under where the acceptor has it, and
      with the sender as its node where it came from another learner. */
  lemma ValueIsPassedOn(cfg: Config, n: Node, m: Msg, f: nat)
    requires Receptive(cfg, n) && f in cfg.followers && m.inst == n.inst
    requires m.SendLearned? || (m.NewChosen? && Ballot(m.pid, m.src) == n.acc.accepted)
    ensures var v := if m.SendLearned? then m.value else n.acc.value;
      SendLearned(cfg.me, f, n.inst, m.pid, m.src, v) in OnPaxosMessage(cfg, n, m).out
  {
    assert OnPaxosMessage(cfg, n, m) == CheckLearn(cfg, Dispatch(cfg, n, m));
    assert SendLearned(cfg.me, f, n.inst, m.pid, m.src, if m.SendLearned? then m.value else n.acc.value)
        in Dispatch(cfg, n, m).out;
  }

  /** Requests, announcements and values of other instances change nothing. */
  lemma OtherInstanceIsIgnored(cfg: Config, n: Node, m: Msg)
    requires Receptive(cfg, n)
    requires ((m.Prepare? || m.Accept?) && m.inst != n.inst && m.inst != n.inst + 1) ||
             ((m.NewChosen? || m.SendLearned?) && m.inst != n.inst)
    ensures OnPaxosMessage(cfg, n, m) == n
  {
    assert Dispatch(cfg, n, m) == n;
  }

  /** What a receiver that started at `n` may have become. */
  ghost predicate CaughtUp(n: Node, log: map<nat, Record>, r: Node) {
    && n.inst <= r.inst
    && (forall k :: n.inst <= k < r.inst ==> k in log && k in r.log && r.log[k].value == log[k].value)
    && r.executed == n.executed + Values(log, n.inst, r.inst)
  }

  lemma {:induction false} ValuesExtend(log: map<nat, Record>, from: nat, end: nat)
    requires from <= end && forall k :: from <= k <= end ==> k in log
    ensures Values(log, from, end + 1) == Values(log, from, end) + [log[end].value]
    decreases end - from
  {
    if from < end {
      ValuesExtend(log, from + 1, end);
    }
  }

  ghost predicate Repeats(m: Msg, log: map<nat, Record>, src: nat, dst: nat) {
    exists k :: k in log && m == LearnedMsg(src, dst, log[k])
  }

  /** Storing and executing the next record keeps the copy gap-free. */
  lemma StepCatchesUp(n: Node, log: map<nat, Record>, cur: Node, next: Node, k: nat)
    requires CaughtUp(n, log, cur) && k in log && k == cur.inst
    requires next.inst == k + 1 && next.executed == cur.executed + [log[k].value]
    requires k in next.log && next.log[k].value == log[k].value && next.log - {k} == cur.log - {k}
    ensures CaughtUp(n, log, next)
  {
    ValuesExtend(log, n.inst, k);
    forall j | n.inst <= j < next.inst ensures j in next.log && next.log[j].value == log[j].value {
      if j != k {
        assert j in cur.log - {k};
        assert (next.log - {k})[j] == (cur.log - {k})[j];
      }
    }
  }

  lemma OneDelivery(cfg: Config, n: Node, cur: Node, log: map<nat, Record>, src: nat, m: Msg)
    requires Receptive(cfg, cur) && WellKept(log) && CaughtUp(n, log, cur) && Repeats(m, log, src, cfg.me)
    ensures Receptive(cfg, OnPaxosMessage(cfg, cur, m)) && CaughtUp(n, log, OnPaxosMessage(cfg, cur, m))
  {
    var k :| k in log && m == LearnedMsg(src, cfg.me, log[k]);
    OneMessage(cfg, cur, log, src, k);
    if k == cur.inst {
      StepCatchesUp(n, log, cur, OnPaxosMessage(cfg, cur, m), k);
    }
  }

  /** Whatever arrives, the receiver holds a gap-free copy of the sender's next values. */
  lemma {:induction false} AnyDeliveryIsGapFree(cfg: Config, n: Node, cur: Node, log: map<nat, Record>, src: nat,
                                                ms: seq<Msg>)
    requires Receptive(cfg, cur) && WellKept(log) && CaughtUp(n, log, cur)
    requires forall j :: 0 <= j < |ms| ==> Repeats(ms[j], log, src, cfg.me)
    ensures CaughtUp(n, log, Receive(cfg, cur, ms))
    decreases |ms|
  {
    if ms != [] {
      OneDelivery(cfg, n, cur, log, src, ms[0]);
      AnyDeliveryIsGapFree(cfg, n, OnPaxosMessage(cfg, cur, ms[0]), log, src, ms[1..]);
    }
  }

  /** The batch delivered in order and without loss brings the receiver exactly to the sender. */
  lemma {:induction false} InOrderDeliveryCompletes(cfg: Config, n: Node, log: map<nat, Record>, src: nat, end: nat)
    requires Receptive(cfg, n) && WellKept(log) && n.inst <= end
    requires forall k :: n.inst <= k < end ==> k in log
    ensures var r := Receive(cfg, n, Batch(src, cfg.me, log, n.inst, end));
      && r.inst == end
      && r.executed == n.executed + Values(log, n.inst, end)
    decreases end - n.inst
  {
    if n.inst < end {
      var next := OnPaxosMessage(cfg, n, LearnedMsg(src, cfg.me, log[n.inst]));
      OneMessage(cfg, n, log, src, n.inst);
      var ms := Batch(src, cfg.me, log, n.inst, end);
      assert ms[0] == LearnedMsg(src, cfg.me, log[n.inst]) && ms[1..] == Batch(src, cfg.me, log, n.inst + 1, end);
      InOrderDeliveryCompletes(cfg, next, log, src, end);
    }
  }
}

/** The whole exchange in a group: from every reachable state a node that lags behind another, whose log
    still has what is missing, can be brought level with it by their messages alone. */
module CatchingUp {
  import opened Messages
  import opened NodeModel
  import opened Protocol
  import opened Invariant
  import opened Progress
  import opened Agreement
  import opened CatchUp

  ghost predicate Linked(c: Cluster, w: World, i: nat, j: nat) {
    Reachable(c, FULL, w) && R5(c) && i in w && j in w && i != j
  }

  /** What a reachable state gives: both nodes are between handler runs. */
  lemma Between(c: Cluster, w: World, i: nat)
    requires Reachable(c, FULL, w) && i in w
    ensures w.Keys == c.members && LocalInv(w[i]) && !w[i].lrn.learned && Shape(i, w[i]) && LogInv(w[i])
  {
    var ws :| IsRun(c, ws, FULL) && ws[|ws| - 1] == w;
    RunIsSafe(c, ws, |ws| - 1, FULL);
    assert NodeInv(c, w, i, FULL);
  }

  /** A message that is neither reply nor request may be delivered in any state. */
  lemma Delivers(c: Cluster, w: World, i: nat, m: Msg) returns (w': World)
    requires Reachable(c, FULL, w) && i in w && m.src != i && Sent(w, m) && Addressed(i, m) && Rank(m) == 0
    ensures Reachable(c, FULL, w') && w' == w[i := OnPaxosMessage(Cfg(c, i), w[i], m)]
  {
    StepIsReachable(c, FULL, w, Deliver(i, m));
    w' := Apply(c, w, Deliver(i, m));
  }

  lemma Steps(c: Cluster, w: World, s: Step) returns (w': World)
    requires Reachable(c, FULL, w) && s.i in w && (s.Sync? || s.Transfer?)
    ensures Reachable(c, FULL, w') && w' == w[s.i := StepNode(c, w, s)]
  {
    StepIsReachable(c, FULL, w, s);
    w' := Apply(c, w, s);
  }

  /** Node `j` answers as long as it neither receives nor sends a checkpoint, and both can be over. */
  lemma Listens(c: Cluster, w: World, j: nat) returns (w': World)
    requires Reachable(c, FULL, w) && j in w
    ensures Reachable(c, FULL, w') && w'.Keys == w.Keys && forall x :: x in w && x != j ==> w'[x] == w[x]
    ensures w'[j] == w[j].(lrn := w'[j].lrn, out := w'[j].out) && w'[j].lrn.inst == w[j].lrn.inst
    ensures !w'[j].lrn.receiving && !w'[j].lrn.learning && !w'[j].lrn.sending
    ensures AskForLearn(j, w[j].lrn.inst) in w'[j].out
  {
    w' := Steps(c, w, Sync(j));
    w' := Steps(c, w', Step.Transfer(j, false));
  }

  /** The lagging node at instance `k` asks, and is told where the other one stands. */
  lemma AskIsAnswered(cfg: Config, n: Node, m: Msg)
    requires LocalInv(n) && !n.lrn.receiving && !n.lrn.learned && !n.lrn.sending
    requires m.AskForLearn? && m.inst + 1 < n.inst
    ensures var r := OnPaxosMessage(cfg, n, m);
      && r == n.(out := r.out) && n.out <= r.out
      && SendNow(cfg.me, m.src, m.inst, n.inst, n.minChosen) in r.out
  {
    assert OnPaxosMessage(cfg, n, m) == CheckLearn(cfg, OnAskForLearn(cfg, n, m));
  }

  lemma NewsIsTaken(cfg: Config, n: Node, m: Msg)
    requires LocalInv(n) && !n.lrn.receiving && !n.lrn.learned && !n.lrn.learning
    requires m.SendNow? && m.inst == n.inst && m.now > n.inst
    ensures var r := OnPaxosMessage(cfg, n, m);
      && r == n.(lrn := r.lrn, out := r.out) && n.out <= r.out && r.lrn.inst == n.lrn.inst
      && (m.minChosen <= n.inst ==>
            r.lrn == n.lrn.(learning := true) && ConfirmAsk(cfg.me, m.src, n.inst) in r.out)
      && (m.minChosen > n.inst ==>
            r.lrn == n.lrn.(receiving := true) && AskForCheckpoint(cfg.me, m.src, n.inst) in r.out)
  {
    assert OnPaxosMessage(cfg, n, m) == CheckLearn(cfg, OnSendNow(cfg, n, m));
  }

  /** News that is old, of no use or not the first is ignored. */
  lemma NewsIsIgnored(cfg: Config, n: Node, m: Msg)
    requires LocalInv(n) && !n.lrn.receiving && !n.lrn.learned && m.SendNow?
    requires m.inst != n.inst || m.now <= n.inst || (m.minChosen <= n.inst && n.lrn.learning)
    ensures OnPaxosMessage(cfg, n, m) == n
  {
    assert OnPaxosMessage(cfg, n, m) == CheckLearn(cfg, OnSendNow(cfg, n, m));
  }

  lemma {:induction false} BatchHasAll(me: nat, dst: nat, log: map<nat, Record>, from: nat, end: nat, k: nat)
    requires from <= k < end && forall x :: from <= x <= k ==> x in log
    ensures LearnedMsg(me, dst, log[k]) in Batch(me, dst, log, from, end)
    decreases end - from
  {
    if from < k {
      BatchHasAll(me, dst, log, from + 1, end, k);
    }
  }

  lemma ConfirmIsServed(cfg: Config, n: Node, m: Msg)
    requires LocalInv(n) && !n.lrn.receiving && !n.lrn.learned
    requires m.ConfirmAsk? && forall x :: m.inst <= x < n.inst ==> x in n.log
    ensures var r := OnPaxosMessage(cfg, n, m);
      && r == n.(out := r.out) && n.out <= r.out
      && forall k :: m.inst <= k < n.inst ==> LearnedMsg(cfg.me, m.src, n.log[k]) in r.out
  {
    assert OnPaxosMessage(cfg, n, m) == CheckLearn(cfg, OnConfirmAsk(cfg, n, m));
    forall k | m.inst <= k < n.inst ensures LearnedMsg(cfg.me, m.src, n.log[k]) in OnConfirmAsk(cfg, n, m).out {
      BatchHasAll(cfg.me, m.src, n.log, m.inst, n.lrn.inst, k);
    }
  }

  /** Node `j` has sent node `i` every record up to its own instance. */
  ghost predicate HasSent(w: World, i: nat, j: nat)
    requires i in w && j in w
  {
    forall k :: w[i].inst <= k < w[j].inst ==> k in w[j].log && LearnedMsg(j, i, w[j].log[k]) in w[j].out
  }

  lemma {:induction false} RecordsArrive(c: Cluster, w: World, i: nat, j: nat) returns (w': World)
    requires Linked(c, w, i, j) && w[i].inst <= w[j].inst && HasSent(w, i, j) && !w[i].lrn.receiving
    ensures Reachable(c, FULL, w') && w'.Keys == w.Keys && w'[i].inst == w[j].inst
    ensures forall x :: x in w && x != i ==> w'[x] == w[x]
    decreases w[j].inst - w[i].inst
  {
    w' := w;
    if w[i].inst < w[j].inst {
      Between(c, w, i);
      Between(c, w, j);
      var k := w[i].inst;
      var m := LearnedMsg(j, i, w[j].log[k]);
      OneMessage(Cfg(c, i), w[i], w[j].log, j, k);
      w' := Delivers(c, w, i, m);
      w' := RecordsArrive(c, w', i, j);
    }
  }

  /** Two or more instances behind: ask, be told, and answer to that. */
  lemma HearsNews(c: Cluster, w: World, i: nat, j: nat) returns (w': World)
    requires Linked(c, w, i, j) && w[i].inst + 1 < w[j].inst
    requires !w[i].lrn.receiving && !w[i].lrn.learning && AskForLearn(i, w[i].inst) in w[i].out
    requires !w[j].lrn.receiving && !w[j].lrn.sending
    ensures Reachable(c, FULL, w') && w'.Keys == w.Keys
    ensures w'[i] == w[i].(lrn := w'[i].lrn, out := w'[i].out) && w'[j] == w[j].(out := w'[j].out)
    ensures w[j].minChosen <= w[i].inst ==> !w'[i].lrn.receiving && ConfirmAsk(i, j, w[i].inst) in w'[i].out
    ensures w[j].minChosen > w[i].inst ==> w'[i].lrn.receiving && AskForCheckpoint(i, j, w[i].inst) in w'[i].out
  {
    Between(c, w, i);
    Between(c, w, j);
    AskIsAnswered(Cfg(c, j), w[j], Msg.AskForLearn(i, w[i].inst));
    w' := Delivers(c, w, j, Msg.AskForLearn(i, w[i].inst));
    var news := SendNow(j, i, w[i].inst, w[j].inst, w[j].minChosen);
    NewsIsTaken(Cfg(c, i), w'[i], news);
    w' := Delivers(c, w', i, news);
  }

  lemma GetsBatch(c: Cluster, w: World, i: nat, j: nat) returns (w': World)
    requires Linked(c, w, i, j) && ConfirmAsk(i, j, w[i].inst) in w[i].out && w[j].minChosen <= w[i].inst
    requires !w[j].lrn.receiving
    ensures Reachable(c, FULL, w') && w'.Keys == w.Keys && forall x :: x in w && x != j ==> w'[x] == w[x]
    ensures w'[j] == w[j].(out := w'[j].out) && HasSent(w', i, j)
  {
    Between(c, w, i);
    Between(c, w, j);
    ConfirmIsServed(Cfg(c, j), w[j], ConfirmAsk(i, j, w[i].inst));
    w' := Delivers(c, w, j, ConfirmAsk(i, j, w[i].inst));
  }

  lemma RecordIsGiven(cfg: Config, n: Node, m: Msg)
    requires LocalInv(n) && !n.lrn.receiving && !n.lrn.learned && m.AskForLearn? && m.inst + 1 == n.inst
    requires m.inst in n.log
    ensures var r := OnPaxosMessage(cfg, n, m);
      r == n.(out := r.out) && LearnedMsg(cfg.me, m.src, n.log[m.inst]) in r.out
  {
    assert OnPaxosMessage(cfg, n, m) == CheckLearn(cfg, OnAskForLearn(cfg, n, m));
  }

  /** One instance behind: the record comes at once. */
  lemma AsksForRecord(c: Cluster, w: World, i: nat, j: nat) returns (w': World)
    requires Linked(c, w, i, j) && w[i].inst + 1 == w[j].inst && !w[j].lrn.receiving
    requires !w[i].lrn.receiving && AskForLearn(i, w[i].inst) in w[i].out
    ensures Reachable(c, FULL, w') && w'.Keys == w.Keys && forall x :: x in w && x != j ==> w'[x] == w[x]
    ensures w'[j] == w[j].(out := w'[j].out) && HasSent(w', i, j)
  {
    Between(c, w, i);
    Between(c, w, j);
    var m := Msg.AskForLearn(i, w[i].inst);
    RecordIsGiven(Cfg(c, j), w[j], m);
    w' := Delivers(c, w, j, m);
  }

  /** From every reachable state, a node behind another that has not deleted what it misses can get to the
      other's instance, and then both have executed the same. */
  lemma LaggingNodeCatchesUp(c: Cluster, w: World, i: nat, j: nat) returns (w': World)
    requires Linked(c, w, i, j) && w[i].inst < w[j].inst
    requires w[i].inst + 1 < w[j].inst ==> w[j].minChosen <= w[i].inst
    ensures Reachable(c, FULL, w') && w'.Keys == w.Keys && w'[i].inst == w[j].inst
    ensures w'[i].executed == w[j].executed == w'[j].executed
  {
    Between(c, w, i);
    w' := Listens(c, w, j);
    w' := Listens(c, w', i);
    if w[i].inst + 1 < w[j].inst {
      w' := HearsNews(c, w', i, j);
      w' := GetsBatch(c, w', i, j);
    } else {
      w' := AsksForRecord(c, w', i, j);
    }
    w' := RecordsArrive(c, w', i, j);
    SameInstanceSameValues(c, w', i, j);
  }

  lemma SameInstanceSameValues(c: Cluster, w: World, i: nat, j: nat)
    requires Reachable(c, FULL, w) && i in w && j in w && w[i].inst == w[j].inst
    ensures w[i].executed == w[j].executed
  {
    var ws :| IsRun(c, ws, FULL) && ws[|ws| - 1] == w;
    LogsAgree(c, ws, |ws| - 1, |ws| - 1, i, j);
    LogsAgree(c, ws, |ws| - 1, |ws| - 1, j, i);
  }

  /** A node whose missing records were deleted asks for a checkpoint instead, and waits for it. */
  lemma DeletedMeansCheckpoint(c: Cluster, w: World, i: nat, j: nat) returns (w': World)
    requires Linked(c, w, i, j) && w[i].inst + 1 < w[j].inst && w[j].minChosen > w[i].inst
    ensures Reachable(c, FULL, w') && w'.Keys == w.Keys && w'[i].inst == w[i].inst
    ensures w'[i].lrn.receiving && AskForCheckpoint(i, j, w[i].inst) in w'[i].out
  {
    Between(c, w, i);
    w' := Listens(c, w, j);
    w' := Listens(c, w', i);
    w' := HearsNews(c, w', i, j);
  }
}
