/** One node of a group: acceptor, proposer, learner and the instance driver around them,
    as functions from node state to node state. A message a node addresses to itself is handled by
    a nested call, exactly where the program makes it; the call chain ends because each
    phase only calls into a later one. */
module NodeModel {
  import opened Ballots
  import opened Messages

  /** What one node knows about its group. `exec` says whether a machine accepts a value. */
  datatype Config = Config(me: nat, members: set<nat>, followers: set<nat>, exec: (nat, Value) -> bool)

  function Majority(members: set<nat>): nat {
    |members| / 2 + 1
  }

  datatype AcceptorState = AcceptorState(inst: nat, promised: Ballot, accepted: Ballot, value: Value)

  datatype CounterState = CounterState(received: set<nat>, rejectors: set<nat>, promisors: set<nat>)

  const NO_ROUND := CounterState({}, {}, {})

  /** `retry` is the instance the pending retry timer was armed for. */
  datatype ProposerState = ProposerState(
    inst: nat, pid: nat, maxPid: nat, maxBallot: Ballot, value: Value,
    preparing: bool, accepting: bool, skip: bool, rejected: bool,
    counter: CounterState, retry: Option<nat>)

  /** `receiving` and `sending`: a checkpoint is on its way to this node, from this node. */
  datatype LearnerState = LearnerState(
    inst: nat, learning: bool, learned: bool, value: Value, receiving: bool, sending: bool)

  /** How a proposal ended, as reported to its callback. */
  datatype Outcome = Done | Conflict | MachineError | TimedOut | InvalidNode

  /** `executed` lists the values the machines took, `done` the reported outcomes, and `out`
      every message the node ever issued, replies to itself included. `byLearner` holds the
      instances whose record the learner wrote last, `ignored` the messages, its own included, that
      came while a checkpoint was being received. */
  datatype Node = Node(
    acc: AcceptorState, prop: ProposerState, lrn: LearnerState,
    inst: nat, proposing: bool, timer: bool, proposal: Value,
    log: map<nat, Record>, minChosen: nat, maxChosen: nat,
    executed: seq<Value>, done: seq<Outcome>, out: set<Msg>,
    byLearner: set<nat>, ignored: set<Msg>)

  /** A node that recovered from an empty log. */
  const FRESH := Node(
    AcceptorState(1, NO_BALLOT, NO_BALLOT, NO_VALUE),
    ProposerState(1, 1, 0, NO_BALLOT, NO_VALUE, false, false, false, false, NO_ROUND, None),
    LearnerState(1, false, false, NO_VALUE, false, false),
    1, false, false, NO_VALUE, map[], 0, 1, [], [], {}, {}, {})

  // ---------------------------------------------------------------- acceptor

  function Issue(n: Node, m: Msg): Node {
    n.(out := n.out + {m})
  }

  function StoreAcceptor(n: Node): Node {
    n.(log := n.log[n.acc.inst := Record(n.acc.inst, n.acc.promised, n.acc.accepted, n.acc.value)],
       byLearner := n.byLearner - {n.acc.inst})
  }

  function PromiseReply(cfg: Config, n: Node, m: Msg): Msg
    requires m.Prepare?
  {
    if Leq(n.acc.promised, Ballot(m.pid, m.src)) then
      if n.acc.accepted.pid > 0 then
        PrepareReply(cfg.me, m.src, m.inst, m.pid, 0, n.acc.accepted, n.acc.value)
      else
        PrepareReply(cfg.me, m.src, m.inst, m.pid, 0, NO_BALLOT, NO_VALUE)
    else
      PrepareReply(cfg.me, m.src, m.inst, m.pid, n.acc.promised.pid, NO_BALLOT, NO_VALUE)
  }

  /** The acceptor's own part of a PREPARE for its instance. */
  function Promise(cfg: Config, n: Node, m: Msg): Node
    requires m.Prepare?
  {
    var b := Ballot(m.pid, m.src);
    var n1 := if Leq(n.acc.promised, b) then StoreAcceptor(n.(acc := n.acc.(promised := b))) else n;
    Issue(n1, PromiseReply(cfg, n, m))
  }

  function VoteReply(cfg: Config, n: Node, m: Msg): Msg
    requires m.Accept?
  {
    AcceptReply(cfg.me, m.src, m.inst, m.pid,
                if Leq(n.acc.promised, Ballot(m.pid, m.src)) then 0 else n.acc.promised.pid)
  }

  /** The acceptor's own part of an ACCEPT for its instance. */
  function Vote(cfg: Config, n: Node, m: Msg): Node
    requires m.Accept?
  {
    var b := Ballot(m.pid, m.src);
    var n1 := if Leq(n.acc.promised, b) then
                StoreAcceptor(n.(acc := n.acc.(promised := b, accepted := b, value := m.value)))
              else n;
    Issue(n1, VoteReply(cfg, n, m))
  }

  function OnPrepare(cfg: Config, n: Node, m: Msg): Node
    requires m.Prepare?
    decreases 5, 2
  {
    if m.inst == n.acc.inst then
      if m.src == cfg.me then OnPaxosMessage(cfg, Promise(cfg, n, m), PromiseReply(cfg, n, m))
      else Promise(cfg, n, m)
    else if m.inst == n.acc.inst + 1 then
      OnPaxosMessage(cfg, n, NewChosen(m.src, n.acc.inst, m.pid))
    else n
  }

  function OnAccept(cfg: Config, n: Node, m: Msg): Node
    requires m.Accept?
    decreases 3, 2
  {
    if m.inst == n.acc.inst then
      if m.src == cfg.me then OnPaxosMessage(cfg, Vote(cfg, n, m), VoteReply(cfg, n, m))
      else Vote(cfg, n, m)
    else if m.inst == n.acc.inst + 1 then
      OnPaxosMessage(cfg, n, NewChosen(m.src, n.acc.inst, m.pid))
    else n
  }

  // ---------------------------------------------------------------- proposer

  function Received(k: CounterState, from: nat, rejected: nat): CounterState {
    if rejected == 0 then k.(received := k.received + {from}, promisors := k.promisors + {from})
    else k.(received := k.received + {from}, rejectors := k.rejectors + {from})
  }

  predicate Passed(cfg: Config, k: CounterState) {
    |k.promisors| >= Majority(cfg.members)
  }

  predicate Failed(cfg: Config, k: CounterState) {
    |k.rejectors| >= Majority(cfg.members) || |k.received| >= |cfg.members|
  }

  /** The proposer enters the prepare phase and issues PREPARE. */
  function StartPrepare(cfg: Config, n: Node, renew: bool): Node {
    var p := n.prop;
    var pid := if !renew then p.pid else (if p.pid < p.maxPid then p.maxPid else p.pid) + 1;
    Issue(n.(prop := p.(preparing := true, accepting := false, skip := false, rejected := false,
                        maxBallot := NO_BALLOT, pid := pid, counter := NO_ROUND, retry := Some(p.inst))),
          Msg.Prepare(cfg.me, p.inst, pid))
  }

  function PrepareMsg(cfg: Config, n: Node): Msg {
    Msg.Prepare(cfg.me, n.prop.inst, n.prop.pid)
  }

  function PreparePhase(cfg: Config, n: Node, renew: bool): Node
    decreases 5, 5
  {
    var n1 := StartPrepare(cfg, n, renew);
    OnPaxosMessage(cfg, n1, PrepareMsg(cfg, n1))
  }

  /** The proposer enters the accept phase and issues ACCEPT for its value. */
  function StartAccept(cfg: Config, n: Node): Node {
    var p := n.prop;
    Issue(n.(prop := p.(preparing := false, accepting := true, counter := NO_ROUND, retry := Some(p.inst))),
          AcceptMsg(cfg, n))
  }

  function AcceptMsg(cfg: Config, n: Node): Msg {
    Msg.Accept(cfg.me, n.prop.inst, n.prop.pid, n.prop.value)
  }

  function AcceptPhase(cfg: Config, n: Node): Node
    decreases 3, 5
  {
    OnPaxosMessage(cfg, StartAccept(cfg, n), AcceptMsg(cfg, n))
  }

  /** Counting a reply to PREPARE; the value of the highest earlier ballot replaces the proposer's. */
  function CountPromise(n: Node, m: Msg): Node
    requires m.PrepareReply?
  {
    var p := n.prop.(counter := Received(n.prop.counter, m.src, m.rejected));
    n.(prop := if m.rejected == 0 && Less(p.maxBallot, m.pre) then p.(maxBallot := m.pre, value := m.value) else p)
  }

  function CountVote(n: Node, m: Msg): Node
    requires m.AcceptReply?
  {
    n.(prop := n.prop.(counter := Received(n.prop.counter, m.src, m.rejected)))
  }

  function NoteRejection(n: Node, rejected: nat): Node {
    n.(prop := n.prop.(rejected := n.prop.rejected || rejected >= n.prop.pid,
                       maxPid := if n.prop.maxPid < rejected then rejected else n.prop.maxPid))
  }

  function OnPrepareReply(cfg: Config, n: Node, m: Msg): Node
    requires m.PrepareReply?
    decreases 4, 2
  {
    var n1 :=
      if n.prop.preparing && m.inst == n.prop.inst then
        var k := CountPromise(n, m);
        if Passed(cfg, k.prop.counter) then
          AcceptPhase(cfg, k.(prop := k.prop.(preparing := false, skip := true, retry := None)))
        else if Failed(cfg, k.prop.counter) then
          k.(prop := k.prop.(preparing := false, retry := Some(k.prop.inst)))
        else k
      else n;
    NoteRejection(n1, m.rejected)
  }

  /** The proposer's accept round passed: it stops counting and announces the decision. */
  function StartAnnounce(cfg: Config, n: Node): Node {
    Issue(n.(prop := n.prop.(accepting := false, retry := None)), AnnounceMsg(cfg, n))
  }

  function AnnounceMsg(cfg: Config, n: Node): Msg {
    NewChosen(cfg.me, n.prop.inst, n.prop.pid)
  }

  function AnnouncePhase(cfg: Config, n: Node): Node
    decreases 1, 5
  {
    OnPaxosMessage(cfg, StartAnnounce(cfg, n), AnnounceMsg(cfg, n))
  }

  function OnAcceptReply(cfg: Config, n: Node, m: Msg): Node
    requires m.AcceptReply?
    decreases 2, 2
  {
    var n1 :=
      if n.prop.accepting && m.inst == n.prop.inst then
        var k := CountVote(n, m);
        if Passed(cfg, k.prop.counter) then
          AnnouncePhase(cfg, k)
        else if Failed(cfg, k.prop.counter) then
          k.(prop := k.prop.(accepting := false, retry := Some(k.prop.inst)))
        else k
      else n;
    NoteRejection(n1, m.rejected)
  }

  function NewPropose(cfg: Config, n: Node, v: Value): Node {
    var n1 := n.(prop := n.prop.(value := v));
    if n1.prop.skip && !n1.prop.rejected then AcceptPhase(cfg, n1)
    else PreparePhase(cfg, n1, n1.prop.rejected)
  }

  function QuitPropose(n: Node): Node {
    n.(prop := n.prop.(preparing := false, accepting := false, retry := None))
  }

  // ---------------------------------------------------------------- learner

  function ToFollowers(cfg: Config, inst: nat, b: Ballot, v: Value): set<Msg> {
    set f | f in cfg.followers :: SendLearned(cfg.me, f, inst, b.pid, b.node, v)
  }

  function FinishLearn(cfg: Config, n: Node, b: Ballot, v: Value): Node {
    n.(lrn := n.lrn.(learned := true, value := v),
       out := n.out + ToFollowers(cfg, n.lrn.inst, b, v))
  }

  function OnNewChosen(cfg: Config, n: Node, m: Msg): Node
    requires m.NewChosen?
  {
    if m.inst == n.lrn.inst && Ballot(m.pid, m.src) == n.acc.accepted then
      FinishLearn(cfg, n, n.acc.accepted, n.acc.value)
    else n
  }

  /** The learner stores a received value under the sender's node id. */
  function StoreLearned(n: Node, m: Msg): Node
    requires m.SendLearned?
  {
    var b := Ballot(m.pid, m.src);
    n.(log := n.log[m.inst := Record(m.inst, b, b, m.value)], byLearner := n.byLearner + {m.inst})
  }

  function OnSendLearned(cfg: Config, n: Node, m: Msg): Node
    requires m.SendLearned?
  {
    if m.inst == n.lrn.inst then FinishLearn(cfg, StoreLearned(n, m), Ballot(m.pid, m.src), m.value)
    else n
  }

  function LearnedMsg(me: nat, dst: nat, r: Record): Msg {
    SendLearned(me, dst, r.inst, r.accepted.pid, r.accepted.node, r.value)
  }

  /** The records of instances `from` up to `end`, in order, stopping at the first one missing. */
  function Batch(me: nat, dst: nat, log: map<nat, Record>, from: nat, end: nat): seq<Msg>
    decreases end - from
  {
    if from < end && from in log then [LearnedMsg(me, dst, log[from])] + Batch(me, dst, log, from + 1, end)
    else []
  }

  function OnAskForLearn(cfg: Config, n: Node, m: Msg): Node
    requires m.AskForLearn?
  {
    if m.inst < n.lrn.inst then
      if m.inst == n.lrn.inst - 1 then
        if m.inst in n.log then Issue(n, LearnedMsg(cfg.me, m.src, n.log[m.inst])) else n
      else if !n.lrn.sending then Issue(n, SendNow(cfg.me, m.src, m.inst, n.lrn.inst, n.minChosen))
      else n
    else n
  }

  function OnSendNow(cfg: Config, n: Node, m: Msg): Node
    requires m.SendNow?
  {
    if m.inst == n.lrn.inst && m.now > n.lrn.inst then
      if m.minChosen > n.lrn.inst then
        if !n.lrn.receiving then
          Issue(n.(lrn := n.lrn.(receiving := true)), AskForCheckpoint(cfg.me, m.src, n.lrn.inst))
        else n
      else if !n.lrn.receiving && !n.lrn.learning then
        Issue(n.(lrn := n.lrn.(learning := true)), ConfirmAsk(cfg.me, m.src, n.lrn.inst))
      else n
    else n
  }

  function OnConfirmAsk(cfg: Config, n: Node, m: Msg): Node
    requires m.ConfirmAsk?
  {
    n.(out := n.out + (set x | x in Batch(cfg.me, m.src, n.log, m.inst, n.lrn.inst)))
  }

  function AskAll(cfg: Config, n: Node): Node {
    Issue(n.(lrn := n.lrn.(learning := false, receiving := false)), Msg.AskForLearn(cfg.me, n.lrn.inst))
  }

  /** Another thread starts or ends sending a checkpoint. */
  function SetSending(n: Node, on: bool): Node {
    n.(lrn := n.lrn.(sending := on))
  }

  // ---------------------------------------------------------------- instance

  function NextInstance(n: Node): Node {
    n.(inst := n.inst + 1,
       acc := n.acc.(inst := n.acc.inst + 1, accepted := NO_BALLOT, value := NO_VALUE),
       prop := n.prop.(inst := n.prop.inst + 1),
       lrn := n.lrn.(inst := n.lrn.inst + 1, learned := false, value := NO_VALUE),
       maxChosen := n.lrn.inst)
  }

  /** Runs the machines on a learned value, reports to the waiting proposal and moves on. */
  function CheckLearn(cfg: Config, n: Node): Node {
    if !n.lrn.learned then n
    else
      var v := n.lrn.value;
      var my := n.proposing && n.proposal.id == v.id;
      var ok := cfg.exec(n.inst, v);
      var n1 := if ok then n.(executed := n.executed + [v]) else n;
      var n2 := if n.proposing then
                  n1.(done := n1.done + [if !ok then MachineError else if my then Done else Conflict],
                      proposing := false, timer := false)
                else n1;
      if ok then NextInstance(n2) else n2.(prop := n2.prop.(skip := false))
  }

  function Rank(m: Msg): nat {
    match m
    case Prepare(_, _, _) => 5
    case PrepareReply(_, _, _, _, _, _, _) => 4
    case Accept(_, _, _, _) => 3
    case AcceptReply(_, _, _, _, _) => 2
    case NewChosen(_, _, _) => 1
    case _ => 0
  }

  function Dispatch(cfg: Config, n: Node, m: Msg): Node
    decreases Rank(m), 3
  {
    match m
    case Prepare(_, _, _) => OnPrepare(cfg, n, m)
    case Accept(_, _, _, _) => OnAccept(cfg, n, m)
    case PrepareReply(_, _, _, _, _, _, _) => OnPrepareReply(cfg, n, m)
    case AcceptReply(_, _, _, _, _) => OnAcceptReply(cfg, n, m)
    case NewChosen(_, _, _) => OnNewChosen(cfg, n, m)
    case AskForLearn(_, _) => OnAskForLearn(cfg, n, m)
    case SendLearned(_, _, _, _, _, _) => OnSendLearned(cfg, n, m)
    case SendNow(_, _, _, _, _) => OnSendNow(cfg, n, m)
    case ConfirmAsk(_, _, _) => OnConfirmAsk(cfg, n, m)
    case AskForCheckpoint(_, _, _) => n
  }

  function OnPaxosMessage(cfg: Config, n: Node, m: Msg): Node
    decreases Rank(m), 4
  {
    if n.lrn.receiving then n.(ignored := n.ignored + {m})
    else CheckLearn(cfg, Dispatch(cfg, n, m))
  }

  /** A proposal reaches the driver; the queue in front of it never sends two at a time. */
  function OnPropose(cfg: Config, n: Node, v: Value): Node
    requires !n.proposing
  {
    if cfg.me !in cfg.members then n.(done := n.done + [InvalidNode])
    else NewPropose(cfg, n.(proposing := true, timer := true, proposal := v), v)
  }

  function OnProposeTimeout(n: Node): Node
    requires n.timer
  {
    var n1 := QuitPropose(n);
    n1.(proposing := false, timer := false, done := n1.done + [TimedOut])
  }

  function OnRetryTimer(cfg: Config, n: Node): Node
    requires n.prop.retry.Some?
  {
    var n1 := n.(prop := n.prop.(retry := None));
    if n.prop.retry.value == n.prop.inst then PreparePhase(cfg, n1, n1.prop.rejected) else n1
  }

  /** The cleaner drops finished records below `upTo`. */
  function Forget(n: Node, upTo: nat): Node
    requires n.minChosen <= upTo <= n.inst
  {
    n.(log := (map k | k in n.log && upTo <= k :: n.log[k]), minChosen := upTo)
  }
}
