/** A group of nodes that exchange messages over a network which may lose, repeat, delay and
    reorder them. A step is one handler run at one node, nested self-calls included. */
module Protocol {
  import opened Ballots
  import opened Messages
  import opened NodeModel

  /** R4: the membership is a constant of the group. */
  datatype Cluster = Cluster(members: set<nat>, followers: set<nat>, exec: (nat, Value) -> bool)

  type World = map<nat, Node>

  function Cfg(c: Cluster, i: nat): Config {
    Config(i, c.members, c.followers, c.exec)
  }

  function Start(c: Cluster): World {
    map i | i in c.members :: FRESH
  }

  /** `Transfer`: another thread starts or ends sending a checkpoint. */
  datatype Step =
    | Deliver(i: nat, m: Msg)
    | Propose(i: nat, v: Value)
    | ProposeTimeout(i: nat)
    | RetryTimer(i: nat)
    | Sync(i: nat)
    | Clean(i: nat, upTo: nat)
    | Transfer(i: nat, on: bool)

  /** The message was issued at some time; the network may still hold a copy. */
  predicate Sent(w: World, m: Msg) {
    m.src in w && m in w[m.src].out
  }

  predicate Addressed(i: nat, m: Msg) {
    match m
    case Prepare(_, _, _) => true
    case Accept(_, _, _, _) => true
    case NewChosen(_, _, _) => true
    case AskForLearn(_, _) => true
    case _ => m.dst == i
  }

  predicate Enabled(c: Cluster, w: World, s: Step) {
    && s.i in w
    && match s
       case Deliver(i, m) => m.src != i && Sent(w, m) && Addressed(i, m)
       case Propose(i, v) => !w[i].proposing
       case ProposeTimeout(i) => w[i].timer
       case RetryTimer(i) => w[i].prop.retry.Some?
       case Sync(i) => true
       case Transfer(i, on) => true
       case Clean(i, upTo) => w[i].minChosen <= upTo <= w[i].inst && upTo < w[i].maxChosen
  }

  function StepNode(c: Cluster, w: World, s: Step): Node
    requires Enabled(c, w, s)
  {
    match s
    case Deliver(i, m) => OnPaxosMessage(Cfg(c, i), w[i], m)
    case Propose(i, v) => OnPropose(Cfg(c, i), w[i], v)
    case ProposeTimeout(i) => OnProposeTimeout(w[i])
    case RetryTimer(i) => OnRetryTimer(Cfg(c, i), w[i])
    case Sync(i) => AskAll(Cfg(c, i), w[i])
    case Clean(i, upTo) => Forget(w[i], upTo)
    case Transfer(i, on) => SetSending(w[i], on)
  }

  function Apply(c: Cluster, w: World, s: Step): World
    requires Enabled(c, w, s)
  {
    w[s.i := StepNode(c, w, s)]
  }

  // ------------------------------------------------------------ what the runs must respect

  ghost predicate Quorum(c: Cluster, q: set<nat>) {
    q <= c.members && |q| >= Majority(c.members)
  }

  /** The set meets every majority. */
  ghost predicate Blocking(c: Cluster, q: set<nat>) {
    q <= c.members && |q| + Majority(c.members) > |c.members|
  }

  predicate Voted(w: World, a: nat, k: nat, b: Ballot) {
    Sent(w, AcceptReply(a, b.node, k, b.pid, 0))
  }

  ghost predicate AllVoted(w: World, q: set<nat>, k: nat, b: Ballot) {
    forall a :: a in q ==> Voted(w, a, k, b)
  }

  /** So many acceptors voted for ballot `b` in instance `k` that every majority meets one of them;
      a majority of votes is the usual case. */
  ghost predicate Decided(c: Cluster, w: World, k: nat, b: Ballot) {
    exists q :: Blocking(c, q) && AllVoted(w, q, k, b)
  }

  /** R1: a reply is only counted under the proposal id it answers. */
  predicate R1(n: Node, m: Msg) {
    && (m.PrepareReply? && n.prop.preparing && m.inst == n.prop.inst ==> m.pid == n.prop.pid)
    && (m.AcceptReply? && n.prop.accepting && m.inst == n.prop.inst ==> m.pid == n.prop.pid)
  }

  predicate AcceptIssued(i: nat, n: Node, k: nat, pid: nat) {
    exists m :: m in n.out && m.Accept? && m.src == i && m.inst == k && m.pid == pid
  }

  /** R2: after ACCEPT went out, another attempt in the instance takes a new proposal id. */
  predicate R2(i: nat, n: Node) {
    AcceptIssued(i, n, n.prop.inst, n.prop.pid) ==> n.prop.rejected
  }

  /** R3: a message for the next instance stands in for NEW_CHOSEN_VALUE only if its ballot
      really was decided here. */
  ghost predicate R3(c: Cluster, w: World, i: nat, m: Msg)
    requires i in w
  {
    var n := w[i];
    (m.Prepare? || m.Accept?) && m.inst == n.acc.inst + 1 && n.acc.accepted == Ballot(m.pid, m.src)
    ==> Decided(c, w, n.acc.inst, n.acc.accepted)
  }

  /** R5: the machines take every value. */
  ghost predicate R5(c: Cluster) {
    forall k, v :: c.exec(k, v)
  }

  /** Which of R1, R2 and R3 the steps of a run are assumed to respect. */
  datatype Guards = Guards(r1: bool, r2: bool, r3: bool) {
    predicate Full() { r1 && r2 && r3 }
  }

  const FULL := Guards(true, true, true)
  const ONLY_R1 := Guards(true, false, false)

  ghost predicate Guarded(c: Cluster, w: World, s: Step, g: Guards)
    requires s.i in w
  {
    match s
    case Deliver(i, m) => (g.r1 ==> R1(w[i], m)) && (g.r3 ==> R3(c, w, i, m))
    case Propose(i, v) => g.r2 ==> R2(i, w[i])
    case RetryTimer(i) => g.r2 && w[i].prop.retry == Some(w[i].prop.inst) ==> R2(i, w[i])
    case _ => true
  }

  ghost predicate Next(c: Cluster, w: World, w': World, g: Guards) {
    exists s :: Enabled(c, w, s) && Guarded(c, w, s, g) && w' == Apply(c, w, s)
  }

  ghost predicate StepAt(c: Cluster, ws: seq<World>, g: Guards, t: nat)
    requires t + 1 < |ws|
  {
    Next(c, ws[t], ws[t + 1], g)
  }

  /** A finite run from the start whose steps respect the guards. */
  ghost predicate IsRun(c: Cluster, ws: seq<World>, g: Guards) {
    && (g.Full() ==> R5(c))
    && |ws| > 0
    && ws[0] == Start(c)
    && forall t: nat {:trigger StepAt(c, ws, g, t)} :: t + 1 < |ws| ==> StepAt(c, ws, g, t)
  }

  /** Some run that respects the guards ends in `w`. */
  ghost predicate Reachable(c: Cluster, g: Guards, w: World) {
    exists ws :: IsRun(c, ws, g) && ws[|ws| - 1] == w
  }

  lemma StartIsReachable(c: Cluster, g: Guards)
    requires R5(c)
    ensures Reachable(c, g, Start(c))
  {
    assert IsRun(c, [Start(c)], g);
  }

  lemma NextIsReachable(c: Cluster, g: Guards, w: World, w': World)
    requires Reachable(c, g, w) && Next(c, w, w', g)
    ensures Reachable(c, g, w')
  {
    var ws :| IsRun(c, ws, g) && ws[|ws| - 1] == w;
    var ws' := ws + [w'];
    forall t: nat | t + 1 < |ws'| ensures StepAt(c, ws', g, t) {
      assert t + 1 < |ws| ==> StepAt(c, ws, g, t);
    }
    assert IsRun(c, ws', g);
  }

  lemma StepIsReachable(c: Cluster, g: Guards, w: World, s: Step)
    requires Reachable(c, g, w) && Enabled(c, w, s) && Guarded(c, w, s, g)
    ensures Reachable(c, g, Apply(c, w, s))
  {
    NextIsReachable(c, g, w, Apply(c, w, s));
  }
}
