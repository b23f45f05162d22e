/** The queue in front of the driver: proposals enter the driver one at a time and every callback is
    called once, in the order the proposals were accepted. */
module Queueing {
  import opened Messages
  import opened NodeModel
  import opened Progress

  /** A queued proposal and its callback. The master's own bid looks at the lease when it is run. */
  datatype Handler = Handler(cb: nat, v: Value, master: bool)

  /** A callback handed its outcome; `direct` if the driver was never entered. */
  datatype Fired = Fired(cb: nat, outcome: Outcome, direct: bool)

  /** `io` is what the queue handed to the io loop and the loop has not run yet, `fired` what it handed
      to the callback loop. */
  datatype QueueState = QueueState(
    lastFinished: bool, waiting: seq<Handler>, cbs: seq<nat>, io: seq<Handler>, fired: seq<Fired>)

  predicate HasRoom(capacity: nat, q: QueueState) {
    q.lastFinished || capacity == 0 || |q.waiting| <= capacity
  }

  function WithHandler(q: QueueState, h: Handler): QueueState {
    if q.lastFinished then q.(lastFinished := false, io := q.io + [h], cbs := q.cbs + [h.cb])
    else q.(waiting := q.waiting + [h], cbs := q.cbs + [h.cb])
  }

  /** What the source asserts when a proposal completes. */
  predicate CanComplete(q: QueueState) {
    !q.lastFinished && q.cbs != []
  }

  function Complete(q: QueueState, o: Outcome, direct: bool): QueueState
    requires CanComplete(q)
  {
    var q1 := q.(cbs := q.cbs[1..], fired := q.fired + [Fired(q.cbs[0], o, direct)]);
    if q.waiting != [] then q1.(io := q.io + [q.waiting[0]], waiting := q.waiting[1..])
    else q1.(lastFinished := true)
  }

  class ProposeQueue {
    const capacity: nat
    var lastFinished: bool
    var proposeQueue: seq<Handler>
    var cbQueue: seq<nat>
    var ioLoop: seq<Handler>
    var callbackLoop: seq<Fired>

    function State(): QueueState
      reads this
    {
      QueueState(lastFinished, proposeQueue, cbQueue, ioLoop, callbackLoop)
    }

    constructor (capacity: nat)
      ensures this.capacity == capacity && State() == EMPTY
    {
      this.capacity := capacity;
      lastFinished, proposeQueue, cbQueue, ioLoop, callbackLoop := true, [], [], [], [];
    }

    method Put(h: Handler) returns (ok: bool)
      modifies this
      ensures ok == HasRoom(capacity, old(State())) && (capacity == 0 || old(lastFinished) ==> ok)
      ensures State() == if ok then WithHandler(old(State()), h) else old(State())
    {
      if lastFinished {
        lastFinished := false;
        ioLoop := ioLoop + [h];
      } else {
        if capacity != 0 && |proposeQueue| > capacity {
          return false;
        }
        proposeQueue := proposeQueue + [h];
      }
      cbQueue := cbQueue + [h.cb];
      return true;
    }

    method ProposeComplete(o: Outcome, direct: bool)
      requires CanComplete(State())
      modifies this
      ensures State() == Complete(old(State()), o, direct)
    {
      var cb := cbQueue[0];
      cbQueue := cbQueue[1..];
      callbackLoop := callbackLoop + [Fired(cb, o, direct)];
      if proposeQueue != [] {
        ioLoop := ioLoop + [proposeQueue[0]];
        proposeQueue := proposeQueue[1..];
      } else {
        lastFinished := true;
      }
    }
  }

  const EMPTY := QueueState(true, [], [], [], [])

  // ------------------------------------------------------------ the queue and its driver

  /** A node with its queue; `accepted` lists the proposals the queue took. */
  datatype Driver = Driver(node: Node, q: QueueState, accepted: seq<Handler>)

  datatype Event =
    | Offer(h: Handler)
    | Run(free: bool)
    | Message(m: Msg)
    | Timeout
    | Retry
    | Sync
    | Transfer(on: bool)

  predicate Enabled(d: Driver, e: Event) {
    match e
    case Offer(_) => true
    case Run(_) => d.q.io != []
    case Message(m) => Plausible(m)
    case Timeout => d.node.timer
    case Retry => d.node.prop.retry.Some?
    case Sync => true
    case Transfer(_) => true
  }

  /** The master's bid ends at once if another node holds the lease; everything else is proposed. */
  predicate Enters(d: Driver, e: Event)
    requires Enabled(d, e)
  {
    e.Run? && (e.free || !d.q.io[0].master)
  }

  /** The source's assertion at the driver's door. */
  predicate DoorIsFree(d: Driver, e: Event)
    requires Enabled(d, e)
  {
    Enters(d, e) ==> !d.node.proposing
  }

  function NodeAfter(cfg: Config, d: Driver, e: Event): Node
    requires Enabled(d, e) && DoorIsFree(d, e)
  {
    match e
    case Offer(_) => d.node
    case Run(_) => if Enters(d, e) then OnPropose(cfg, d.node, d.q.io[0].v) else d.node
    case Message(m) => OnPaxosMessage(cfg, d.node, m)
    case Timeout => OnProposeTimeout(d.node)
    case Retry => OnRetryTimer(cfg, d.node)
    case Sync => AskAll(cfg, d.node)
    case Transfer(on) => SetSending(d.node, on)
  }

  predicate Settles(cfg: Config, d: Driver, e: Event)
    requires Enabled(d, e) && DoorIsFree(d, e)
  {
    |NodeAfter(cfg, d, e).done| > |d.node.done| || (e.Run? && !Enters(d, e))
  }

  /** Every assertion of the source that this event would meet. */
  predicate AssertsHold(cfg: Config, d: Driver, e: Event)
    requires Enabled(d, e)
  {
    DoorIsFree(d, e) && (Settles(cfg, d, e) ==> CanComplete(d.q))
  }

  function After(cfg: Config, capacity: nat, d: Driver, e: Event): Driver
    requires Enabled(d, e) && AssertsHold(cfg, d, e)
  {
    var n' := NodeAfter(cfg, d, e);
    if e.Offer? then
      if HasRoom(capacity, d.q) then Driver(n', WithHandler(d.q, e.h), d.accepted + [e.h]) else d
    else
      var q1 := if Settles(cfg, d, e) then
                  if e.Run? && !Enters(d, e) then Complete(d.q, Conflict, true)
                  else Complete(d.q, n'.done[|d.node.done|], false)
                else d.q;
      Driver(n', if e.Run? then q1.(io := q1.io[1..]) else q1, d.accepted)
  }

  /** Each state follows from the one before as long as no assertion fails. */
  ghost predicate IsRun(cfg: Config, capacity: nat, ds: seq<Driver>, es: seq<Event>) {
    && |ds| == |es| + 1
    && ds[0] == Driver(FRESH, EMPTY, [])
    && forall t :: 0 <= t < |es| ==> Follows(cfg, capacity, ds[t], es[t], ds[t + 1])
  }

  ghost predicate Follows(cfg: Config, capacity: nat, d: Driver, e: Event, d': Driver) {
    Enabled(d, e) && (AssertsHold(cfg, d, e) ==> d' == After(cfg, capacity, d, e))
  }

  // ------------------------------------------------------------ what every run keeps

  /** The outcomes of the driver, in the order they were reported. */
  function Driven(fired: seq<Fired>): seq<Outcome>
    decreases |fired|
  {
    if fired == [] then []
    else
      var f := fired[|fired| - 1];
      Driven(fired[..|fired| - 1]) + (if f.direct then [] else [f.outcome])
  }

  /** Callback number k belongs to proposal number k. */
  predicate Answered(d: Driver) {
    && |d.q.fired| <= |d.accepted|
    && (forall k :: 0 <= k < |d.q.fired| ==> d.q.fired[k].cb == d.accepted[k].cb)
    && |d.q.cbs| == |d.accepted| - |d.q.fired|
    && (forall k :: 0 <= k < |d.q.cbs| ==> d.q.cbs[k] == d.accepted[|d.q.fired| + k].cb)
    && Driven(d.q.fired) == d.node.done
  }

  predicate WasExecuted(n: Node, id: nat) {
    exists x :: 0 <= x < |n.executed| && n.executed[x].id == id
  }

  predicate OtherExecuted(n: Node, id: nat) {
    exists x :: 0 <= x < |n.executed| && n.executed[x].id != id
  }

  ghost predicate TakesAll(cfg: Config) {
    forall k, v :: cfg.exec(k, v)
  }

  /** What an outcome of the driver for the proposal with value `id` tells. */
  ghost predicate Says(cfg: Config, n: Node, id: nat, o: Outcome) {
    match o
    case Done => WasExecuted(n, id)
    case Conflict => OtherExecuted(n, id)
    case MachineError => !TakesAll(cfg)
    case TimedOut => cfg.me in cfg.members
    case InvalidNode => cfg.me !in cfg.members
  }

  /** Every callback was told the truth; one called without the driver was told of a conflict. */
  ghost predicate Truthful(cfg: Config, d: Driver) {
    |d.q.fired| <= |d.accepted| &&
    forall k :: 0 <= k < |d.q.fired| ==>
      var f := d.q.fired[k];
      if f.direct then f.outcome == Conflict && d.accepted[k].master
      else Says(cfg, d.node, d.accepted[k].v.id, f.outcome)
  }

  /** Idle, or exactly one proposal is out: at the io loop's door or in the driver. */
  predicate OneAtATime(d: Driver) {
    var k := |d.q.fired|;
    if d.q.lastFinished then
      k == |d.accepted| && d.q.io == [] && d.q.waiting == [] && !d.node.proposing
    else
      && k < |d.accepted|
      && d.q.waiting == d.accepted[k + 1..]
      && (if d.node.proposing then d.q.io == [] && d.node.proposal == d.accepted[k].v
          else d.q.io == [d.accepted[k]])
  }

  predicate Bounded(capacity: nat, d: Driver) {
    capacity != 0 ==> |d.q.waiting| <= capacity + 1
  }

  ghost predicate QueueInv(cfg: Config, capacity: nat, d: Driver) {
    && LocalInv(d.node) && Answered(d) && OneAtATime(d) && Truthful(cfg, d) && Bounded(capacity, d)
    && (d.node.proposing ==> cfg.me in cfg.members)
  }

  // ------------------------------------------------------------ the proof

  /** What an event does to the node: the waiting proposal is settled at most once. */
  ghost predicate Advanced(cfg: Config, n: Node, r: Node) {
    && LocalInv(r)
    && n.executed <= r.executed
    && n.done <= r.done && |r.done| + Waiting(r) == |n.done| + Waiting(n)
    && n.proposal == r.proposal
    && (|n.done| < |r.done| ==> Says(cfg, r, n.proposal.id, r.done[|n.done|]))
  }

  lemma MovedIsAdvanced(cfg: Config, n: Node, r: Node)
    requires Moved(cfg, n, r)
    ensures Advanced(cfg, n, r)
  {
  }

  lemma NodeAdvances(cfg: Config, d: Driver, e: Event)
    requires LocalInv(d.node) && Enabled(d, e) && DoorIsFree(d, e) && !Enters(d, e)
    requires d.node.proposing ==> cfg.me in cfg.members
    ensures Advanced(cfg, d.node, NodeAfter(cfg, d, e))
  {
    match e
    case Message(m) =>
      MessageMoves(cfg, d.node, m);
      MovedIsAdvanced(cfg, d.node, NodeAfter(cfg, d, e));
    case Retry =>
      RetryMoves(cfg, d.node);
      MovedIsAdvanced(cfg, d.node, NodeAfter(cfg, d, e));
    case _ =>
  }

  lemma ProposalAdvances(cfg: Config, n: Node, v: Value)
    requires LocalInv(n) && !n.proposing
    ensures Advanced(cfg, n.(proposing := true, timer := true, proposal := v), OnPropose(cfg, n, v).(proposal := v))
    ensures OnPropose(cfg, n, v).proposing ==> OnPropose(cfg, n, v).proposal == v
  {
    if cfg.me in cfg.members {
      ProposeMoves(cfg, n, v);
      MovedIsAdvanced(cfg, n.(proposing := true, timer := true, proposal := v), OnPropose(cfg, n, v));
    }
  }

  lemma DrivenOne(fired: seq<Fired>, f: Fired)
    ensures Driven(fired + [f]) == Driven(fired) + (if f.direct then [] else [f.outcome])
  {
    assert (fired + [f])[..|fired|] == fired;
  }

  lemma StillSays(cfg: Config, n: Node, n': Node, id: nat, o: Outcome)
    requires Says(cfg, n, id, o) && n.executed <= n'.executed
    ensures Says(cfg, n', id, o)
  {
    if o == Done {
      var x :| 0 <= x < |n.executed| && n.executed[x].id == id;
      assert n'.executed[x] == n.executed[x];
    } else if o == Conflict {
      var x :| 0 <= x < |n.executed| && n.executed[x].id != id;
      assert n'.executed[x] == n.executed[x];
    }
  }

  lemma StillTruthful(cfg: Config, d: Driver, n': Node)
    requires Truthful(cfg, d) && d.node.executed <= n'.executed
    ensures Truthful(cfg, d.(node := n'))
  {
    forall k | 0 <= k < |d.q.fired| && !d.q.fired[k].direct
      ensures Says(cfg, n', d.accepted[k].v.id, d.q.fired[k].outcome)
    {
      StillSays(cfg, d.node, n', d.accepted[k].v.id, d.q.fired[k].outcome);
    }
  }

  lemma OfferOk(cfg: Config, capacity: nat, d: Driver, h: Handler)
    requires QueueInv(cfg, capacity, d) && HasRoom(capacity, d.q)
    ensures QueueInv(cfg, capacity, Driver(d.node, WithHandler(d.q, h), d.accepted + [h]))
  {
    var d' := Driver(d.node, WithHandler(d.q, h), d.accepted + [h]);
    var k := |d.q.fired|;
    assert Answered(d') && Truthful(cfg, d');
    if d.q.lastFinished {
      assert d'.accepted[k + 1..] == [];
    } else {
      assert d'.accepted[k + 1..] == d.accepted[k + 1..] + [h];
    }
  }

  /** The state before a completion: the current proposal has left the io loop. */
  predicate InHand(d: Driver) {
    && !d.q.lastFinished
    && |d.q.fired| < |d.accepted|
    && d.q.waiting == d.accepted[|d.q.fired| + 1..]
    && d.q.io == []
  }

  ghost predicate Settled(cfg: Config, d: Driver, n': Node, f: Fired) {
    && |d.q.fired| < |d.accepted| && LocalInv(n') && !n'.proposing
    && d.node.executed <= n'.executed
    && n'.done == d.node.done + (if f.direct then [] else [f.outcome])
    && (if f.direct then f.outcome == Conflict && d.accepted[|d.q.fired|].master
        else Says(cfg, n', d.accepted[|d.q.fired|].v.id, f.outcome))
  }

  lemma CompleteAnswers(d: Driver, n': Node, o: Outcome, direct: bool)
    requires Answered(d) && InHand(d) && CanComplete(d.q)
    requires n'.done == d.node.done + (if direct then [] else [o])
    ensures Answered(Driver(n', Complete(d.q, o, direct), d.accepted))
  {
    DrivenOne(d.q.fired, Fired(d.q.cbs[0], o, direct));
    var d' := Driver(n', Complete(d.q, o, direct), d.accepted);
    forall x | 0 <= x < |d'.q.cbs| ensures d'.q.cbs[x] == d'.accepted[|d'.q.fired| + x].cb {
      assert d'.q.cbs[x] == d.q.cbs[x + 1];
    }
  }

  lemma CompleteIsTruthful(cfg: Config, d: Driver, n': Node, o: Outcome, direct: bool)
    requires Answered(d) && Truthful(cfg, d) && InHand(d) && CanComplete(d.q)
    requires Settled(cfg, d, n', Fired(d.accepted[|d.q.fired|].cb, o, direct))
    ensures Truthful(cfg, Driver(n', Complete(d.q, o, direct), d.accepted))
  {
    StillTruthful(cfg, d, n');
    var f := Fired(d.q.cbs[0], o, direct);
    assert forall x :: 0 <= x <= |d.q.fired| ==>
      (d.q.fired + [f])[x] == if x < |d.q.fired| then d.q.fired[x] else f;
  }

  lemma CompleteOk(cfg: Config, capacity: nat, d: Driver, n': Node, o: Outcome, direct: bool)
    requires Answered(d) && Truthful(cfg, d) && InHand(d) && Bounded(capacity, d)
    requires Settled(cfg, d, n', Fired(d.accepted[|d.q.fired|].cb, o, direct))
    ensures CanComplete(d.q)
    ensures QueueInv(cfg, capacity, Driver(n', Complete(d.q, o, direct), d.accepted))
  {
    var k := |d.q.fired|;
    CompleteAnswers(d, n', o, direct);
    CompleteIsTruthful(cfg, d, n', o, direct);
    var d' := Driver(n', Complete(d.q, o, direct), d.accepted);
    if d.q.waiting != [] {
      assert d.q.waiting[0] == d.accepted[k + 1];
      assert d.q.waiting[1..] == d.accepted[k + 2..];
      assert d'.q.io == [d.accepted[k + 1]];
    }
  }

  /** A step that settles nothing keeps what is known, node aside. */
  lemma CarryOn(cfg: Config, capacity: nat, d: Driver, n': Node)
    requires QueueInv(cfg, capacity, d) && Advanced(cfg, d.node, n') && |n'.done| == |d.node.done|
    ensures QueueInv(cfg, capacity, d.(node := n'))
  {
    assert n'.done == d.node.done && n'.proposing == d.node.proposing;
    StillTruthful(cfg, d, n');
  }

  lemma OtherEventOk(cfg: Config, capacity: nat, d: Driver, e: Event)
    requires QueueInv(cfg, capacity, d) && Enabled(d, e) && !e.Offer? && !e.Run?
    ensures AssertsHold(cfg, d, e) && QueueInv(cfg, capacity, After(cfg, capacity, d, e))
  {
    NodeAdvances(cfg, d, e);
    var n' := NodeAfter(cfg, d, e);
    if |n'.done| > |d.node.done| {
      assert d.node.proposing && InHand(d);
      var o := n'.done[|d.node.done|];
      assert n'.done == d.node.done + [o];
      CompleteOk(cfg, capacity, d, n', o, false);
    } else {
      CarryOn(cfg, capacity, d, n');
    }
  }

  /** The io loop takes the one handler out. */
  function Taken(d: Driver): Driver {
    d.(q := d.q.(io := []))
  }

  lemma TakenIsInHand(cfg: Config, capacity: nat, d: Driver)
    requires QueueInv(cfg, capacity, d) && d.q.io != []
    ensures !d.node.proposing && !d.q.lastFinished && |d.q.fired| < |d.accepted| && d.q.io == [d.accepted[|d.q.fired|]]
    ensures InHand(Taken(d)) && Answered(Taken(d)) && Truthful(cfg, Taken(d)) && Bounded(capacity, Taken(d))
  {
  }

  lemma RefusedOk(cfg: Config, capacity: nat, d: Driver, e: Event)
    requires QueueInv(cfg, capacity, d) && Enabled(d, e) && e.Run? && !Enters(d, e)
    ensures AssertsHold(cfg, d, e) && QueueInv(cfg, capacity, After(cfg, capacity, d, e))
  {
    TakenIsInHand(cfg, capacity, d);
    assert d.node.done + [] == d.node.done;
    CompleteOk(cfg, capacity, Taken(d), d.node, Conflict, true);
    TakeCommutes(d.q, Conflict, true);
  }

  lemma EnteredOk(cfg: Config, capacity: nat, d: Driver, e: Event)
    requires QueueInv(cfg, capacity, d) && Enabled(d, e) && Enters(d, e)
    ensures AssertsHold(cfg, d, e) && QueueInv(cfg, capacity, After(cfg, capacity, d, e))
  {
    TakenIsInHand(cfg, capacity, d);
    ProposalAdvances(cfg, d.node, d.accepted[|d.q.fired|].v);
    var n' := NodeAfter(cfg, d, e);
    if |n'.done| > |d.node.done| {
      var o := n'.done[|d.node.done|];
      assert n'.done == d.node.done + [o];
      CompleteOk(cfg, capacity, Taken(d), n', o, false);
      TakeCommutes(d.q, o, false);
    } else {
      NowProposing(cfg, capacity, d, n');
    }
  }

  lemma NowProposing(cfg: Config, capacity: nat, d: Driver, n': Node)
    requires QueueInv(cfg, capacity, d) && d.q.io != [] && LocalInv(n') && d.node.executed <= n'.executed
    requires n'.done == d.node.done && n'.proposing && n'.proposal == d.q.io[0].v && cfg.me in cfg.members
    ensures QueueInv(cfg, capacity, d.(node := n', q := d.q.(io := d.q.io[1..])))
  {
    TakenIsInHand(cfg, capacity, d);
    StillTruthful(cfg, Taken(d), n');
    assert d.q.io[1..] == [];
  }

  lemma RunOk(cfg: Config, capacity: nat, d: Driver, e: Event)
    requires QueueInv(cfg, capacity, d) && Enabled(d, e) && e.Run?
    ensures AssertsHold(cfg, d, e) && QueueInv(cfg, capacity, After(cfg, capacity, d, e))
  {
    if Enters(d, e) {
      EnteredOk(cfg, capacity, d, e);
    } else {
      RefusedOk(cfg, capacity, d, e);
    }
  }

  lemma TakeCommutes(q: QueueState, o: Outcome, direct: bool)
    requires |q.io| == 1 && CanComplete(q)
    ensures Complete(q, o, direct).io[1..] == Complete(q.(io := []), o, direct).io
    ensures Complete(q, o, direct).(io := Complete(q, o, direct).io[1..]) == Complete(q.(io := []), o, direct)
  {
  }

  lemma EventOk(cfg: Config, capacity: nat, d: Driver, e: Event)
    requires QueueInv(cfg, capacity, d) && Enabled(d, e)
    ensures AssertsHold(cfg, d, e) && QueueInv(cfg, capacity, After(cfg, capacity, d, e))
  {
    match e
    case Offer(h) =>
      if HasRoom(capacity, d.q) {
        OfferOk(cfg, capacity, d, h);
      }
    case Run(_) => RunOk(cfg, capacity, d, e);
    case _ => OtherEventOk(cfg, capacity, d, e);
  }

  ghost predicate Kept(cfg: Config, capacity: nat, d: Driver, d': Driver) {
    QueueInv(cfg, capacity, d) ==> QueueInv(cfg, capacity, d')
  }

  lemma {:induction false} KeptAlong(cfg: Config, capacity: nat, ds: seq<Driver>, t: nat)
    requires t < |ds| && QueueInv(cfg, capacity, ds[0])
    requires forall i :: 0 <= i < t ==> Kept(cfg, capacity, ds[i], ds[i + 1])
    ensures QueueInv(cfg, capacity, ds[t])
  {
    if t > 0 {
      KeptAlong(cfg, capacity, ds, t - 1);
      assert Kept(cfg, capacity, ds[t - 1], ds[t - 1 + 1]);
    }
  }

  lemma RunKeepsQueueInv(cfg: Config, capacity: nat, ds: seq<Driver>, es: seq<Event>, t: nat)
    requires IsRun(cfg, capacity, ds, es) && t <= |es|
    ensures QueueInv(cfg, capacity, ds[t])
  {
    assert QueueInv(cfg, capacity, Driver(FRESH, EMPTY, []));
    forall i | 0 <= i < t ensures Kept(cfg, capacity, ds[i], ds[i + 1]) {
      assert Follows(cfg, capacity, ds[i], es[i], ds[i + 1]);
      if QueueInv(cfg, capacity, ds[i]) {
        EventOk(cfg, capacity, ds[i], es[i]);
      }
    }
    KeptAlong(cfg, capacity, ds, t);
  }

  /** Over every interleaving of offers, messages, time-outs and retries: no assertion of the driver
      or the queue fails, at most one proposal is out at a time, callback number k answers proposal
      number k, and its outcome is true: done was executed, a conflict is another's value, an error of
      the machines comes only where they can refuse. */
  lemma EveryRunAnswersInOrder(cfg: Config, capacity: nat, ds: seq<Driver>, es: seq<Event>, t: nat)
    requires IsRun(cfg, capacity, ds, es) && t < |es|
    ensures QueueInv(cfg, capacity, ds[t])
    ensures Enabled(ds[t], es[t]) && AssertsHold(cfg, ds[t], es[t])
    ensures ds[t + 1] == After(cfg, capacity, ds[t], es[t]) && QueueInv(cfg, capacity, ds[t + 1])
  {
    RunKeepsQueueInv(cfg, capacity, ds, es, t);
    assert Follows(cfg, capacity, ds[t], es[t], ds[t + 1]);
    EventOk(cfg, capacity, ds[t], es[t]);
  }

  /** The bound is one above the capacity, and it is reached. */
  lemma OneAboveCapacity(capacity: nat, h: Handler) returns (q: QueueState)
    requires capacity != 0
    ensures |q.waiting| == capacity + 1 && !HasRoom(capacity, q)
    ensures q == Filled(h, capacity + 2)
    ensures forall n: nat :: n < capacity + 2 ==> HasRoom(capacity, Filled(h, n))
  {
    forall n: nat ensures |Filled(h, n).waiting| == if n == 0 then 0 else n - 1 {
      FilledSize(h, n);
    }
    FilledSize(h, capacity + 2);
    q := Filled(h, capacity + 2);
  }

  /** The queue after `n` offers in a row. */
  function Filled(h: Handler, n: nat): QueueState {
    if n == 0 then EMPTY else WithHandler(Filled(h, n - 1), h)
  }

  lemma {:induction false} FilledSize(h: Handler, n: nat)
    ensures |Filled(h, n).waiting| == (if n == 0 then 0 else n - 1)
    ensures Filled(h, n).lastFinished == (n == 0)
  {
    if n > 0 {
      FilledSize(h, n - 1);
    }
  }
}
