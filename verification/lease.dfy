/** The master lease. Nodes bid for it through the agreed log and measure it against a clock they share;
    whoever's bid is executed is master until the lease runs out. */
module Lease {
  import opened Messages

  /** `lease` is when the mastership ends on the holder's clock; node 0 is nobody. */
  datatype MasterState = MasterState(node: nat, lease: nat, version: nat)

  /** What a bid carries: who bids, and for how long. */
  datatype Bid = Bid(node: nat, lease: nat)

  /** `context` is the time of the bid, known only where the proposal is still waiting. */
  function AfterBid(m: MasterState, inst: nat, bid: Bid, context: Option<nat>, now: nat): MasterState {
    if inst <= m.version then m
    else MasterState(bid.node, (if context.Some? then context.value else now) + bid.lease, inst)
  }

  predicate MayBid(m: MasterState, me: nat, now: nat) {
    m.lease <= now || m.node == me
  }

  predicate Masters(m: MasterState, me: nat, now: nat) {
    m.node == me && m.lease > now
  }

  /** A bid takes effect once: handing it over again, or any earlier one, changes nothing. */
  lemma ClaimedOnce(m: MasterState, inst: nat, bid: Bid, context: Option<nat>, now: nat, again: nat, other: Bid,
                    later: nat)
    requires inst > m.version && again <= inst
    ensures AfterBid(AfterBid(m, inst, bid, context, now), again, other, None, later) ==
            AfterBid(m, inst, bid, context, now)
  {
  }

  class MasterMachine {
    const me: nat
    var state: MasterState

    /** `value` is None where the value does not parse. */
    method Execute(inst: nat, value: Option<Bid>, context: Option<nat>, now: nat) returns (ok: bool)
      modifies this
      ensures ok == (inst > old(state).version && value.Some?)
      ensures state == if ok then AfterBid(old(state), inst, value.value, context, now) else old(state)
    {
      if inst <= state.version || value.None? {
        return false;
      }
      var s := MasterState(value.value.node, value.value.lease, inst);
      if context.Some? {
        s := s.(lease := context.value + s.lease);
      } else {
        s := s.(lease := now + s.lease);
      }
      state := s;
      return true;
    }

    method IsMaster(now: nat) returns (r: bool)
      ensures r == Masters(state, me, now)
    {
      return state.node == me && state.lease > now;
    }
  }

  // ------------------------------------------------------------ the group

  /** A decided value: something else, or bid number `id`, made by `node` at time `at`. */
  datatype Entry = Other | Claim(id: nat, node: nat, at: nat)

  /** `waiting` is the bid whose proposal has not completed. */
  datatype Member = Member(executed: nat, master: MasterState, waiting: Option<Entry>)

  /** `bids` are all bids ever made, each with the log position it was proposed for. */
  datatype Group = Group(time: nat, log: seq<Entry>, bids: seq<(nat, Entry)>, nodes: map<nat, Member>)

  datatype Event =
    | Tick(d: nat)
    | TryBeMaster(i: nat)
    | Decide(e: Entry)
    | Execute(i: nat)
    | TimeOut(i: nat)

  /** How long each node's lease is, and whether runs are `prompt`: no node executes a bid of its own
      that it is no longer waiting for. */
  datatype Setting = Setting(leases: nat -> nat, prompt: bool)

  predicate Own(i: nat, e: Entry) {
    e.Claim? && e.node == i
  }

  predicate Enabled(x: Setting, g: Group, v: Event) {
    match v
    case Tick(_) => true
    case TryBeMaster(i) => i in g.nodes && g.nodes[i].waiting.None? && MayBid(g.nodes[i].master, i, g.time)
    case Decide(e) => e.Other? || (|g.log|, e) in g.bids
    case Execute(i) =>
      && i in g.nodes && g.nodes[i].executed < |g.log|
      && (x.prompt && Own(i, g.log[g.nodes[i].executed]) ==> g.nodes[i].waiting == Some(g.log[g.nodes[i].executed]))
    case TimeOut(i) => i in g.nodes
  }

  /** Executing also settles a waiting bid: as its own, or as a conflict. */
  function Executed(x: Setting, n: Member, e: Entry, now: nat): Member {
    var context := if e.Claim? && n.waiting == Some(e) then Some(e.at) else None;
    Member(n.executed + 1,
           if e.Claim? then AfterBid(n.master, n.executed + 1, Bid(e.node, x.leases(e.node)), context,
               now) else n.master,
           None)
  }

  function After(x: Setting, g: Group, v: Event): Group
    requires Enabled(x, g, v)
  {
    match v
    case Tick(d) => g.(time := g.time + d)
    case TryBeMaster(i) =>
      var e := Claim(|g.bids|, i, g.time);
      g.(bids := g.bids + [(g.nodes[i].executed, e)], nodes := g.nodes[i := g.nodes[i].(waiting := Some(e))])
    case Decide(e) => g.(log := g.log + [e])
    case Execute(i) => g.(nodes := g.nodes[i := Executed(x, g.nodes[i], g.log[g.nodes[i].executed], g.time)])
    case TimeOut(i) => g.(nodes := g.nodes[i := g.nodes[i].(waiting := None)])
  }

  const NOBODY := Member(0, MasterState(0, 0, 0), None)

  function Start(members: set<nat>): Group {
    Group(0, [], [], map i | i in members :: NOBODY)
  }

  ghost predicate IsRun(x: Setting, members: set<nat>, gs: seq<Group>, vs: seq<Event>) {
    && 0 !in members
    && |gs| == |vs| + 1 && gs[0] == Start(members)
    && forall t :: 0 <= t < |vs| ==> Follows(x, gs[t], vs[t], gs[t + 1])
  }

  ghost predicate Follows(x: Setting, g: Group, v: Event, g': Group) {
    Enabled(x, g, v) && g' == After(x, g, v)
  }

  predicate IsMaster(g: Group, i: nat) {
    i in g.nodes && Masters(g.nodes[i].master, i, g.time)
  }

  ghost predicate OneMaster(g: Group) {
    forall i, j :: IsMaster(g, i) && IsMaster(g, j) ==> i == j
  }

  // ------------------------------------------------------------ what prompt runs keep

  function OwnEnd(x: Setting, e: Entry): nat
    requires e.Claim?
  {
    e.at + x.leases(e.node)
  }

  /** The bid was made after the lease of any other node's earlier claim was over. */
  predicate Clears(x: Setting, e: Entry, f: Entry)
    requires f.Claim?
  {
    e.Claim? ==> e.at <= f.at && (e.node != f.node ==> OwnEnd(x, e) <= f.at)
  }

  predicate BidOk(x: Setting, g: Group, p: nat, f: Entry) {
    && f.Claim? && f.at <= g.time && p <= |g.log|
    && forall m :: 0 <= m < p ==> Clears(x, g.log[m], f)
  }

  predicate BidsOk(x: Setting, g: Group) {
    forall b :: 0 <= b < |g.bids| ==> BidOk(x, g, g.bids[b].0, g.bids[b].1)
  }

  predicate LogOk(g: Group) {
    forall k: nat :: k < |g.log| && g.log[k].Claim? ==> (k, g.log[k]) in g.bids
  }

  /** `l` is the last claim among the first `n` entries. */
  predicate IsLastClaim(log: seq<Entry>, n: nat, l: nat) {
    l < n <= |log| && log[l].Claim? && forall m :: l < m < n ==> log[m].Other?
  }

  predicate NoClaim(log: seq<Entry>, n: nat) {
    n <= |log| && forall m :: 0 <= m < n ==> log[m].Other?
  }

  /** The node holds the last claim it executed: its own to the moment it ends, another's no shorter
      than its owner does. */
  ghost predicate HoldsLast(x: Setting, g: Group, i: nat, l: nat) {
    && i in g.nodes
    && IsLastClaim(g.log, g.nodes[i].executed, l)
    && g.nodes[i].master.node == g.log[l].node
    && g.nodes[i].master.lease >= OwnEnd(x, g.log[l])
    && (g.log[l].node == i ==> g.nodes[i].master.lease == OwnEnd(x, g.log[l]))
  }

  ghost predicate NodeOk(x: Setting, g: Group, i: nat)
    requires i in g.nodes
  {
    var n := g.nodes[i];
    && i != 0 && n.executed <= |g.log| && n.master.version <= n.executed
    && ((NoClaim(g.log, n.executed) && n.master.node == 0) || exists l :: HoldsLast(x, g, i, l))
  }

  ghost predicate Inv(x: Setting, g: Group) {
    && BidsOk(x, g) && LogOk(g)
    && forall i :: i in g.nodes ==> NodeOk(x, g, i)
  }

  lemma LogClears(x: Setting, g: Group, m: nat, k: nat)
    requires BidsOk(x, g) && LogOk(g) && m < k < |g.log| && g.log[k].Claim?
    ensures Clears(x, g.log[m], g.log[k]) && g.log[k].at <= g.time
  {
    assert (k, g.log[k]) in g.bids;
    var b :| 0 <= b < |g.bids| && g.bids[b] == (k, g.log[k]);
    assert BidOk(x, g, g.bids[b].0, g.bids[b].1);
  }

  lemma LogInPast(x: Setting, g: Group, k: nat)
    requires BidsOk(x, g) && LogOk(g) && k < |g.log| && g.log[k].Claim?
    ensures g.log[k].at <= g.time
  {
    assert (k, g.log[k]) in g.bids;
    var b :| 0 <= b < |g.bids| && g.bids[b] == (k, g.log[k]);
    assert BidOk(x, g, g.bids[b].0, g.bids[b].1);
  }

  /** A node that may bid has seen every other node's claim run out. */
  lemma BidClears(x: Setting, g: Group, i: nat, m: nat)
    requires Inv(x, g) && i in g.nodes && MayBid(g.nodes[i].master, i, g.time) && m < g.nodes[i].executed
    ensures m < |g.log| && Clears(x, g.log[m], Claim(|g.bids|, i, g.time))
  {
    assert NodeOk(x, g, i);
    if g.log[m].Claim? {
      LogInPast(x, g, m);
      var l :| HoldsLast(x, g, i, l);
      LogInPast(x, g, l);
      if m < l {
        LogClears(x, g, m, l);
      }
    }
  }

  lemma TryOk(x: Setting, g: Group, i: nat)
    requires Inv(x, g) && Enabled(x, g, TryBeMaster(i))
    ensures Inv(x, After(x, g, TryBeMaster(i)))
  {
    var g' := After(x, g, TryBeMaster(i));
    var e := Claim(|g.bids|, i, g.time);
    assert BidOk(x, g', g.nodes[i].executed, e) by {
      assert NodeOk(x, g, i);
      forall m | 0 <= m < g.nodes[i].executed ensures Clears(x, g'.log[m], e) {
        BidClears(x, g, i, m);
      }
    }
    forall b | 0 <= b < |g'.bids| ensures BidOk(x, g', g'.bids[b].0, g'.bids[b].1) {
      if b < |g.bids| {
        assert BidOk(x, g, g.bids[b].0, g.bids[b].1);
      }
    }
    forall j | j in g'.nodes ensures NodeOk(x, g', j) {
      SameNode(x, g, g', j);
    }
  }

  lemma SameNode(x: Setting, g: Group, g': Group, j: nat)
    requires j in g.nodes && NodeOk(x, g, j) && j in g'.nodes && g.log <= g'.log
    requires g'.nodes[j].executed == g.nodes[j].executed && g'.nodes[j].master == g.nodes[j].master
    ensures NodeOk(x, g', j)
  {
    if !NoClaim(g.log, g.nodes[j].executed) || g.nodes[j].master.node != 0 {
      var l :| HoldsLast(x, g, j, l);
      assert HoldsLast(x, g', j, l);
    }
  }

  lemma DecideOk(x: Setting, g: Group, e: Entry)
    requires Inv(x, g) && Enabled(x, g, Decide(e))
    ensures Inv(x, After(x, g, Decide(e)))
  {
    var g' := After(x, g, Decide(e));
    forall b | 0 <= b < |g'.bids| ensures BidOk(x, g', g'.bids[b].0, g'.bids[b].1) {
      assert BidOk(x, g, g.bids[b].0, g.bids[b].1);
    }
    forall k: nat | k < |g'.log| && g'.log[k].Claim? ensures (k, g'.log[k]) in g'.bids {
      if k < |g.log| {
        assert (k, g.log[k]) in g.bids;
      }
    }
    forall j | j in g'.nodes ensures NodeOk(x, g', j) {
      SameNode(x, g, g', j);
    }
  }

  lemma ExecutedOk(x: Setting, g: Group, i: nat)
    requires Inv(x, g) && x.prompt && Enabled(x, g, Execute(i))
    ensures NodeOk(x, After(x, g, Execute(i)), i)
  {
    var g' := After(x, g, Execute(i));
    var n := g.nodes[i];
    var e := g.log[n.executed];
    assert NodeOk(x, g, i);
    if e.Claim? {
      LogInPast(x, g, n.executed);
      assert HoldsLast(x, g', i, n.executed);
    } else if exists l :: HoldsLast(x, g, i, l) {
      var l :| HoldsLast(x, g, i, l);
      assert HoldsLast(x, g', i, l);
    } else {
      assert NoClaim(g'.log, n.executed + 1);
    }
  }

  lemma EventOk(x: Setting, g: Group, v: Event)
    requires Inv(x, g) && x.prompt && Enabled(x, g, v)
    ensures Inv(x, After(x, g, v))
  {
    var g' := After(x, g, v);
    match v
    case TryBeMaster(i) => TryOk(x, g, i);
    case Decide(e) => DecideOk(x, g, e);
    case Execute(i) =>
      ExecutedOk(x, g, i);
      LaterOk(x, g, g', i);
    case Tick(_) => LaterOk(x, g, g', 0);
    case TimeOut(i) =>
      SameNode(x, g, g', i);
      LaterOk(x, g, g', i);
  }

  /** Only the clock and node `i` changed. */
  lemma LaterOk(x: Setting, g: Group, g': Group, i: nat)
    requires Inv(x, g) && g'.log == g.log && g'.bids == g.bids && g'.time >= g.time && g'.nodes.Keys == g.nodes.Keys
    requires forall j :: j in g.nodes && j != i ==> g'.nodes[j] == g.nodes[j]
    requires i in g.nodes ==> NodeOk(x, g', i)
    ensures Inv(x, g')
  {
    forall b | 0 <= b < |g'.bids| ensures BidOk(x, g', g'.bids[b].0, g'.bids[b].1) {
      assert BidOk(x, g, g.bids[b].0, g.bids[b].1);
    }
    forall j | j in g'.nodes ensures NodeOk(x, g', j) {
      if j != i {
        SameNode(x, g, g', j);
      }
    }
  }

  lemma {:induction false} PromptRunKeepsInv(x: Setting, members: set<nat>, gs: seq<Group>, vs: seq<Event>, t: nat)
    requires x.prompt && IsRun(x, members, gs, vs) && t <= |vs|
    ensures Inv(x, gs[t])
    decreases t
  {
    if t > 0 {
      PromptRunKeepsInv(x, members, gs, vs, t - 1);
      assert Follows(x, gs[t - 1], vs[t - 1], gs[t - 1 + 1]);
      EventOk(x, gs[t - 1], vs[t - 1]);
    }
  }

  lemma OwnClaim(x: Setting, g: Group, i: nat) returns (l: nat)
    requires Inv(x, g) && IsMaster(g, i)
    ensures l < |g.log| && g.log[l].Claim? && g.log[l].node == i && OwnEnd(x, g.log[l]) > g.time &&
        g.log[l].at <= g.time
  {
    assert NodeOk(x, g, i);
    l :| HoldsLast(x, g, i, l);
    LogInPast(x, g, l);
  }

  lemma InvMeansOneMaster(x: Setting, g: Group)
    requires Inv(x, g)
    ensures OneMaster(g)
  {
    forall i, j | IsMaster(g, i) && IsMaster(g, j) ensures i == j {
      var l := OwnClaim(x, g, i);
      var m := OwnClaim(x, g, j);
      if l < m {
        LogClears(x, g, l, m);
      } else if m < l {
        LogClears(x, g, m, l);
      }
    }
  }

  // ------------------------------------------------------------ renewing

  /** The master bids again, the bid is decided next, and the master executes it. */
  function Renewal(g: Group, i: nat): seq<Event> {
    [TryBeMaster(i), Decide(Claim(|g.bids|, i, g.time)), Execute(i)]
  }

  /** A master that has executed everything may renew before its lease is over, stays master all the while,
      and then holds the lease for a whole term from its bid. */
  lemma MasterRenews(x: Setting, g: Group, i: nat)
    requires Inv(x, g) && IsMaster(g, i) && g.nodes[i].waiting.None? && g.nodes[i].executed == |g.log|
    ensures var vs := Renewal(g, i);
      && Enabled(x, g, vs[0]) && Enabled(x, After(x, g, vs[0]), vs[1])
      && Enabled(x, After(x, After(x, g, vs[0]), vs[1]), vs[2])
      && IsMaster(After(x, g, vs[0]), i) && IsMaster(After(x, After(x, g, vs[0]), vs[1]), i)
      && var g' := After(x, After(x, After(x, g, vs[0]), vs[1]), vs[2]);
         g'.nodes[i].master.node == i && g'.nodes[i].master.lease == g.time + x.leases(i)
  {
    assert NodeOk(x, g, i);
    var e := Claim(|g.bids|, i, g.time);
    var g1 := After(x, g, TryBeMaster(i));
    assert g1.bids[|g.bids|] == (|g.log|, e);
  }

  /** A node that has seen the lease run out may bid, and becomes master when its bid is decided next. */
  lemma FreeLeaseIsTaken(x: Setting, g: Group, i: nat)
    requires Inv(x, g) && i in g.nodes && g.nodes[i].waiting.None? && g.nodes[i].executed == |g.log|
    requires g.nodes[i].master.lease <= g.time && x.leases(i) > 0
    ensures var vs := Renewal(g, i);
      && Enabled(x, g, vs[0]) && Enabled(x, After(x, g, vs[0]), vs[1])
      && Enabled(x, After(x, After(x, g, vs[0]), vs[1]), vs[2])
      && IsMaster(After(x, After(x, After(x, g, vs[0]), vs[1]), vs[2]), i)
  {
    assert NodeOk(x, g, i);
    var g1 := After(x, g, TryBeMaster(i));
    assert g1.bids[|g.bids|] == (|g.log|, Claim(|g.bids|, i, g.time));
  }

  // ------------------------------------------------------------ where it fails

  ghost predicate AlwaysOneMaster(x: Setting) {
    forall members: set<nat>, gs: seq<Group>, vs: seq<Event> ::
      IsRun(x, members, gs, vs) ==> forall t :: 0 <= t < |gs| ==> OneMaster(gs[t])
  }

  /** Node 1 bids and gives up, node 2 sees the bid decided and its lease run out and becomes master,
      and only then does node 1 execute its own bid, counting the lease from now. */
  function LateRun(x: Setting): seq<Event> {
    [TryBeMaster(1), TimeOut(1), Decide(Claim(0, 1, 0)), Execute(2), Tick(x.leases(1)),
     TryBeMaster(2), Decide(Claim(1, 2, x.leases(1))), Execute(2), Execute(1)]
  }

  function Pair(a: Member, b: Member): map<nat, Member> {
    map[1 := a, 2 := b]
  }

  /** The states the late run goes through, `l` and `k` being the two lease times. */
  function LateState(l: nat, k: nat, t: nat): Group
    requires t <= 9
  {
    var a, b := Claim(0, 1, 0), Claim(1, 2, l);
    var follower := Member(1, MasterState(1, l, 1), None);
    var master := Member(2, MasterState(2, l + k, 2), None);
    if t == 0 then Group(0, [], [], Pair(NOBODY, NOBODY))
    else if t == 1 then Group(0, [], [(0, a)], Pair(NOBODY.(waiting := Some(a)), NOBODY))
    else if t == 2 then Group(0, [], [(0, a)], Pair(NOBODY, NOBODY))
    else if t == 3 then Group(0, [a], [(0, a)], Pair(NOBODY, NOBODY))
    else if t == 4 then Group(0, [a], [(0, a)], Pair(NOBODY, follower))
    else if t == 5 then Group(l, [a], [(0, a)], Pair(NOBODY, follower))
    else if t == 6 then Group(l, [a], [(0, a), (1, b)], Pair(NOBODY, follower.(waiting := Some(b))))
    else if t == 7 then Group(l, [a, b], [(0, a), (1, b)], Pair(NOBODY, follower.(waiting := Some(b))))
    else if t == 8 then Group(l, [a, b], [(0, a), (1, b)], Pair(NOBODY, master))
    else Group(l, [a, b], [(0, a), (1, b)], Pair(Member(1, MasterState(1, l + l, 1), None), master))
  }

  lemma LateFollowsFirst(x: Setting, t: nat)
    requires !x.prompt && t < 4
    ensures Follows(x, LateState(x.leases(1), x.leases(2), t), LateRun(x)[t], LateState(x.leases(1), x.leases(2),
        t + 1))
  {
  }

  lemma LateFollowsLast(x: Setting, t: nat)
    requires !x.prompt && 4 <= t < 9
    ensures Follows(x, LateState(x.leases(1), x.leases(2), t), LateRun(x)[t], LateState(x.leases(1), x.leases(2),
        t + 1))
  {
  }

  /** There is never more than one master exactly where no node executes its own bid after giving up on
      it: that execution counts the lease from the time it runs instead of the time of the bid. */
  lemma OneMasterIffPrompt(x: Setting)
    requires x.leases(1) > 0 && x.leases(2) > 0
    ensures AlwaysOneMaster(x) <==> x.prompt
  {
    if x.prompt {
      forall members: set<nat>, gs: seq<Group>, vs: seq<Event>, t | IsRun(x, members, gs, vs) && 0 <= t < |gs|
        ensures OneMaster(gs[t])
      {
        PromptRunKeepsInv(x, members, gs, vs, t);
        InvMeansOneMaster(x, gs[t]);
      }
    } else {
      var l, k, vs := x.leases(1), x.leases(2), LateRun(x);
      var gs := seq(10, t requires 0 <= t < 10 => LateState(l, k, t));
      forall t | 0 <= t < |vs| ensures Follows(x, gs[t], vs[t], gs[t + 1]) {
        if t < 4 {
          LateFollowsFirst(x, t);
        } else {
          LateFollowsLast(x, t);
        }
      }
      assert Start({1, 2}).nodes == Pair(NOBODY, NOBODY);
      assert IsRun(x, {1, 2}, gs, vs);
      assert IsMaster(gs[9], 1) && IsMaster(gs[9], 2);
    }
  }
}
