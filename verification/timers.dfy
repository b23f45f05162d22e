/** The timers of a run loop: two collections that must agree, and a pass that fires what is due. */
module Timers {
  import opened Messages

  /** The ordered collection a table of deadlines stands for. */
  function Index(value: map<nat, nat>): set<(nat, nat)> {
    set t | t in value :: (value[t], t)
  }

  /** A deadline moved back together with the clock. */
  function Rebased(value: nat, diff: nat): nat {
    if value > diff then value - diff else 0
  }

  function RebasedAll(value: map<nat, nat>, diff: nat): map<nat, nat> {
    map t | t in value :: Rebased(value[t], diff)
  }

  /** A deadline moved back with the clock is as far away as it was, and one that had passed is still due. */
  lemma RebaseKeepsWait(value: nat, last: nat, now: nat)
    requires now < last
    ensures value >= last ==> Rebased(value, SetBack(last, now)) - now == value - last
    ensures value < last ==> Rebased(value, SetBack(last, now)) <= now
  {
  }

  /** How far the clock went back since the last pass. */
  function SetBack(last: nat, now: nat): nat {
    if now < last then last - now else 0
  }

  /** What a callback does to the list. */
  datatype Op = Add(value: nat, interval: nat) | Drop(timer: nat)

  predicate Later(ops: seq<Op>, now: nat) {
    forall j :: 0 <= j < |ops| && ops[j].Add? ==> ops[j].value > now
  }

  /** From the `calm`-th callback on none adds a timer that is already due. */
  ghost predicate LaterFrom(script: nat -> seq<Op>, calm: nat, now: nat) {
    forall k: nat :: k >= calm ==> Later(script(k), now)
  }

  ghost predicate AddsLater(script: nat -> seq<Op>, now: nat) {
    LaterFrom(script, 0, now)
  }

  predicate Drops(ops: seq<Op>, t: nat) {
    exists j :: 0 <= j < |ops| && ops[j] == Drop(t)
  }

  predicate DropsIn(script: nat -> seq<Op>, n: nat, t: nat) {
    exists i: nat :: i < n && Drops(script(i), t)
  }

  predicate Due(value: map<nat, nat>, now: nat, t: nat) {
    t in value && value[t] <= now
  }

  function DueSet(value: map<nat, nat>, now: nat): set<nat> {
    set t | t in value && value[t] <= now
  }

  /** The tables agree but for timer `t`. */
  predicate SameBut(a: map<nat, nat>, b: map<nat, nat>, t: nat) {
    && a.Keys - {t} == b.Keys - {t}
    && forall q :: q in a && q in b && q != t ==> a[q] == b[q]
  }

  lemma IndexWithout(value: map<nat, nat>, t: nat)
    requires t in value
    ensures Index(value - {t}) == Index(value) - {(value[t], t)}
  {
    forall p | p in Index(value) - {(value[t], t)} ensures p in Index(value - {t}) {
      assert p.1 in value - {t};
    }
  }

  lemma IndexWith(value: map<nat, nat>, t: nat, v: nat)
    requires t in value
    ensures Index(value[t := v]) == Index(value) - {(value[t], t)} + {(v, t)}
  {
    var w := value[t := v];
    forall p | p in Index(value) - {(value[t], t)} ensures p in Index(w) {
      assert p.1 in w && w[p.1] == p.0;
    }
    assert t in w;
  }

  lemma {:induction false} Earliest(s: set<(nat, nat)>) returns (p: (nat, nat))
    requires s != {}
    ensures p in s && forall q :: q in s ==> p.0 <= q.0
    decreases s
  {
    p :| p in s;
    if s - {p} != {} {
      var r := Earliest(s - {p});
      if r.0 < p.0 {
        p := r;
      }
    }
  }

  class TimerList {
    var timers: set<(nat, nat)>
    var timerPtrs: set<nat>
    var value: map<nat, nat>
    var interval: map<nat, nat>
    var lastTimeOut: nat
    var next: nat

    /** Every live timer is listed once, under its current deadline. */
    ghost predicate Valid()
      reads this
    {
      && value.Keys == timerPtrs && interval.Keys == timerPtrs
      && timers == Index(value)
      && forall t :: t in timerPtrs ==> t < next
    }

    constructor (now: nat)
      ensures Valid() && value == map[] && lastTimeOut == now
    {
      timers, timerPtrs, value, interval, lastTimeOut, next := {}, {}, map[], map[], now, 0;
    }

    method Insert(deadline: nat, every: nat) returns (t: nat)
      requires Valid()
      modifies this
      ensures Valid() && t == old(next) && next == t + 1 && lastTimeOut == old(lastTimeOut)
      ensures value == old(value)[t := deadline] && interval == old(interval)[t := every]
    {
      t := next;
      assert t !in timerPtrs;
      next := next + 1;
      value, interval := value[t := deadline], interval[t := every];
      timers := timers + {(deadline, t)};
      timerPtrs := timerPtrs + {t};
    }

    /** The handle's own deadline may be stale; the current one is looked up. */
    method Remove(t: nat)
      requires Valid()
      modifies this
      ensures Valid() && next == old(next) && lastTimeOut == old(lastTimeOut)
      ensures value == old(value) - {t} && interval == old(interval) - {t}
    {
      if t in timerPtrs {
        IndexWithout(value, t);
        timerPtrs := timerPtrs - {t};
        timers := timers - {(value[t], t)};
        value, interval := value - {t}, interval - {t};
      }
    }

    method TimeoutMs(now: nat) returns (wait: Option<nat>)
      requires Valid()
      ensures wait.None? <==> value == map[]
      ensures wait.Some? && now < lastTimeOut ==> wait.value == 0
      ensures wait.Some? && now >= lastTimeOut ==>
        && (forall t :: t in value ==> wait.value <= if value[t] <= now then 0 else value[t] - now)
        && (exists t :: t in value && wait.value == if value[t] <= now then 0 else value[t] - now)
    {
      if timers == {} {
        assert forall t :: t in value ==> (value[t], t) in timers;
        return None;
      }
      ghost var e := Earliest(timers);
      var first :| first in timers && forall q :: q in timers ==> first.0 <= q.0;
      assert forall t :: t in value ==> (value[t], t) in timers;
      assert first.1 in value && value[first.1] == first.0;
      if now < lastTimeOut {
        return Some(0);
      }
      return Some(if first.0 <= now then 0 else first.0 - now);
    }

    /** Moves every deadline back by `diff`. */
    method RebaseTimers(diff: nat)
      requires Valid()
      modifies this
      ensures Valid() && value == RebasedAll(old(value), diff)
      ensures interval == old(interval) && next == old(next) && lastTimeOut == old(lastTimeOut)
    {
      var left := timers;
      var moved: set<(nat, nat)> := {};
      while left != {}
        invariant left <= old(timers) && old(timers) == old(Index(value))
        invariant value.Keys == timerPtrs == old(timerPtrs) && interval == old(interval)
        invariant next == old(next) && lastTimeOut == old(lastTimeOut)
        invariant forall t :: t in value ==>
          value[t] == if (old(value)[t], t) in left then old(value)[t] else Rebased(old(value)[t], diff)
        invariant forall t :: t in value && (old(value)[t], t) !in left ==> (value[t], t) in moved
        invariant forall q :: q in moved ==> q.1 in value && (old(value)[q.1], q.1) !in left && value[q.1] == q.0
        decreases left
      {
        var p: (nat, nat) :| p in left;
        var v := if p.0 > diff then p.0 - diff else 0;
        value := value[p.1 := v];
        moved := moved + {(v, p.1)};
        left := left - {p};
      }
      timers := moved;
      assert timers == Index(value);
    }

    method RunOps(ops: seq<Op>)
      requires Valid()
      modifies this
      ensures Valid() && lastTimeOut == old(lastTimeOut) && next >= old(next)
      ensures Effects(old(value), old(interval), old(next), value, interval, ops)
    {
      var j := 0;
      assert ops[..0] == [];
      while j < |ops|
        invariant j <= |ops| && Valid() && lastTimeOut == old(lastTimeOut) && next >= old(next)
        invariant Effects(old(value), old(interval), old(next), value, interval, ops[..j])
      {
        ghost var v, i, n := value, interval, next;
        assert ops[..j + 1] == ops[..j] + [ops[j]];
        if ops[j].Add? {
          var t := Insert(ops[j].value, ops[j].interval);
        } else {
          Remove(ops[j].timer);
        }
        EffectsStep(old(value), old(interval), old(next), v, i, value, interval, ops[..j], ops[j], n);
        j := j + 1;
      }
      assert ops[..j] == ops;
    }

    /** Takes the earliest timer out if it is due; a repeating one goes back in after `now`. */
    method TakeDue(now: nat) returns (p: Option<(nat, nat)>)
      requires Valid()
      modifies this
      ensures Valid() && next == old(next) && lastTimeOut == old(lastTimeOut)
      ensures p.None? ==> value == old(value) && interval == old(interval) && forall t :: t in value ==> value[t] > now
      ensures p.Some? ==>
        var (v, t) := p.value;
        && t in old(value) && old(value)[t] == v <= now
        && (forall q :: q in old(value) ==> v <= old(value)[q])
        && SameBut(old(value), value, t)
        && (t in value <==> old(interval)[t] > 0)
        && interval == (if t in value then old(interval) else old(interval) - {t})
        && (t in value ==> value[t] == now + interval[t] > now)
    {
      if timers == {} {
        assert forall t :: t in value ==> (value[t], t) in timers;
        return None;
      }
      ghost var e := Earliest(timers);
      var first :| first in timers && forall q :: q in timers ==> first.0 <= q.0;
      assert forall t :: t in value ==> (value[t], t) in timers;
      if first.0 > now {
        return None;
      }
      var t := first.1;
      assert t in value && value[t] == first.0;
      timers := timers - {first};
      if interval[t] > 0 {
        IndexWith(value, t, now + interval[t]);
        value := value[t := now + interval[t]];
        timers := timers + {(value[t], t)};
      } else {
        IndexWithout(value, t);
        timerPtrs := timerPtrs - {t};
        value, interval := value - {t}, interval - {t};
      }
      return Some(first);
    }

    /** Fires until nothing is due; `script(k)` is what the k-th callback does. */
    method FireDue(now: nat, script: nat -> seq<Op>, ghost calm: nat) returns (fired: seq<(nat, nat)>)
      requires Valid() && LaterFrom(script, calm, now)
      modifies this
      ensures Valid() && lastTimeOut == old(lastTimeOut)
      ensures forall t :: t in value ==> value[t] > now
      ensures Distinct(fired)
      ensures Tended(old(value), old(interval), old(next), value, interval, now, fired, script)
      ensures AddsLater(script, now) ==> FiresDue(old(value), now, fired, script)
    {
      fired := [];
      var more := true;
      while more
        invariant Valid() && lastTimeOut == old(lastTimeOut) && Once(value, now, next, fired)
        invariant !more ==> forall t :: t in value ==> value[t] > now
        invariant next >= old(next) && Tended(old(value), old(interval), old(next), value, interval, now, fired, script)
        invariant AddsLater(script, now) ==> PassOk(old(value), value, now, fired, script)
        decreases more, if |fired| < calm then calm - |fired| else 0, DueSet(value, now)
      {
        ghost var v0, i0 := value, interval;
        var p := TakeDue(now);
        if p.None? {
          more := false;
        } else {
          ghost var v1, i1, n1 := value, interval, next;
          RunOps(script(|fired|));
          OnceStep(v0, v1, i1, value, interval, now, n1, next, fired, p.value, script(|fired|));
          if |fired| >= calm {
            DueShrinks(v0, v1, i1, value, interval, now, n1, p.value.1, script(|fired|));
          }
          if AddsLater(script, now) {
            CallbackIsOk(v1, i1, n1, value, interval, now, script, |fired|);
            PassStep(old(value), v0, v1, value, now, fired, p.value, script);
          }
          TendedStep(old(value), old(interval), old(next), v0, i0, v1, i1, n1, value, interval, now, fired, p.value,
                     script);
          fired := fired + [p.value];
        }
      }
    }

    /** The loop of a pass cut off after `n` turns, where each callback adds a timer with deadline `past`:
        there is always more to fire, so without a last such callback the pass does not end. */
    method FireOn(now: nat, past: nat, every: nat, n: nat) returns (fired: seq<(nat, nat)>)
      requires Valid() && past <= now && exists t :: Due(value, now, t)
      modifies this
      ensures Valid() && |fired| == n && exists t :: Due(value, now, t)
    {
      fired := [];
      while |fired| < n
        invariant Valid() && |fired| <= n && exists t :: Due(value, now, t)
      {
        var p := TakeDue(now);
        var t := Insert(past, every);
        assert Due(value, now, t);
        fired := fired + [p.value];
      }
    }

    /** One pass. If only finitely many callbacks add a timer that is already due, it ends with nothing
        due, and it fires no timer twice. If none does, it fires the timers that were due when it began,
        in deadline order, except those a callback removed. A clock that was set back takes the
        deadlines with it. */
    method RunTimerProcs(now: nat, script: nat -> seq<Op>, ghost calm: nat) returns (fired: seq<(nat, nat)>)
      requires Valid() && LaterFrom(script, calm, now)
      modifies this
      ensures Valid()
      ensures old(value) == map[] ==> fired == [] && value == map[] && lastTimeOut == old(lastTimeOut)
      ensures old(value) != map[] ==> lastTimeOut == now
      ensures forall t :: t in value ==> value[t] > now
      ensures Distinct(fired)
      ensures var base := RebasedAll(old(value), old(SetBack(lastTimeOut, now)));
        && Tended(base, old(interval), old(next), value, interval, now, fired, script)
        && (AddsLater(script, now) ==> FiresDue(base, now, fired, script))
    {
      if timers == {} {
        assert forall t :: t in value ==> (value[t], t) in timers;
        return [];
      }
      assert old(value) != map[] by {
        var p :| p in timers;
        assert p.1 in value;
      }
      ghost var diff := SetBack(lastTimeOut, now);
      if now < lastTimeOut {
        RebaseTimers(lastTimeOut - now);
      }
      assert value == RebasedAll(old(value), diff);
      lastTimeOut := now;
      fired := FireDue(now, script, calm);
    }
  }

  // ------------------------------------------------------------ one firing

  /** What a callback may have changed: it added timers, and dropped some. */
  ghost predicate Effects(v1: map<nat, nat>, i1: map<nat, nat>, n1: nat, v2: map<nat, nat>, i2: map<nat, nat>,
                          ops: seq<Op>) {
    && (forall t :: t in v2 && t < n1 ==> t in v1 && v2[t] == v1[t] && t in i1 && t in i2 && i2[t] == i1[t])
    && (forall t :: t in v1 && t !in v2 ==> Drops(ops, t))
    && (forall t :: t in v2 && t >= n1 ==> t in i2 && Add(v2[t], i2[t]) in ops)
  }

  lemma DropsMore(ops: seq<Op>, op: Op, t: nat)
    requires Drops(ops, t) || op == Drop(t)
    ensures Drops(ops + [op], t)
  {
    if Drops(ops, t) {
      var x :| 0 <= x < |ops| && ops[x] == Drop(t);
      assert (ops + [op])[x] == Drop(t);
    } else {
      assert (ops + [op])[|ops|] == Drop(t);
    }
  }

  lemma EffectsStep(v1: map<nat, nat>, i1: map<nat, nat>, n1: nat, v: map<nat, nat>, i: map<nat, nat>,
                    v': map<nat, nat>, i': map<nat, nat>, ops: seq<Op>, op: Op, t0: nat)
    requires Effects(v1, i1, n1, v, i, ops)
    requires op.Drop? ==> v' == v - {op.timer} && i' == i - {op.timer}
    requires op.Add? ==> t0 >= n1 && t0 !in v && v' == v[t0 := op.value] && i' == i[t0 := op.interval]
    ensures Effects(v1, i1, n1, v', i', ops + [op])
  {
    forall t | t in v1 && t !in v' ensures Drops(ops + [op], t) {
      DropsMore(ops, op, t);
    }
  }

  /** A timer of before the pass: if it is still there it has its interval, and its old deadline or, being
      repeating and due, one interval from now; if it is gone a callback removed it, or it was a single
      shot and fired. */
  ghost predicate TendedAt(v0: map<nat, nat>, i0: map<nat, nat>, v: map<nat, nat>, i: map<nat, nat>, now: nat,
                           fired: seq<(nat, nat)>, script: nat -> seq<Op>, t: nat) {
    && (t in v ==>
          && t in v0 && t in i0 && t in i && i[t] == i0[t]
          && (v[t] == v0[t] || (v0[t] <= now && i0[t] > 0 && v[t] == now + i0[t])))
    && (t in v0 && t !in v ==> DropsIn(script, |fired|, t) || (t in i0 && i0[t] == 0 && IsFired(fired, t)))
  }

  ghost predicate Tended(v0: map<nat, nat>, i0: map<nat, nat>, n0: nat, v: map<nat, nat>, i: map<nat, nat>, now: nat,
                         fired: seq<(nat, nat)>, script: nat -> seq<Op>) {
    forall t: nat :: t < n0 ==> TendedAt(v0, i0, v, i, now, fired, script, t)
  }

  /** One timer is taken out, and its callback runs. */
  lemma TendedStep(v0: map<nat, nat>, i0: map<nat, nat>, n0: nat, va: map<nat, nat>, ia: map<nat, nat>,
                   vb: map<nat, nat>, ib: map<nat, nat>, n1: nat, vc: map<nat, nat>, ic: map<nat, nat>, now: nat,
                   fired: seq<(nat, nat)>, p: (nat, nat), script: nat -> seq<Op>)
    requires Tended(v0, i0, n0, va, ia, now, fired, script) && n0 <= n1 && va.Keys == ia.Keys
    requires Due(va, now, p.1) && SameBut(va, vb, p.1) && (p.1 in vb <==> ia[p.1] > 0)
    requires ib == (if p.1 in vb then ia else ia - {p.1}) && (p.1 in vb ==> vb[p.1] == now + ib[p.1] > now)
    requires Effects(vb, ib, n1, vc, ic, script(|fired|))
    ensures Tended(v0, i0, n0, vc, ic, now, fired + [p], script)
  {
    forall t: nat | t < n0 ensures TendedAt(v0, i0, vc, ic, now, fired + [p], script, t) {
      assert TendedAt(v0, i0, va, ia, now, fired, script, t);
      assert t != p.1 ==> (t in va.Keys - {p.1} <==> t in vb.Keys - {p.1});
      assert (fired + [p])[|fired|] == p;
      if IsFired(fired, t) {
        var x :| 0 <= x < |fired| && fired[x].1 == t;
        assert (fired + [p])[x].1 == t;
      }
    }
  }

  predicate Distinct(fired: seq<(nat, nat)>) {
    forall i, j :: 0 <= i < j < |fired| ==> fired[i].1 != fired[j].1
  }

  /** No timer fired twice, and none that fired is due again. */
  predicate Once(value: map<nat, nat>, now: nat, next: nat, fired: seq<(nat, nat)>) {
    && Distinct(fired)
    && forall i :: 0 <= i < |fired| ==> fired[i].1 < next && !Due(value, now, fired[i].1)
  }

  lemma OnceStep(v0: map<nat, nat>, v1: map<nat, nat>, i1: map<nat, nat>, v2: map<nat, nat>, i2: map<nat, nat>,
                 now: nat, n1: nat, n2: nat, fired: seq<(nat, nat)>, p: (nat, nat), ops: seq<Op>)
    requires Once(v0, now, n1, fired) && Due(v0, now, p.1) && SameBut(v0, v1, p.1) && !Due(v1, now, p.1)
    requires p.1 < n1 <= n2 && Effects(v1, i1, n1, v2, i2, ops)
    ensures Once(v2, now, n2, fired + [p])
  {
    forall i | 0 <= i < |fired| ensures !Due(v2, now, fired[i].1) && fired[i].1 != p.1 {
      if fired[i].1 in v1 && fired[i].1 != p.1 {
        assert fired[i].1 in v1.Keys - {p.1};
      }
    }
  }

  predicate InOrder(fired: seq<(nat, nat)>) {
    forall i, j :: 0 <= i < j < |fired| ==> fired[i].0 <= fired[j].0
  }

  predicate IsFired(fired: seq<(nat, nat)>, t: nat) {
    exists i :: 0 <= i < |fired| && fired[i].1 == t
  }

  /** Fired are exactly the due timers, in deadline order, but for those removed in time. */
  ghost predicate FiresDue(base: map<nat, nat>, now: nat, fired: seq<(nat, nat)>, script: nat -> seq<Op>) {
    && InOrder(fired)
    && (forall i :: 0 <= i < |fired| ==> Due(base, now, fired[i].1) && base[fired[i].1] == fired[i].0)
    && (forall t :: Due(base, now, t) ==> IsFired(fired, t) || DropsIn(script, |fired|, t))
  }

  /** So far the pass has fired an initial part of what was due, and what is still due was due before. */
  ghost predicate PassOk(base: map<nat, nat>, value: map<nat, nat>, now: nat, fired: seq<(nat, nat)>,
                         script: nat -> seq<Op>) {
    && InOrder(fired)
    && (forall i :: 0 <= i < |fired| ==> Due(base, now, fired[i].1) && base[fired[i].1] == fired[i].0)
    && (forall t :: Due(value, now, t) ==> Due(base, now, t) && base[t] == value[t])
    && (forall t, i :: Due(value, now, t) && 0 <= i < |fired| ==> fired[i].0 <= value[t])
    && (forall t :: Due(base, now, t) ==> Due(value, now, t) || IsFired(fired, t) || DropsIn(script, |fired|, t))
  }

  lemma DueShrinks(v0: map<nat, nat>, v1: map<nat, nat>, i1: map<nat, nat>, v2: map<nat, nat>, i2: map<nat, nat>,
                   now: nat, n1: nat, t: nat, ops: seq<Op>)
    requires Due(v0, now, t) && !Due(v1, now, t) && SameBut(v0, v1, t) && t < n1
    requires Effects(v1, i1, n1, v2, i2, ops) && Later(ops, now)
    ensures DueSet(v2, now) < DueSet(v0, now)
  {
    forall q | q in DueSet(v2, now) ensures q in DueSet(v0, now) && q != t {
      assert q in v1 && v1[q] == v2[q];
      assert q in v1.Keys - {t};
    }
    assert t in DueSet(v0, now) && t !in DueSet(v2, now);
  }

  /** What the callback left due was due before it ran. */
  ghost predicate CallbackOk(v1: map<nat, nat>, v2: map<nat, nat>, now: nat, script: nat -> seq<Op>, n: nat) {
    && (forall t :: Due(v2, now, t) ==> t in v1 && v1[t] == v2[t])
    && (forall t :: Due(v1, now, t) && !Due(v2, now, t) ==> DropsIn(script, n, t))
  }

  lemma CallbackIsOk(v1: map<nat, nat>, i1: map<nat, nat>, n1: nat, v2: map<nat, nat>, i2: map<nat, nat>, now: nat,
                     script: nat -> seq<Op>, k: nat)
    requires AddsLater(script, now) && Effects(v1, i1, n1, v2, i2, script(k)) && forall t :: t in v1 ==> t < n1
    ensures CallbackOk(v1, v2, now, script, k + 1)
  {
    var ops := script(k);
    forall t: nat | Due(v1, now, t) && !Due(v2, now, t) ensures DropsIn(script, k + 1, t) {
      assert Drops(ops, t);
    }
  }

  lemma PassStep(base: map<nat, nat>, v0: map<nat, nat>, v1: map<nat, nat>, v2: map<nat, nat>, now: nat,
                 fired: seq<(nat, nat)>, p: (nat, nat), script: nat -> seq<Op>)
    requires PassOk(base, v0, now, fired, script)
    requires Due(v0, now, p.1) && v0[p.1] == p.0 && (forall q :: q in v0 ==> p.0 <= v0[q])
    requires SameBut(v0, v1, p.1) && !Due(v1, now, p.1)
    requires CallbackOk(v1, v2, now, script, |fired| + 1)
    ensures PassOk(base, v2, now, fired + [p], script)
  {
    forall t | Due(v2, now, t) ensures Due(v0, now, t) && v0[t] == v2[t] {
      assert t in v1.Keys - {p.1};
    }
    forall t | Due(base, now, t)
      ensures Due(v2, now, t) || IsFired(fired + [p], t) || DropsIn(script, |fired| + 1, t)
    {
      if t == p.1 {
        assert (fired + [p])[|fired|].1 == t;
      } else if Due(v0, now, t) {
        assert t in v0.Keys - {p.1};
      } else if IsFired(fired, t) {
        var i :| 0 <= i < |fired| && fired[i].1 == t;
        assert (fired + [p])[i].1 == t;
      }
    }
  }
}
