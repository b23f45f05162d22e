/** The largest element of a finite set. */
module Largest {

  ghost predicate IsLast(s: set<nat>, k: nat) {
    k in s && forall j :: j in s ==> j <= k
  }

  lemma {:induction false} LastExists(s: set<nat>)
    requires s != {}
    ensures exists k :: IsLast(s, k)
    decreases |s|
  {
    var k :| k in s;
    if s == {k} {
      assert IsLast(s, k);
    } else {
      var rest := s - {k};
      assert s == rest + {k};
      LastExists(rest);
      var k' :| IsLast(rest, k');
      assert IsLast(s, if k < k' then k' else k);
    }
  }

  ghost function Last(s: set<nat>): (k: nat)
    requires s != {}
    ensures IsLast(s, k)
  {
    LastExists(s);
    var k :| IsLast(s, k);
    k
  }
}

/** Removing surplus checkpoint directories by swapping the first entry to the back and dropping it. */
module Pruning {
  import opened Largest

  predicate Ascending(s: seq<nat>) {
    forall i, j :: 0 <= i < j < |s| ==> s[i] < s[j]
  }

  function Elems(s: seq<nat>): set<nat> {
    set x | x in s
  }

  lemma AppendLast(front: seq<nat>, s: set<nat>, k: nat)
    requires Ascending(front) && Elems(front) == s - {k} && IsLast(s, k)
    ensures Ascending(front + [k]) && Elems(front + [k]) == s
  {
    forall i | 0 <= i < |front| ensures front[i] < k {
      assert front[i] in Elems(front);
    }
    forall x ensures x in Elems(front + [k]) <==> x in s {
      assert x in front + [k] <==> x in front || x == k;
      assert x in front <==> x in Elems(front);
    }
  }

  ghost predicate Lists(c: seq<nat>, s: set<nat>) {
    Ascending(c) && Elems(c) == s && |c| == |s|
  }

  lemma {:induction false} ListExists(s: set<nat>)
    ensures exists c :: Lists(c, s)
    decreases |s|
  {
    if s == {} {
      assert Lists([], s);
    } else {
      var k := Last(s);
      ListExists(s - {k});
      var front :| Lists(front, s - {k});
      AppendLast(front, s, k);
      assert Lists(front + [k], s);
    }
  }

  /** The elements in ascending order. */
  ghost function Sorted(s: set<nat>): (r: seq<nat>)
    ensures Ascending(r) && Elems(r) == s && |r| == |s|
  {
    ListExists(s);
    var c :| Lists(c, s);
    c
  }

  /** What is left of the ascending list `c` after `s` removals: the first goes, then from the back. */
  function Left(c: seq<nat>, s: nat): seq<nat>
    requires s < |c|
  {
    if s == 0 then c else [c[|c| - s]] + c[1..|c| - s]
  }

  function Surplus(c: seq<nat>, keep: nat): nat {
    if |c| > keep then |c| - keep else 0
  }

  /** The directories that survive. */
  function Survivors(c: seq<nat>, keep: nat): set<nat>
    requires keep >= 1
  {
    if Surplus(c, keep) == 0 then Elems(c) else Elems(c[1..keep + 1])
  }

  /** The swap-and-pop loop over the sorted list of directories. */
  method CleanCheckpoint(listed: seq<nat>, keep: nat) returns (left: seq<nat>, oldest: nat, removed: set<nat>)
    requires Ascending(listed) && keep >= 1
    ensures |left| == if |listed| < keep then |listed| else keep
    ensures Elems(left) == Survivors(listed, keep)
    ensures removed == Elems(listed) - Survivors(listed, keep)
    ensures listed == [] ==> oldest == 0
    ensures listed != [] ==> oldest in left && forall x :: x in left ==> oldest <= x
    ensures listed != [] ==> left == Left(listed, Surplus(listed, keep))
  {
    if listed == [] {
      return [], 0, {};
    }
    left, oldest, removed := PopSurplus(listed, keep);
    LeftAreSurvivors(listed, keep);
  }

  method PopSurplus(listed: seq<nat>, keep: nat) returns (left: seq<nat>, oldest: nat, removed: set<nat>)
    requires listed != [] && keep >= 1
    ensures left == Left(listed, Surplus(listed, keep)) && |left| == |listed| - Surplus(listed, keep)
    ensures oldest == listed[if Surplus(listed, keep) == 0 then 0 else 1]
    ensures removed == RemovedBy(listed, Surplus(listed, keep))
  {
    left := listed;
    removed := {};
    oldest := listed[0];
    ghost var s := 0;
    while |left| > keep
      invariant s < |listed| && |left| == |listed| - s
      invariant |left| >= keep || s == 0
      invariant left == Left(listed, s)
      invariant oldest == listed[if s == 0 then 0 else 1]
      invariant removed == RemovedBy(listed, s)
      decreases |left|
    {
      PopStep(listed, s);
      oldest := left[1];
      removed := removed + {left[0]};
      left := SwapEnds(left);
      left := left[..|left| - 1];
      s := s + 1;
    }
  }

  function SwapEnds(l: seq<nat>): seq<nat>
    requires l != []
  {
    l[0 := l[|l| - 1]][|l| - 1 := l[0]]
  }

  lemma SwapAndPop(l: seq<nat>)
    requires |l| >= 2
    ensures |SwapEnds(l)| == |l| && SwapEnds(l)[..|l| - 1] == [l[|l| - 1]] + l[1..|l| - 1]
  {
    var r := SwapEnds(l)[..|l| - 1];
    forall j | 0 <= j < |l| - 1 ensures r[j] == ([l[|l| - 1]] + l[1..|l| - 1])[j] {
    }
  }

  lemma LeftParts(c: seq<nat>, s: nat)
    requires s + 1 < |c|
    ensures var l := Left(c, s);
      && |l| == |c| - s && l[|l| - 1] == c[|c| - s - 1] && l[1] == c[1]
      && l[1..|l| - 1] == c[1..|c| - s - 1]
      && l[0] == if s == 0 then c[0] else c[|c| - s]
  {
  }

  lemma MoreRemoved(c: seq<nat>, s: nat)
    requires s + 1 < |c|
    ensures RemovedBy(c, s) + {Left(c, s)[0]} == RemovedBy(c, s + 1)
  {
    if s == 0 {
      assert c[|c|..] == [];
    } else {
      assert c[|c| - s..] == [c[|c| - s]] + c[|c| - s + 1..];
    }
  }

  lemma PopStep(c: seq<nat>, s: nat)
    requires s + 1 < |c|
    ensures var l := Left(c, s);
      && |l| == |c| - s && |SwapEnds(l)| == |l|
      && SwapEnds(l)[..|l| - 1] == Left(c, s + 1)
      && l[1] == c[1]
      && RemovedBy(c, s) + {l[0]} == RemovedBy(c, s + 1)
  {
    LeftParts(c, s);
    SwapAndPop(Left(c, s));
    MoreRemoved(c, s);
  }

  ghost function RemovedBy(c: seq<nat>, s: nat): set<nat>
    requires s <= |c|
  {
    if s == 0 then {} else {c[0]} + Elems(c[|c| - s + 1..])
  }

  lemma LeftAreSurvivors(c: seq<nat>, keep: nat)
    requires Ascending(c) && keep >= 1 && c != []
    ensures var l := Left(c, Surplus(c, keep));
      && Elems(l) == Survivors(c, keep)
      && c[if Surplus(c, keep) == 0 then 0 else 1] in l
      && forall x :: x in l ==> c[if Surplus(c, keep) == 0 then 0 else 1] <= x
    ensures RemovedBy(c, Surplus(c, keep)) == Elems(c) - Survivors(c, keep)
  {
    var s := Surplus(c, keep);
    if s > 0 {
      var mid := c[1..keep + 1];
      assert mid == c[1..keep] + [c[keep]];
      assert c == [c[0]] + mid + c[keep + 1..];
      assert forall x :: x in Left(c, s) <==> x in mid;
      Separate(c, keep);
    }
  }

  /** In an ascending list the middle shares nothing with the first entry and the tail. */
  lemma Separate(c: seq<nat>, keep: nat)
    requires Ascending(c) && keep + 1 <= |c|
    ensures c[0] !in c[1..keep + 1]
    ensures Elems(c[keep + 1..]) !! Elems(c[1..keep + 1])
  {
  }

  /** The newest directory survives exactly if at most one is surplus; the oldest goes exactly if any is. */
  lemma NewestSurvives(c: seq<nat>, keep: nat)
    requires Ascending(c) && keep >= 1 && c != []
    ensures c[|c| - 1] in Survivors(c, keep) <==> |c| <= keep + 1
    ensures c[0] in Survivors(c, keep) <==> |c| <= keep
  {
    if |c| > keep {
      Separate(c, keep);
      assert c[|c| - 1] in c[keep + 1..] || |c| == keep + 1;
      assert |c| == keep + 1 ==> c[1..keep + 1][keep - 1] == c[|c| - 1];
      assert |c| > keep + 1 ==> c[keep + 1..][|c| - keep - 2] == c[|c| - 1];
    }
  }

  ghost function Oldest(c: seq<nat>, keep: nat): nat
    requires c != []
  {
    c[if Surplus(c, keep) == 0 || |c| == 1 then 0 else 1]
  }

  ghost function LatestOf(c: seq<nat>, keep: nat): nat
    requires c != [] && keep >= 1
  {
    var l := Left(c, Surplus(c, keep));
    l[|l| - 1]
  }

  /** What the clean-up calls oldest is the smallest survivor, and its last entry survives too. */
  lemma SurvivorFacts(c: seq<nat>, keep: nat)
    requires Ascending(c) && keep >= 1 && c != []
    ensures Survivors(c, keep) <= Elems(c)
    ensures Oldest(c, keep) in Survivors(c, keep) && LatestOf(c, keep) in Survivors(c, keep)
    ensures forall x :: x in Survivors(c, keep) ==> Oldest(c, keep) <= x
  {
    LeftAreSurvivors(c, keep);
    var l := Left(c, Surplus(c, keep));
    assert l[|l| - 1] in Elems(l);
  }
}
