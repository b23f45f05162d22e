/** Whatever a lagging node asks for, a node that cleans its log can give: the missing records, or a
    checkpoint that is far enough. This takes two rules the code does not enforce. */
module Serving {
  import opened Messages
  import opened Largest
  import opened Pruning
  import opened Recovery

  /** `marked`: no restart while deleted records are not marked as such yet. `oneSurplus`: no clean-up
      while two or more directories are surplus. */
  datatype Rules = Rules(marked: bool, oneSurplus: bool)

  const BOTH := Rules(true, true)

  ghost predicate Respects(o: Options, r: Rules, s: Disk, a: Step) {
    && (r.marked && a.Restart? ==> s.marking.None?)
    && (r.oneSurplus && a.FinishCheckpoint? && a.locked && s.pending.Some? ==>
          |WithPending(s, a.renamed).Keys| <= o.keepDirs + 1)
  }

  ghost predicate RuledStep(o: Options, r: Rules, s: Disk, a: Step, s': Disk)
    requires ValidOptions(o)
  {
    Next(o, s, a, s') && Respects(o, r, s, a)
  }

  ghost predicate RuledRun(o: Options, r: Rules, ss: seq<Disk>, steps: seq<Step>) {
    && ValidOptions(o) && |ss| == |steps| + 1 && ss[0] == Start(o)
    && forall t :: 0 <= t < |steps| ==> RuledStep(o, r, ss[t], steps[t], ss[t + 1])
  }

  ghost predicate Reached(o: Options, r: Rules, s: Disk) {
    exists ss, steps :: RuledRun(o, r, ss, steps) && ss[|ss| - 1] == s
  }

  /** A learner one instance behind finds its record; one told to fetch a checkpoint finds the latest one
      there, right, and at or beyond its own instance; and any other finds every record from its own
      instance up to the sender's, with the decided value. */
  ghost predicate Served(o: Options, s: Disk, asked: nat) {
    && (asked + 1 == s.next ==> asked in s.log)
    && (s.minChosen > asked ==>
          s.latest in s.dirs && s.latest >= asked && IsStateAt(o, s.chosen, s.latest, s.dirs[s.latest]))
    && (s.minChosen <= asked ==>
          forall k :: asked <= k < s.next ==> k in s.log && 1 <= k <= |s.chosen| && s.log[k] == s.chosen[k - 1])
  }

  // ------------------------------------------------------------ what ruled runs keep

  /** `latest` names a directory that the next clean-up spares, if there are any. */
  ghost predicate Spared(dirs: map<nat, Machines>, latest: nat, keep: nat) {
    if dirs.Keys == {} then latest == 0
    else latest in dirs && (IsLast(dirs.Keys, latest) || |dirs.Keys| <= keep)
  }

  ghost predicate LatestInv(o: Options, s: Disk) {
    Spared(s.dirs, s.latest, o.keepDirs)
  }

  ghost predicate FloorInv(s: Disk) {
    && s.floor == (if s.marking.Some? then s.marking.value else s.minChosen)
    && s.floor < s.next
    && (s.maxChosen == s.next ==> s.next in s.log || s.next == s.latest + 1)
    && (s.floor == 0 || s.floor < |s.chosen| || s.floor + 1 in s.log || s.floor <= s.latest)
  }

  ghost predicate Tidy(o: Options, s: Disk) {
    Inv(o, s) && LatestInv(o, s) && FloorInv(s)
  }

  lemma {:induction false} CountElems(c: seq<nat>)
    ensures |Elems(c)| <= |c|
    decreases |c|
  {
    if c != [] {
      CountElems(c[1..]);
      assert Elems(c) == Elems(c[1..]) + {c[0]};
    }
  }

  /** A directory survives a clean-up with no surplus, and the newest one with a surplus of one. */
  lemma Survives(dirs: map<nat, Machines>, keep: nat, x: nat)
    requires keep >= 1 && x in dirs && |dirs.Keys| <= keep + 1 && (IsLast(dirs.Keys, x) || |dirs.Keys| <= keep)
    ensures x in Keep(dirs, keep) && |Keep(dirs, keep).Keys| <= keep
  {
    var c := Sorted(dirs.Keys);
    assert x in Elems(c) && c[|c| - 1] in Elems(c);
    NewestSurvives(c, keep);
    KeptCount(dirs, keep);
  }

  lemma KeptCount(dirs: map<nat, Machines>, keep: nat)
    requires keep >= 1 && dirs.Keys != {}
    ensures |Keep(dirs, keep).Keys| <= keep
  {
    var c := Sorted(dirs.Keys);
    SurvivorFacts(c, keep);
    assert Keep(dirs, keep).Keys == Survivors(c, keep);
    CountElems(if |c| > keep then c[1..keep + 1] else c);
  }

  lemma RenamedIsSpared(o: Options, s: Disk, renamed: bool)
    requires DirInv(o, s) && LatestInv(o, s) && s.pending.Some?
    ensures Spared(WithPending(s, renamed), if Renames(s, renamed) then s.pending.value.id else s.latest, o.keepDirs)
  {
    var p := s.pending.value;
    assert Renames(s, renamed) ==> WithPending(s, renamed).Keys == s.dirs.Keys + {p.id};
  }

  lemma SparedStays(dirs: map<nat, Machines>, latest: nat, keep: nat)
    requires keep >= 1 && Spared(dirs, latest, keep) && |dirs.Keys| <= keep + 1
    ensures Spared(Keep(dirs, keep), latest, keep)
  {
    if dirs.Keys == {} {
      NothingKept(keep, dirs);
    } else {
      Survives(dirs, keep, latest);
    }
  }

  lemma FinishLatest(o: Options, s: Disk, renamed: bool, locked: bool)
    requires ValidOptions(o) && DirInv(o, s) && LatestInv(o, s) && s.pending.Some?
    requires Respects(o, BOTH, s, FinishCheckpoint(renamed, locked))
    ensures LatestInv(o, Finished(o, s, renamed, locked))
  {
    RenamedIsSpared(o, s, renamed);
    if locked {
      SparedStays(WithPending(s, renamed), Finished(o, s, renamed, locked).latest, o.keepDirs);
    }
  }

  lemma FinishFloor(o: Options, s: Disk, renamed: bool, s': Disk)
    requires DirInv(o, s) && LatestInv(o, s) && FloorInv(s) && s.pending.Some?
    requires s'.latest == if Renames(s, renamed) then s.pending.value.id else s.latest
    requires s' == s.(dirs := s'.dirs, latest := s'.latest, oldest := s'.oldest, pending := None)
    ensures FloorInv(s')
  {
  }

  lemma CollectServes(o: Options, s: Disk)
    requires ValidOptions(o) && CleanInv(s) && LatestInv(o, s) && FloorInv(s)
    requires s.marking.None? && s.next - 1 <= |s.chosen|
    requires forall k :: 1 <= k <= |s.chosen| && s.floor <= k ==> k in s.log
    ensures var s' := Collected(o, s); LatestInv(o, s') && FloorInv(s')
  {
    var s' := Collected(o, s);
    if s'.floor > s.floor {
      assert s'.floor <= s.maxChosen - o.keepLog <= s.next - 1;
    }
  }

  /** A restart goes on from a checkpoint that is left, and above everything deleted. */
  lemma CleanUpIsHigh(keep: nat, s: Disk)
    requires keep >= 1 && s.dirs.Keys != {} && s.latest in s.dirs && s.floor <= s.oldest + 1
    requires forall d :: d in s.dirs ==> s.oldest <= d
    ensures s.floor <= s.latest ==> s.floor <= LatestLeft(s.dirs, keep)
    ensures |Keep(s.dirs, keep).Keys| <= keep
  {
    var c := Sorted(s.dirs.Keys);
    SurvivorFacts(c, keep);
    NewestSurvives(c, keep);
    assert c[0] in Elems(c) && s.latest in Elems(c) && LatestOf(c, keep) in Elems(c);
    KeptCount(s.dirs, keep);
  }

  lemma ResumedFloor(o: Options, s: Disk, s': Disk, last: nat)
    requires Tidy(o, s) && s.marking.None?
    requires (last == 0 || last in s.log) && forall k :: k in s.log ==> k <= last
    requires s'.log == s.log && s'.chosen == s.chosen && s'.floor == s.floor && s'.minChosen == s.minChosen
    requires s'.marking.None? && s'.next == s'.maxChosen == RestartAt(s'.latest, last) && |s.chosen| <= s'.next
    requires s.floor <= s.latest ==> s.floor <= s'.latest
    ensures FloorInv(s')
  {
  }

  /** What a clean-up must leave for a restart after which everything is served. */
  ghost predicate Serves(o: Options, s: Disk, k: Cleaned) {
    Usable(o, s, k) && (s.floor <= s.latest ==> s.floor <= k.latest) && |k.dirs.Keys| <= o.keepDirs
  }

  lemma CleanUpServes(o: Options, s: Disk)
    requires ValidOptions(o) && Tidy(o, s)
    ensures Serves(o, s, CleanUp(s.dirs, o.keepDirs))
  {
    CleanUpIsUsable(o, s);
    if s.dirs.Keys != {} {
      CleanUpIsHigh(o.keepDirs, s);
    }
  }

  lemma RestartServes(o: Options, s: Disk, k: Cleaned, s': Disk)
    requires ValidOptions(o) && Tidy(o, s) && s.marking.None? && Serves(o, s, k) && RestartedFrom(o, s, k) == Some(s')
    ensures LatestInv(o, s') && FloorInv(s')
  {
    var next := RestartRebuilds(o, s, k);
    LastRecordFacts(o, s);
    ResumedFloor(o, s, s', LastRecord(s.log));
    assert forall d :: d in k.dirs ==> IsStateAt(o, s.chosen, d, s.dirs[d]);
  }

  /** Everything else moves on without touching the directories. */
  lemma OtherServes(o: Options, s: Disk, a: Step, s': Disk)
    requires ValidOptions(o) && LatestInv(o, s) && FloorInv(s) && Next(o, s, a, s') && s.next - 1 <= |s.chosen|
    requires a.Accept? || a.Decide? || a.Mark? || a.Abandon?
    ensures LatestInv(o, s') && FloorInv(s')
  {
  }

  lemma TidyNext(o: Options, s: Disk, a: Step, s': Disk)
    requires ValidOptions(o) && Tidy(o, s) && RuledStep(o, BOTH, s, a, s')
    ensures LatestInv(o, s') && FloorInv(s')
  {
    match a
    case FinishCheckpoint(renamed, locked) =>
      FinishLatest(o, s, renamed, locked);
      FinishFloor(o, s, renamed, s');
    case Collect => CollectServes(o, s);
    case Restart =>
      CleanUpServes(o, s);
      RestartServes(o, s, CleanUp(s.dirs, o.keepDirs), s');
    case _ => OtherServes(o, s, a, s');
  }

  ghost predicate Kept(o: Options, s: Disk, s': Disk) {
    Tidy(o, s) ==> Tidy(o, s')
  }

  lemma {:induction false} KeptAlong(o: Options, ss: seq<Disk>, t: nat)
    requires t < |ss| && Tidy(o, ss[0]) && forall i :: 0 <= i < t ==> Kept(o, ss[i], ss[i + 1])
    ensures Tidy(o, ss[t])
  {
    if t > 0 {
      KeptAlong(o, ss, t - 1);
      assert Kept(o, ss[t - 1], ss[t - 1 + 1]);
    }
  }

  lemma KeptByStep(o: Options, s: Disk, a: Step, s': Disk)
    requires ValidOptions(o) && RuledStep(o, BOTH, s, a, s')
    ensures Kept(o, s, s')
  {
    if Tidy(o, s) {
      StepOk(o, s, a, s');
      TidyNext(o, s, a, s');
    }
  }

  lemma ReachedIsTidy(o: Options, s: Disk)
    requires Reached(o, BOTH, s)
    ensures Tidy(o, s)
  {
    var ss, steps :| RuledRun(o, BOTH, ss, steps) && ss[|ss| - 1] == s;
    forall i | 0 <= i < |steps| ensures Kept(o, ss[i], ss[i + 1]) {
      KeptByStep(o, ss[i], steps[i], ss[i + 1]);
    }
    assert Tidy(o, Start(o));
    KeptAlong(o, ss, |ss| - 1);
  }

  /** Under both rules every request is served, whenever no deletion is waiting to be marked. */
  lemma EveryCatchUpIsServed(o: Options, s: Disk, asked: nat)
    requires Reached(o, BOTH, s) && s.marking.None? && 1 <= asked < s.next
    ensures Served(o, s, asked)
  {
    ReachedIsTidy(o, s);
    if s.minChosen > asked {
      assert s.oldest >= asked && s.dirs.Keys != {};
    }
  }

  // ------------------------------------------------------------ what happens without a rule

  lemma Reach(o: Options, r: Rules, s: Disk, a: Step, s': Disk)
    requires Reached(o, r, s) && ValidOptions(o) && RuledStep(o, r, s, a, s')
    ensures Reached(o, r, s')
  {
    var ss, steps :| RuledRun(o, r, ss, steps) && ss[|ss| - 1] == s;
    var ss', steps' := ss + [s'], steps + [a];
    forall t | 0 <= t < |steps'| ensures RuledStep(o, r, ss'[t], steps'[t], ss'[t + 1]) {
      assert t < |steps| ==> RuledStep(o, r, ss[t], steps[t], ss[t + 1]);
    }
    assert RuledRun(o, r, ss', steps');
  }

  lemma StartIsReached(o: Options, r: Rules)
    requires ValidOptions(o)
    ensures Reached(o, r, Start(o))
  {
    assert RuledRun(o, r, [Start(o)], []);
  }

  /** One more instance, with or without a checkpoint begun. */
  lemma Decides(o: Options, r: Rules, s: Disk, snapshot: bool) returns (s': Disk)
    requires Reached(o, r, s) && ValidOptions(o) && s.next >= 1 && |s.chosen| == s.next - 1 && (snapshot ==>
        s.pending.None?)
    ensures Reached(o, r, s') && |s'.chosen| == s.next
    ensures s' == s.(log := s.log[s.next := NO_VALUE], machines := s'.machines, next := s.next + 1, maxChosen := s.next,
                     chosen := s'.chosen, pending := if snapshot then Some(Snapshot(s.next,
                         s'.machines)) else s.pending)
  {
    var s1 := s.(log := s.log[s.next := NO_VALUE]);
    Reach(o, r, s, Step.Accept(NO_VALUE), s1);
    s' := Decided(o, s1, snapshot);
    Reach(o, r, s1, Decide(snapshot), s');
  }

  /** Keeping one record and one checkpoint. */
  function Small(): Options {
    Options((v: Value) => None, map[], 1, 1)
  }

  lemma OneDirectory(dirs: map<nat, Machines>, d: nat)
    requires dirs.Keys == {d}
    ensures CleanUp(dirs, 1) == Cleaned(dirs, d, d)
  {
    var c := Sorted({d});
    assert c[0] in Elems(c) && c == [d];
    assert Elems(c) == {d};
  }

  /** The cleaner deletes record 1 and the node stops before it marks that: after the restart a learner at
      instance 1 is told to take records, and there is none. */
  lemma UnmarkedDeletion(r: Rules) returns (s: Disk)
    requires !r.marked
    ensures Reached(Small(), r, s) && s.marking.None? && s.next == 3 && s.minChosen == 0 && 1 !in s.log
  {
    var o := Small();
    StartIsReached(o, r);
    s := Decides(o, r, Start(o), true);
    assert WithPending(s, true).Keys == {1} && |WithPending(s, true).Keys| == 1;
    OneDirectory(WithPending(s, true), 1);
    Reach(o, r, s, FinishCheckpoint(true, true), Finished(o, s, true, true));
    s := Decides(o, r, Finished(o, s, true, true), false);
    s := Decides(o, r, s, false);
    Reach(o, r, s, Collect, Collected(o, s));
    s := Collected(o, s);
    assert s.log.Keys == {2, 3} && LastRecord(s.log) == 3;
    OneDirectory(s.dirs, 1);
    var s' := Restarted(o, s).value;
    Reach(o, r, s, Restart, s');
    s := s';
  }

  lemma ThreeDirectories(dirs: map<nat, Machines>)
    requires dirs.Keys == {1, 2, 3}
    ensures Keep(dirs, 1).Keys == {2} && OldestOf(dirs, 1) == 2
  {
    var c := Sorted({1, 2, 3});
    assert |{1, 2, 3}| == 3 && c[0] in Elems(c) && c[1] in Elems(c) && c[2] in Elems(c);
    assert c == [1, 2, 3];
    assert c[1..2] == [2];
  }

  /** Two clean-ups are skipped and the third removes the directory it just called the latest: a learner at
      instance 1 is told to fetch that checkpoint. */
  lemma SkippedCleanUps(r: Rules) returns (s: Disk)
    requires !r.oneSurplus
    ensures Reached(Small(), r, s) && s.marking.None? && s.next == 4 && s.minChosen == 2 && s.latest !in s.dirs
  {
    var o := Small();
    StartIsReached(o, r);
    s := Decides(o, r, Start(o), true);
    Reach(o, r, s, FinishCheckpoint(true, false), Finished(o, s, true, false));
    s := Decides(o, r, Finished(o, s, true, false), true);
    Reach(o, r, s, FinishCheckpoint(true, false), Finished(o, s, true, false));
    s := Decides(o, r, Finished(o, s, true, false), true);
    ThreeDirectories(WithPending(s, true));
    Reach(o, r, s, FinishCheckpoint(true, true), Finished(o, s, true, true));
    s := Finished(o, s, true, true);
    Reach(o, r, s, Collect, Collected(o, s));
    s := Collected(o, s);
    Reach(o, r, s, Mark, Marked(s));
    s := Marked(s);
  }

  ghost predicate Unserved(o: Options, r: Rules, s: Disk, asked: nat) {
    Reached(o, r, s) && s.marking.None? && 1 <= asked < s.next && !Served(o, s, asked)
  }

  /** Runs under a set of rules always serve every request exactly if the set has both. */
  lemma ServedIffRuled(r: Rules)
    ensures (forall o, s, asked :: !Unserved(o, r, s, asked)) <==> r == BOTH
  {
    if r == BOTH {
      forall o, s, asked: nat ensures !Unserved(o, r, s, asked) {
        if Reached(o, r, s) && s.marking.None? && 1 <= asked < s.next {
          EveryCatchUpIsServed(o, s, asked);
        }
      }
    } else {
      var s;
      if !r.marked {
        s := UnmarkedDeletion(r);
      } else {
        s := SkippedCleanUps(r);
      }
      assert Unserved(Small(), r, s, 1);
    }
  }
}
