/** Log, checkpoints, log cleaning and restart of one node: what recovery finds is always enough to
    rebuild the machines as if the whole log had been executed from the start. */
module Recovery {
  import opened Messages
  import opened MembershipMachine
  import opened Pruning
  import opened Largest

  const MEMBERSHIP_ID: nat := 1

  /** The user machines are deterministic, so the list of what they executed stands for their state. */
  datatype Machines = Machines(user: seq<(nat, Value)>, membership: Membership)

  /** `parse` reads a membership change; the rest are the group's options. */
  datatype Options = Options(parse: Value -> Option<seq<Change>>, members: map<nat, Member>, keepLog: nat,
      keepDirs: nat)

  predicate ValidOptions(o: Options) {
    o.keepLog >= 1 && o.keepDirs >= 1
  }

  function Initial(o: Options): Machines {
    Machines([], Membership(0, o.members))
  }

  function Execute(o: Options, st: Machines, k: nat, v: Value): Machines {
    if v.machine == MEMBERSHIP_ID then st.(membership := Executed(st.membership, k, o.parse(v)).0)
    else st.(user := st.user + [(k, v)])
  }

  /** The machines after executing the first `n` of `vs` as instances 1 to `n`. */
  function RunTo(o: Options, vs: seq<Value>, n: nat): Machines
    requires n <= |vs|
  {
    if n == 0 then Initial(o) else Execute(o, RunTo(o, vs, n - 1), n, vs[n - 1])
  }

  lemma {:induction false} RunOfPrefix(o: Options, vs: seq<Value>, ws: seq<Value>, n: nat)
    requires n <= |vs| && vs <= ws
    ensures RunTo(o, vs, n) == RunTo(o, ws, n)
  {
    if n > 0 {
      RunOfPrefix(o, vs, ws, n - 1);
    }
  }

  /** The version gate never refuses an entry of the log that can be read. */
  lemma {:induction false} VersionGateIsOpen(o: Options, vs: seq<Value>, n: nat)
    requires n <= |vs|
    ensures RunTo(o, vs, n).membership.version <= n
  {
    if n > 0 {
      VersionGateIsOpen(o, vs, n - 1);
    }
  }

  // ------------------------------------------------------------ what a run leaves in the machines

  predicate ForUser(v: Value) {
    v.machine != MEMBERSHIP_ID
  }

  /** Instance `k` holds a membership change that can be read. */
  predicate IsChange(o: Options, vs: seq<Value>, k: nat) {
    1 <= k <= |vs| && !ForUser(vs[k - 1]) && o.parse(vs[k - 1]).Some?
  }

  /** A value a user machine got, and the instance it came from. */
  predicate IsGiven(vs: seq<Value>, n: nat, p: (nat, Value))
    requires n <= |vs|
  {
    1 <= p.0 <= n && p.1 == vs[p.0 - 1] && ForUser(p.1)
  }

  predicate Ascends(user: seq<(nat, Value)>) {
    forall x, y :: 0 <= x < y < |user| ==> user[x].0 < user[y].0
  }

  /** The user machines got exactly the values meant for them, each with its instance, once and in order. */
  ghost predicate IsHistory(vs: seq<Value>, n: nat, user: seq<(nat, Value)>)
    requires n <= |vs|
  {
    Ascends(user) && forall p :: p in user <==> IsGiven(vs, n, p)
  }

  lemma Appending(user: seq<(nat, Value)>, p: (nat, Value))
    requires Ascends(user) && forall q :: q in user ==> q.0 < p.0
    ensures Ascends(user + [p]) && forall q :: q in user + [p] <==> q in user || q == p
  {
    forall x | 0 <= x < |user| ensures user[x].0 < p.0 {
      assert user[x] in user;
    }
  }

  lemma HistoryGrows(vs: seq<Value>, n: nat, user: seq<(nat, Value)>)
    requires 1 <= n <= |vs| && IsHistory(vs, n - 1, user)
    ensures IsHistory(vs, n, if ForUser(vs[n - 1]) then user + [(n, vs[n - 1])] else user)
  {
    forall q | q in user ensures q.0 < n {
      assert IsGiven(vs, n - 1, q);
    }
    Appending(user, (n, vs[n - 1]));
    forall p ensures IsGiven(vs, n, p) <==> IsGiven(vs, n - 1, p) || (p == (n, vs[n - 1]) && ForUser(vs[n - 1])) {
    }
  }

  lemma {:induction false} UserHistory(o: Options, vs: seq<Value>, n: nat)
    requires n <= |vs|
    ensures IsHistory(vs, n, RunTo(o, vs, n).user)
  {
    if n > 0 {
      UserHistory(o, vs, n - 1);
      HistoryGrows(vs, n, RunTo(o, vs, n - 1).user);
    }
  }

  /** The version is the instance of the last change that can be read, 0 if there is none. */
  lemma {:induction false} VersionIsLast(o: Options, vs: seq<Value>, n: nat)
    requires n <= |vs|
    ensures var v := RunTo(o, vs, n).membership.version;
      v <= n && (v == 0 || IsChange(o, vs, v)) && forall k :: v < k <= n ==> !IsChange(o, vs, k)
  {
    if n > 0 {
      VersionIsLast(o, vs, n - 1);
    }
  }

  /** No change of the first `n` values after instance `from` speaks of `id`. */
  ghost predicate Silent(o: Options, vs: seq<Value>, from: nat, n: nat, id: nat)
    requires n <= |vs|
  {
    forall k :: from < k <= n && IsChange(o, vs, k) ==> Untouched(o.parse(vs[k - 1]).value, id)
  }

  lemma ChangeApplies(o: Options, vs: seq<Value>, n: nat)
    requires 1 <= n <= |vs|
    ensures RunTo(o, vs, n).membership.members ==
      if IsChange(o, vs, n) then ApplyAll(RunTo(o, vs, n - 1).membership.members, o.parse(vs[n - 1]).value)
      else RunTo(o, vs, n - 1).membership.members
  {
    VersionIsLast(o, vs, n - 1);
  }

  /** While no change speaks of an id its entry stays what it was. */
  lemma {:induction false} SilentStays(o: Options, vs: seq<Value>, from: nat, n: nat, id: nat)
    requires from <= n <= |vs| && Silent(o, vs, from, n, id)
    ensures var a, b := RunTo(o, vs, from).membership.members, RunTo(o, vs, n).membership.members;
      (id in a <==> id in b) && (id in a ==> a[id] == b[id])
    decreases n - from
  {
    if from < n {
      SilentStays(o, vs, from, n - 1, id);
      ChangeApplies(o, vs, n);
      if IsChange(o, vs, n) {
        UntouchedStays(RunTo(o, vs, n - 1).membership.members, o.parse(vs[n - 1]).value, id);
      }
    }
  }

  /** Whether and how `id` is a member after any run: as the last change for it anywhere in the log says. */
  lemma LastChangeOfLog(o: Options, vs: seq<Value>, n: nat, id: nat, k: nat, j: nat)
    requires 1 <= k <= n <= |vs| && IsChange(o, vs, k) && LastFor(o.parse(vs[k - 1]).value, id, j)
    requires Silent(o, vs, k, n, id)
    ensures var ms, ch := RunTo(o, vs, n).membership.members, o.parse(vs[k - 1]).value[j];
      (id in ms <==> ch.Add?) && (ch.Add? ==> ms[id] == ch.member)
  {
    ChangeApplies(o, vs, k);
    LastChangeWins(RunTo(o, vs, k - 1).membership.members, o.parse(vs[k - 1]).value, id, j);
    SilentStays(o, vs, k, n, id);
  }

  /** And as in the initial membership if there is no such change. */
  lemma NeverChanged(o: Options, vs: seq<Value>, n: nat, id: nat)
    requires n <= |vs| && Silent(o, vs, 0, n, id)
    ensures var ms := RunTo(o, vs, n).membership.members;
      (id in ms <==> id in o.members) && (id in ms ==> ms[id] == o.members[id])
  {
    SilentStays(o, vs, 0, n, id);
    assert RunTo(o, vs, 0).membership.members == o.members;
  }

  // ------------------------------------------------------------ replay and cleaning

  function Replay(o: Options, log: map<nat, Value>, from: nat, end: nat, st: Machines): Option<Machines>
    decreases end - from
  {
    if from >= end then Some(st)
    else if from !in log then None
    else Replay(o, log, from + 1, end, Execute(o, st, from, log[from]))
  }

  method ReplayLog(o: Options, log: map<nat, Value>, from: nat, end: nat, start: Machines) returns (r: Option<Machines>)
    ensures r == Replay(o, log, from, end, start)
  {
    var st, k := start, from;
    while k < end
      invariant from <= k
      invariant Replay(o, log, from, end, start) == Replay(o, log, k, end, st)
      decreases end - k
    {
      if k !in log {
        return None;
      }
      st, k := Execute(o, st, k, log[k]), k + 1;
    }
    r := Some(st);
  }

  /** How far the cleaner gets. */
  function CollectTo(min: nat, max: nat, checkpoint: nat, keep: nat): nat {
    var hi := if max - keep < checkpoint then max - keep else checkpoint;
    if hi > min then hi else min
  }

  method CollectLoop(min: nat, max: nat, checkpoint: nat, keep: nat) returns (reached: nat, deleted: set<nat>)
    ensures reached == CollectTo(min, max, checkpoint, keep)
    ensures forall k :: k in deleted <==> min <= k < reached
    ensures min <= reached && (reached > min ==> reached + keep <= max && reached <= checkpoint)
    ensures reached + keep >= max || reached >= checkpoint
  {
    reached, deleted := min, {};
    while reached + keep < max && reached < checkpoint
      invariant min <= reached
      invariant reached == min || (reached + keep <= max && reached <= checkpoint)
      invariant forall k :: k in deleted <==> min <= k < reached
      decreases checkpoint - reached
    {
      deleted := deleted + {reached};
      reached := reached + 1;
    }
  }

  // ------------------------------------------------------------ the node's durable state

  datatype Snapshot = Snapshot(id: nat, state: Machines)

  /** `log` and `dirs` survive a stop, as does `minChosen`. `chosen` lists what the group decided so
      far, as far as this node got, and `floor` is where the kept records start. */
  datatype Disk = Disk(
    log: map<nat, Value>, dirs: map<nat, Machines>, minChosen: nat,
    next: nat, maxChosen: nat, machines: Machines, latest: nat, oldest: nat,
    pending: Option<Snapshot>, marking: Option<nat>,
    chosen: seq<Value>, floor: nat)

  /** `Abandon`: some machine could not write its part of the checkpoint. */
  datatype Step =
    | Accept(v: Value)
    | Decide(snapshot: bool)
    | FinishCheckpoint(renamed: bool, locked: bool)
    | Abandon
    | Collect
    | Mark
    | Restart

  function Start(o: Options): Disk {
    Disk(map[], map[], 0, 1, 1, Initial(o), 0, 0, None, None, [], 0)
  }

  /** Agreement: nothing but the decided value is accepted again in a decided instance. */
  predicate Agreed(s: Disk, v: Value) {
    s.next >= 1 && |s.chosen| >= s.next ==> v == s.chosen[s.next - 1]
  }

  predicate Enabled(o: Options, s: Disk, a: Step) {
    match a
    case Accept(v) => Agreed(s, v)
    case Decide(snapshot) => s.next in s.log && Agreed(s, s.log[s.next]) && (snapshot ==> s.pending.None?)
    case FinishCheckpoint(_, _) => s.pending.Some?
    case Abandon => s.pending.Some?
    case Collect => s.marking.None?
    case Mark => s.marking.Some?
    case Restart => true
  }

  function Decided(o: Options, s: Disk, snapshot: bool): Disk
    requires s.next in s.log
  {
    var v := s.log[s.next];
    var st := Execute(o, s.machines, s.next, v);
    s.(machines := st, next := s.next + 1, maxChosen := s.next,
       chosen := if |s.chosen| >= s.next then s.chosen else s.chosen + [v],
       pending := if snapshot then Some(Snapshot(s.next, st)) else s.pending)
  }

  ghost function Keep(dirs: map<nat, Machines>, keep: nat): map<nat, Machines>
    requires keep >= 1
  {
    map d | d in dirs && d in Survivors(Sorted(dirs.Keys), keep) :: dirs[d]
  }

  ghost function OldestOf(dirs: map<nat, Machines>, keep: nat): nat {
    var c := Sorted(dirs.Keys);
    if c == [] then 0 else Oldest(c, keep)
  }

  /** The rename may fail, and does if the directory is already there. */
  predicate Renames(s: Disk, renamed: bool)
    requires s.pending.Some?
  {
    renamed && s.pending.value.id !in s.dirs
  }

  function WithPending(s: Disk, renamed: bool): map<nat, Machines>
    requires s.pending.Some?
  {
    if Renames(s, renamed) then s.dirs[s.pending.value.id := s.pending.value.state] else s.dirs
  }

  /** The clean-up follows either way, and is skipped without the lock. */
  ghost function Finished(o: Options, s: Disk, renamed: bool, locked: bool): Disk
    requires s.pending.Some? && ValidOptions(o)
  {
    var dirs := WithPending(s, renamed);
    s.(dirs := if locked then Keep(dirs, o.keepDirs) else dirs,
       latest := if Renames(s, renamed) then s.pending.value.id else s.latest,
       oldest := if locked then OldestOf(dirs, o.keepDirs) else s.oldest,
       pending := None)
  }

  function Collected(o: Options, s: Disk): Disk {
    var reached := CollectTo(s.minChosen, s.maxChosen, s.oldest + 1, o.keepLog);
    s.(log := map k | k in s.log && !(s.minChosen <= k < reached) :: s.log[k],
       marking := Some(reached), floor := if reached > s.floor then reached else s.floor)
  }

  function Marked(s: Disk): Disk
    requires s.marking.Some?
  {
    s.(minChosen := s.marking.value, marking := None)
  }

  /** The checkpoint a restart recovers from: the last one the clean-up left in its list. */
  ghost function LatestLeft(dirs: map<nat, Machines>, keep: nat): nat
    requires keep >= 1
  {
    var c := Sorted(dirs.Keys);
    if c == [] then 0 else LatestOf(c, keep)
  }

  ghost function LastRecord(log: map<nat, Value>): nat {
    if log.Keys == {} then 0 else Last(log.Keys)
  }

  ghost function RestoredFrom(o: Options, dirs: map<nat, Machines>, latest: nat): Machines {
    if latest in dirs then dirs[latest] else Initial(o)
  }

  ghost function RestartAt(latest: nat, last: nat): nat {
    if latest + 1 > last then latest + 1 else last
  }

  /** What a clean-up leaves: the directories, and what it calls the latest and the oldest of them. */
  datatype Cleaned = Cleaned(dirs: map<nat, Machines>, latest: nat, oldest: nat)

  ghost function CleanUp(dirs: map<nat, Machines>, keep: nat): Cleaned
    requires keep >= 1
  {
    Cleaned(Keep(dirs, keep), LatestLeft(dirs, keep), OldestOf(dirs, keep))
  }

  /** Restore the latest checkpoint left and replay; None if a needed record is missing. */
  ghost function RestartedFrom(o: Options, s: Disk, k: Cleaned): Option<Disk> {
    var last := LastRecord(s.log);
    var r := Replay(o, s.log, k.latest + 1, last, RestoredFrom(o, k.dirs, k.latest));
    if r.None? then None else Some(Resumed(s, k, RestartAt(k.latest, last), r.value))
  }

  ghost function Restarted(o: Options, s: Disk): Option<Disk>
    requires ValidOptions(o)
  {
    RestartedFrom(o, s, CleanUp(s.dirs, o.keepDirs))
  }

  function Resumed(s: Disk, k: Cleaned, next: nat, st: Machines): Disk {
    s.(dirs := k.dirs, latest := k.latest, oldest := k.oldest, pending := None, marking := None,
       next := next, maxChosen := next, machines := st)
  }

  ghost predicate Next(o: Options, s: Disk, a: Step, s': Disk)
    requires ValidOptions(o)
  {
    && Enabled(o, s, a)
    && match a
       case Accept(v) => s' == s.(log := s.log[s.next := v])
       case Decide(snapshot) => s' == Decided(o, s, snapshot)
       case FinishCheckpoint(renamed, locked) => s' == Finished(o, s, renamed, locked)
       case Abandon => s' == s.(pending := None)
       case Collect => s' == Collected(o, s)
       case Mark => s' == Marked(s)
       case Restart => Restarted(o, s) == Some(s')
  }

  ghost predicate IsRun(o: Options, ss: seq<Disk>, steps: seq<Step>) {
    && ValidOptions(o)
    && |ss| == |steps| + 1
    && ss[0] == Start(o)
    && forall t :: 0 <= t < |steps| ==> Next(o, ss[t], steps[t], ss[t + 1])
  }

  // ------------------------------------------------------------ invariant

  ghost predicate LogInv(s: Disk) {
    && s.next >= 1 && s.next - 1 <= |s.chosen|
    && (forall k :: k in s.log ==> 1 <= k <= s.next)
    && (forall k :: k in s.log && k <= |s.chosen| ==> s.log[k] == s.chosen[k - 1])
    && (forall k :: 1 <= k <= |s.chosen| && s.floor <= k ==> k in s.log)
  }

  /** `st` is the state after the first `d` decided values. */
  ghost predicate IsStateAt(o: Options, chosen: seq<Value>, d: nat, st: Machines) {
    1 <= d <= |chosen| && st == RunTo(o, chosen, d)
  }

  ghost predicate DirInv(o: Options, s: Disk) {
    && (forall d :: d in s.dirs ==> s.oldest <= d <= s.next && IsStateAt(o, s.chosen, d, s.dirs[d]))
    && (s.dirs.Keys == {} ==> s.oldest == 0)
    && s.oldest < s.next && s.latest < s.next
    && (s.pending.Some? ==>
          var p := s.pending.value;
          && p.id < s.next && s.oldest <= p.id && IsStateAt(o, s.chosen, p.id, p.state)
          && (forall d :: d in s.dirs ==> d <= p.id))
  }

  ghost predicate CleanInv(s: Disk) {
    && s.minChosen <= s.floor <= s.oldest + 1
    && s.maxChosen <= s.next
    && (s.marking.Some? ==> s.marking.value <= s.floor)
  }

  ghost predicate Inv(o: Options, s: Disk) {
    && LogInv(s)
    && s.machines == RunTo(o, s.chosen, s.next - 1)
    && DirInv(o, s)
    && CleanInv(s)
  }

  lemma {:induction false} ReplayContinues(o: Options, log: map<nat, Value>, vs: seq<Value>, from: nat, end: nat)
    requires 1 <= from <= end && end - 1 <= |vs|
    requires forall k :: from <= k < end ==> k in log && log[k] == vs[k - 1]
    ensures Replay(o, log, from, end, RunTo(o, vs, from - 1)) == Some(RunTo(o, vs, end - 1))
    decreases end - from
  {
    if from < end {
      ReplayContinues(o, log, vs, from + 1, end);
    }
  }

  lemma AcceptOk(o: Options, s: Disk, v: Value)
    requires Inv(o, s) && Agreed(s, v)
    ensures Inv(o, s.(log := s.log[s.next := v]))
  {
  }

  lemma DecideOk(o: Options, s: Disk, snapshot: bool)
    requires Inv(o, s) && Enabled(o, s, Decide(snapshot))
    ensures Inv(o, Decided(o, s, snapshot))
  {
    var s' := Decided(o, s, snapshot);
    DecideRuns(o, s, snapshot);
    DirsSurviveGrowth(o, s, s');
    DecideLog(s, s');
    Together(o, s');
  }

  lemma Together(o: Options, s: Disk)
    requires LogInv(s) && s.machines == RunTo(o, s.chosen, s.next - 1) && DirInv(o, s) && CleanInv(s)
    ensures Inv(o, s)
  {
  }

  lemma DecideLog(s: Disk, s': Disk)
    requires LogInv(s) && s.next in s.log && s'.log == s.log && s'.floor == s.floor && s'.next == s.next + 1
    requires s'.chosen == if |s.chosen| >= s.next then s.chosen else s.chosen + [s.log[s.next]]
    ensures LogInv(s')
  {
  }

  lemma DecideRuns(o: Options, s: Disk, snapshot: bool)
    requires Inv(o, s) && Enabled(o, s, Decide(snapshot))
    ensures var s' := Decided(o, s, snapshot);
      s.chosen <= s'.chosen && s.next <= |s'.chosen| && s'.machines == RunTo(o, s'.chosen, s.next)
    ensures Decided(o, s, snapshot).chosen[s.next - 1] == s.log[s.next]
  {
    RunOfPrefix(o, s.chosen, Decided(o, s, snapshot).chosen, s.next - 1);
  }

  /** Snapshots stay right when the list of decided values grows. */
  lemma DirsSurviveGrowth(o: Options, s: Disk, s': Disk)
    requires DirInv(o, s) && s.chosen <= s'.chosen && s'.dirs == s.dirs && s.next >= 1 && s'.next == s.next + 1
    requires s'.oldest == s.oldest && s'.latest == s.latest && s.next <= |s'.chosen|
    requires s'.pending == s.pending || s'.pending == Some(Snapshot(s.next, RunTo(o, s'.chosen, s.next)))
    ensures DirInv(o, s')
  {
    forall d: nat, st | IsStateAt(o, s.chosen, d, st) ensures IsStateAt(o, s'.chosen, d, st) {
      RunOfPrefix(o, s.chosen, s'.chosen, d);
    }
    assert s'.pending.Some? && s'.pending != s.pending ==> IsStateAt(o, s'.chosen, s.next, s'.pending.value.state);
  }

  lemma CollectOk(o: Options, s: Disk)
    requires Inv(o, s) && ValidOptions(o) && s.marking.None?
    ensures Inv(o, Collected(o, s))
  {
  }

  /** A clean-up keeps the first or the second directory, whichever it then calls oldest. */
  lemma KeepFacts(dirs: map<nat, Machines>, keep: nat)
    requires keep >= 1 && dirs.Keys != {}
    ensures OldestOf(dirs, keep) in Keep(dirs, keep)
    ensures LatestLeft(dirs, keep) in Keep(dirs, keep)
    ensures forall d :: d in Keep(dirs, keep) ==>
      d in dirs && OldestOf(dirs, keep) <= d && Keep(dirs, keep)[d] == dirs[d]
  {
    SurvivorFacts(Sorted(dirs.Keys), keep);
  }

  /** Adding the finished snapshot, and then dropping some directories, keeps the invariant. */
  lemma DirsReplaced(o: Options, s: Disk, renamed: bool, s': Disk)
    requires DirInv(o, s) && s.pending.Some? && s'.pending.None?
    requires s'.chosen == s.chosen && s'.next == s.next && s'.latest < s.next && s.oldest <= s'.oldest < s.next
    requires var dirs := WithPending(s, renamed);
      forall d :: d in s'.dirs ==> d in dirs && s'.dirs[d] == dirs[d] && s'.oldest <= d
    requires s'.dirs.Keys == {} ==> s'.oldest == 0
    ensures DirInv(o, s')
  {
    assert forall d :: d in s'.dirs ==> IsStateAt(o, s.chosen, d, s'.dirs[d]);
  }

  lemma FinishUnlocked(o: Options, s: Disk, renamed: bool)
    requires DirInv(o, s) && ValidOptions(o) && s.pending.Some?
    ensures DirInv(o, Finished(o, s, renamed, false))
  {
    assert Renames(s, renamed) ==> s.pending.value.id in WithPending(s, renamed);
    DirsReplaced(o, s, renamed, Finished(o, s, renamed, false));
  }

  lemma FinishLocked(o: Options, s: Disk, renamed: bool)
    requires DirInv(o, s) && ValidOptions(o) && s.pending.Some?
    ensures DirInv(o, Finished(o, s, renamed, true)) && s.oldest <= Finished(o, s, renamed, true).oldest
  {
    var dirs, s' := WithPending(s, renamed), Finished(o, s, renamed, true);
    if dirs.Keys == {} {
      NothingKept(o.keepDirs, dirs);
      assert s.dirs.Keys == {};
    } else {
      KeepFacts(dirs, o.keepDirs);
      assert s'.oldest in dirs && s.oldest <= s'.oldest <= s.pending.value.id;
    }
    DirsReplaced(o, s, renamed, s');
  }

  /** Only the directories changed. */
  lemma DirsChanged(o: Options, s: Disk, s': Disk)
    requires Inv(o, s) && DirInv(o, s') && s.oldest <= s'.oldest
    requires s' == s.(dirs := s'.dirs, latest := s'.latest, oldest := s'.oldest, pending := s'.pending)
    ensures Inv(o, s')
  {
    FrameLog(s, s');
    Together(o, s');
  }

  lemma FinishOk(o: Options, s: Disk, renamed: bool, locked: bool)
    requires Inv(o, s) && ValidOptions(o) && s.pending.Some?
    ensures Inv(o, Finished(o, s, renamed, locked))
  {
    if locked {
      FinishLocked(o, s, renamed);
    } else {
      FinishUnlocked(o, s, renamed);
    }
    DirsChanged(o, s, Finished(o, s, renamed, locked));
  }

  lemma FrameLog(s: Disk, s': Disk)
    requires LogInv(s) && s'.log == s.log && s'.next == s.next && s'.chosen == s.chosen && s'.floor == s.floor
    ensures LogInv(s')
  {
  }

  lemma NothingKept(keep: nat, dirs: map<nat, Machines>)
    requires keep >= 1 && dirs.Keys == {}
    ensures Keep(dirs, keep).Keys == {} && LatestLeft(dirs, keep) == 0 && OldestOf(dirs, keep) == 0
  {
    assert Sorted(dirs.Keys) == [];
  }

  /** What a clean-up must leave for a restart: right snapshots, the latest among them. */
  ghost predicate Usable(o: Options, s: Disk, k: Cleaned) {
    && (forall d :: d in k.dirs ==> d in s.dirs && k.dirs[d] == s.dirs[d] && k.oldest <= d)
    && (if k.dirs.Keys == {} then k.latest == 0 && k.oldest == 0 && s.dirs.Keys == {}
        else k.latest in k.dirs && k.oldest in k.dirs)
  }

  lemma CleanUpIsUsable(o: Options, s: Disk)
    requires ValidOptions(o)
    ensures Usable(o, s, CleanUp(s.dirs, o.keepDirs))
  {
    if s.dirs.Keys != {} {
      KeepFacts(s.dirs, o.keepDirs);
    } else {
      NothingKept(o.keepDirs, s.dirs);
    }
  }

  lemma LastRecordFacts(o: Options, s: Disk)
    requires Inv(o, s)
    ensures LastRecord(s.log) <= s.next
    ensures forall k :: k in s.log ==> k <= LastRecord(s.log)
  {
    if s.log.Keys != {} {
      assert Last(s.log.Keys) in s.log;
    }
  }

  /** From a snapshot of the decided values, with the records after it kept, replay rebuilds the run
      and reaches the last decided value. */
  lemma ReplayRebuilds(o: Options, s: Disk, latest: nat, last: nat)
    requires Inv(o, s) && latest <= |s.chosen| && s.floor <= latest + 1 && last <= s.next
    requires forall k :: k in s.log ==> k <= last
    ensures |s.chosen| <= RestartAt(latest, last) <= |s.chosen| + 1
    ensures Replay(o, s.log, latest + 1, last, RunTo(o, s.chosen, latest)) ==
            Some(RunTo(o, s.chosen, RestartAt(latest, last) - 1))
  {
    assert 1 <= |s.chosen| && s.floor <= |s.chosen| ==> |s.chosen| in s.log;
    if latest + 1 <= last {
      ReplayContinues(o, s.log, s.chosen, latest + 1, last);
    }
  }

  lemma RestoredIsRun(o: Options, s: Disk, k: Cleaned)
    requires Inv(o, s) && Usable(o, s, k)
    ensures k.latest <= |s.chosen| && s.floor <= k.latest + 1
    ensures RestoredFrom(o, k.dirs, k.latest) == RunTo(o, s.chosen, k.latest)
  {
    if k.dirs.Keys != {} {
      assert IsStateAt(o, s.chosen, k.latest, s.dirs[k.latest]);
    }
  }

  /** Recovery refines full execution: a restart always finds what it needs, and the machines, the
      membership included, are those of executing every decided value from the first one on. */
  lemma RestartRebuilds(o: Options, s: Disk, k: Cleaned) returns (next: nat)
    requires Inv(o, s) && Usable(o, s, k)
    ensures next == RestartAt(k.latest, LastRecord(s.log)) && |s.chosen| <= next <= |s.chosen| + 1
    ensures RestartedFrom(o, s, k) == Some(Resumed(s, k, next, RunTo(o, s.chosen, next - 1)))
  {
    RestoredIsRun(o, s, k);
    LastRecordFacts(o, s);
    next := RestartAt(k.latest, LastRecord(s.log));
    ReplayRebuilds(o, s, k.latest, LastRecord(s.log));
  }

  lemma ResumedDirs(o: Options, s: Disk, k: Cleaned, next: nat, st: Machines)
    requires Inv(o, s) && Usable(o, s, k) && k.latest < next && |s.chosen| <= next
    ensures DirInv(o, Resumed(s, k, next, st)) && s.oldest <= k.oldest
  {
    assert forall d :: d in k.dirs ==> IsStateAt(o, s.chosen, d, k.dirs[d]);
  }

  lemma ResumedLog(o: Options, s: Disk, s': Disk, last: nat)
    requires Inv(o, s) && s'.log == s.log && s'.chosen == s.chosen && s'.floor == s.floor
    requires 1 <= s'.next <= |s.chosen| + 1 && last <= s'.next && forall k :: k in s.log ==> k <= last
    ensures LogInv(s')
  {
  }

  lemma RestartOk(o: Options, s: Disk, k: Cleaned, s': Disk)
    requires Inv(o, s) && Usable(o, s, k) && RestartedFrom(o, s, k) == Some(s')
    ensures Inv(o, s')
  {
    var next := RestartRebuilds(o, s, k);
    ResumedDirs(o, s, k, next, s'.machines);
    LastRecordFacts(o, s);
    ResumedLog(o, s, s', LastRecord(s.log));
    Together(o, s');
  }

  lemma StepOk(o: Options, s: Disk, a: Step, s': Disk)
    requires Inv(o, s) && ValidOptions(o) && Next(o, s, a, s')
    ensures Inv(o, s')
  {
    match a
    case Accept(v) => AcceptOk(o, s, v);
    case Decide(snapshot) => DecideOk(o, s, snapshot);
    case FinishCheckpoint(renamed, locked) => FinishOk(o, s, renamed, locked);
    case Abandon => DirsChanged(o, s, s');
    case Collect => CollectOk(o, s);
    case Mark =>
    case Restart =>
      CleanUpIsUsable(o, s);
      RestartOk(o, s, CleanUp(s.dirs, o.keepDirs), s');
  }

  lemma {:induction false} RunKeepsInv(o: Options, ss: seq<Disk>, steps: seq<Step>, t: nat)
    requires IsRun(o, ss, steps) && t < |ss|
    ensures Inv(o, ss[t])
  {
    if t > 0 {
      RunKeepsInv(o, ss, steps, t - 1);
      assert Next(o, ss[t - 1], steps[t - 1], ss[t - 1 + 1]);
      StepOk(o, ss[t - 1], steps[t - 1], ss[t]);
    }
  }

  // ------------------------------------------------------------ theorems

  /** A restart succeeds, gets at least to the last decided value, and the machines are those of executing
      everything up to there. */
  ghost predicate RecoversTo(o: Options, s: Disk, r: Option<Disk>) {
    && r.Some? && 1 <= r.value.next && |s.chosen| <= r.value.next <= |s.chosen| + 1
    && r.value.machines == RunTo(o, s.chosen, r.value.next - 1)
    && IsHistory(s.chosen, r.value.next - 1, r.value.machines.user)
  }

  lemma UsableRecovers(o: Options, s: Disk, k: Cleaned)
    requires Inv(o, s) && Usable(o, s, k)
    ensures RecoversTo(o, s, RestartedFrom(o, s, k))
  {
    var next := RestartRebuilds(o, s, k);
    UserHistory(o, s.chosen, next - 1);
  }

  /** Over every run of execution, checkpoints, cleaning and earlier restarts, stopping at any point,
      even between the two writes of the cleaner: a restart rebuilds the full run. */
  lemma RecoveryRefinesExecution(o: Options, ss: seq<Disk>, steps: seq<Step>, t: nat)
    requires IsRun(o, ss, steps) && t < |ss|
    ensures RecoversTo(o, ss[t], Restarted(o, ss[t]))
  {
    RunKeepsInv(o, ss, steps, t);
    CleanUpIsUsable(o, ss[t]);
    UsableRecovers(o, ss[t], CleanUp(ss[t].dirs, o.keepDirs));
  }

  /** A checkpoint is never asked for at or below the latest one. */
  lemma CheckpointsAdvance(o: Options, ss: seq<Disk>, steps: seq<Step>, t: nat)
    requires IsRun(o, ss, steps) && t < |steps| && steps[t].Decide?
    ensures ss[t].next > ss[t].latest
  {
    RunKeepsInv(o, ss, steps, t);
  }
}
