/** The membership machine: a version gate in front of an ordered list of additions and removals. */
module MembershipMachine {
  import opened Messages

  datatype Member = Member(id: nat, host: string, port: nat, context: string)

  datatype Change = Add(member: Member) | Remove(member: Member)

  datatype Membership = Membership(version: nat, members: map<nat, Member>)

  function ApplyOne(ms: map<nat, Member>, ch: Change): map<nat, Member> {
    match ch
    case Add(m) => ms[m.id := m]
    case Remove(m) => ms - {m.id}
  }

  function ApplyAll(ms: map<nat, Member>, chs: seq<Change>): map<nat, Member>
    decreases |chs|
  {
    if chs == [] then ms else ApplyOne(ApplyAll(ms, chs[..|chs| - 1]), chs[|chs| - 1])
  }

  /** One log entry; `parsed` is None if the bytes are no change message. */
  function Executed(s: Membership, inst: nat, parsed: Option<seq<Change>>): (Membership, bool) {
    if inst <= s.version || parsed.None? then (s, false)
    else (Membership(inst, ApplyAll(s.members, parsed.value)), true)
  }

  /** `k` is the last change that speaks of `id`. */
  predicate LastFor(chs: seq<Change>, id: nat, k: int) {
    && 0 <= k < |chs|
    && chs[k].member.id == id
    && forall j :: k < j < |chs| ==> chs[j].member.id != id
  }

  predicate Untouched(chs: seq<Change>, id: nat) {
    forall j :: 0 <= j < |chs| ==> chs[j].member.id != id
  }

  /** An id no change speaks of keeps its entry. */
  lemma {:induction false} UntouchedStays(ms: map<nat, Member>, chs: seq<Change>, id: nat)
    requires Untouched(chs, id)
    ensures id in ApplyAll(ms, chs) <==> id in ms
    ensures id in ms ==> ApplyAll(ms, chs)[id] == ms[id]
    decreases |chs|
  {
    if chs != [] {
      UntouchedStays(ms, chs[..|chs| - 1], id);
    }
  }

  /** The last change for an id decides, whatever came before it. */
  lemma {:induction false} LastChangeWins(ms: map<nat, Member>, chs: seq<Change>, id: nat, k: nat)
    requires LastFor(chs, id, k)
    ensures id in ApplyAll(ms, chs) <==> chs[k].Add?
    ensures chs[k].Add? ==> ApplyAll(ms, chs)[id] == chs[k].member
    decreases |chs|
  {
    if k < |chs| - 1 {
      LastChangeWins(ms, chs[..|chs| - 1], id, k);
    }
  }

  /** An entry takes effect once: handing it over again, or any earlier one, changes nothing. */
  lemma ExecutedOnce(s: Membership, inst: nat, parsed: Option<seq<Change>>, again: nat, other: Option<seq<Change>>)
    requires Executed(s, inst, parsed).1 && again <= inst
    ensures Executed(Executed(s, inst, parsed).0, again, other) == (Executed(s, inst, parsed).0, false)
  {
  }

  class Machine {
    var version: nat
    var members: map<nat, Member>

    function State(): Membership
      reads this
    {
      Membership(version, members)
    }

    constructor (initial: map<nat, Member>)
      ensures State() == Membership(0, initial)
    {
      version, members := 0, initial;
    }

    method Execute(inst: nat, parsed: Option<seq<Change>>) returns (ok: bool)
      modifies this
      ensures (State(), ok) == Executed(old(State()), inst, parsed)
    {
      if inst <= version || parsed.None? {
        return false;
      }
      var chs := parsed.value;
      for i := 0 to |chs|
        invariant members == ApplyAll(old(members), chs[..i]) && version == old(version)
      {
        assert chs[..i + 1][..i] == chs[..i];
        match chs[i] {
          case Add(m) => members := members[m.id := m];
          case Remove(m) => members := members - {m.id};
        }
      }
      assert chs[..|chs|] == chs;
      version := inst;
      ok := true;
    }
  }
}
