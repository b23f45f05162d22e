/** Sending a checkpoint to another node: numbered chunks, a receiver that only takes the next one,
    and a network that may lose, repeat, delay and interleave everything. */
module Transfer {
  import opened Messages

  type Bytes = seq<bv8>

  /** A file of one machine. */
  datatype Key = Key(machine: nat, file: string)

  datatype Packet =
    | Begin(src: nat, inst: nat, num: nat)
    | Chunk(src: nat, inst: nat, num: nat, key: Key, data: Bytes)
    | End(src: nat, inst: nat, num: nat)

  const BUFFER_SIZE: nat := 65535

  // ------------------------------------------------------------ sender

  /** The bytes the packets carry for `k`, in order. */
  function DataFor(ps: seq<Packet>, k: Key): Bytes
    decreases |ps|
  {
    if ps == [] then []
    else
      var p := ps[|ps| - 1];
      DataFor(ps[..|ps| - 1], k) + (if p.Chunk? && p.key == k then p.data else [])
  }

  function Touched(ps: seq<Packet>): set<Key> {
    set p | p in ps && p.Chunk? :: p.key
  }

  /** Packets of one session: numbered from 0 without a gap, BEGIN first and then chunks. */
  predicate Numbered(src: nat, inst: nat, ps: seq<Packet>) {
    && |ps| >= 1
    && ps[0] == Begin(src, inst, 0)
    && forall j :: 1 <= j < |ps| ==> ps[j].Chunk? && ps[j].src == src && ps[j].inst == inst && ps[j].num == j
  }

  datatype File = File(name: string, content: Bytes)

  datatype Machine = Machine(id: nat, files: seq<File>)

  /** What happens around a session: whether a machine names its files, a file opens, how much a read at
      an offset yields (None is a read error), and whether the acknowledgements seen once `n` packets are
      out are positive. */
  datatype Environment = Environment(
    get: nat -> bool, open: Key -> bool, read: (Key, nat) -> Option<nat>, good: nat -> bool)

  /** Where the piece read at `offset` stops: after 1 to BUFFER_SIZE bytes, or at the end of the file. */
  function Stop(size: nat, offset: nat, length: nat): (r: nat)
    requires offset < length
    ensures offset < r <= length && r - offset <= BUFFER_SIZE
  {
    var n := if 1 <= size <= BUFFER_SIZE then size else BUFFER_SIZE;
    if offset + n < length then offset + n else length
  }

  /** The packets for a file from `offset` on, the first numbered `n`, and whether all went well. */
  function FileRun(e: Environment, src: nat, inst: nat, key: Key, content: Bytes, offset: nat, n: nat): (seq<Packet>,
                   bool)
    requires offset <= |content|
    decreases |content| - offset
  {
    if e.read(key, offset).None? then ([], false)
    else if offset == |content| then ([], true)
    else
      var stop := Stop(e.read(key, offset).value, offset, |content|);
      var p := Chunk(src, inst, n, key, content[offset..stop]);
      if !e.good(n + 1) then ([p], false)
      else
        var rest := FileRun(e, src, inst, key, content, stop, n + 1);
        ([p] + rest.0, rest.1)
  }

  function OneFile(e: Environment, src: nat, inst: nat, key: Key, content: Bytes, n: nat): (seq<Packet>, bool) {
    if e.open(key) then FileRun(e, src, inst, key, content, 0, n) else ([], false)
  }

  /** The files of one machine, up to the first that fails. */
  function FilesRun(e: Environment, src: nat, inst: nat, id: nat, files: seq<File>, n: nat): (seq<Packet>, bool)
    decreases |files|
  {
    if files == [] then ([], true)
    else
      var a := OneFile(e, src, inst, Key(id, files[0].name), files[0].content, n);
      if !a.1 then a
      else
        var b := FilesRun(e, src, inst, id, files[1..], n + |a.0|);
        (a.0 + b.0, b.1)
  }

  /** All machines. A failed file ends its own machine only, and the result is that of the last machine. */
  function PlanRun(e: Environment, src: nat, inst: nat, ms: seq<Machine>, n: nat): (seq<Packet>, bool)
    decreases |ms|
  {
    if ms == [] then ([], true)
    else if !e.get(ms[0].id) then ([], false)
    else
      var a := FilesRun(e, src, inst, ms[0].id, ms[0].files, n);
      var b := PlanRun(e, src, inst, ms[1..], n + |a.0|);
      (a.0 + b.0, if |ms| == 1 then a.1 else b.1)
  }

  /** Whether every file of machine `i` went through. */
  function MachineOk(e: Environment, src: nat, inst: nat, ms: seq<Machine>, n: nat, i: nat): bool
    requires i < |ms|
    decreases |ms|
  {
    e.get(ms[0].id) &&
    var a := FilesRun(e, src, inst, ms[0].id, ms[0].files, n);
    if i == 0 then a.1 else MachineOk(e, src, inst, ms[1..], n + |a.0|, i - 1)
  }

  lemma Regroup(s: seq<Packet>, t: seq<Packet>, u: seq<Packet>)
    ensures s + (t + u) == (s + t) + u
  {
  }

  lemma FilesFrom(e: Environment, src: nat, inst: nat, id: nat, files: seq<File>, i: nat, n: nat, sent: seq<Packet>)
    requires i < |files|
    ensures var r := FilesRun(e, src, inst, id, files[i..], n);
            var a := OneFile(e, src, inst, Key(id, files[i].name), files[i].content, n);
            var b := FilesRun(e, src, inst, id, files[i + 1..], n + |a.0|);
            if !a.1 then sent + r.0 == sent + a.0 && !r.1 else sent + r.0 == (sent + a.0) + b.0 && r.1 == b.1
  {
    assert files[i..][1..] == files[i + 1..];
    var a := OneFile(e, src, inst, Key(id, files[i].name), files[i].content, n);
    Regroup(sent, a.0, FilesRun(e, src, inst, id, files[i + 1..], n + |a.0|).0);
  }

  lemma PlanFrom(e: Environment, src: nat, inst: nat, ms: seq<Machine>, i: nat, n: nat, sent: seq<Packet>)
    requires i < |ms|
    ensures var r := PlanRun(e, src, inst, ms[i..], n);
            if !e.get(ms[i].id) then sent + r.0 == sent && !r.1
            else
              var a := FilesRun(e, src, inst, ms[i].id, ms[i].files, n);
              var b := PlanRun(e, src, inst, ms[i + 1..], n + |a.0|);
              sent + r.0 == (sent + a.0) + b.0 && r.1 == if i + 1 == |ms| then a.1 else b.1
  {
    assert ms[i..][1..] == ms[i + 1..];
    assert sent + [] == sent;
    var a := FilesRun(e, src, inst, ms[i].id, ms[i].files, n);
    Regroup(sent, a.0, PlanRun(e, src, inst, ms[i + 1..], n + |a.0|).0);
  }

  class Sender {
    const me: nat
    const inst: nat
    var sequence: nat
    var sent: seq<Packet>

    ghost predicate Valid()
      reads this
    {
      Numbered(me, inst, sent) && sequence == |sent|
    }

    /** Opening a session sends BEGIN. */
    constructor (me: nat, inst: nat)
      ensures Valid() && this.me == me && this.inst == inst && sent == [Begin(me, inst, 0)]
    {
      this.me, this.inst := me, inst;
      sent := [Begin(me, inst, 0)];
      sequence := 1;
    }

    method SendFile(e: Environment, key: Key, content: Bytes) returns (ok: bool)
      requires Valid()
      modifies this
      ensures Valid()
      ensures (sent, ok) == (old(sent) + OneFile(e, me, inst, key, content, old(sequence)).0,
                             OneFile(e, me, inst, key, content, old(sequence)).1)
    {
      if !e.open(key) {
        assert sent + [] == sent;
        return false;
      }
      var offset := 0;
      ok := true;
      ghost var all := FileRun(e, me, inst, key, content, 0, sequence);
      while ok
        invariant offset <= |content| && Valid()
        invariant ok ==> old(sent) + all.0 == sent + FileRun(e, me, inst, key, content, offset, sequence).0
        invariant ok ==> all.1 == FileRun(e, me, inst, key, content, offset, sequence).1
        invariant !ok ==> !all.1 && sent == old(sent) + all.0
        decreases |content| - offset, ok
      {
        var r := e.read(key, offset);
        if r.None? {
          ok := false;
          break;
        }
        if offset == |content| {
          break;
        }
        var stop := Stop(r.value, offset, |content|);
        sent := sent + [Chunk(me, inst, sequence, key, content[offset..stop])];
        sequence := sequence + 1;
        offset := stop;
        ok := e.good(sequence);
      }
      assert sent + [] == sent;
    }

    method SendFiles(e: Environment, m: Machine) returns (ok: bool)
      requires Valid()
      modifies this
      ensures Valid()
      ensures (sent, ok) == (old(sent) + FilesRun(e, me, inst, m.id, m.files, old(sequence)).0,
                             FilesRun(e, me, inst, m.id, m.files, old(sequence)).1)
    {
      var i := 0;
      ok := true;
      ghost var all := FilesRun(e, me, inst, m.id, m.files, sequence);
      assert m.files[0..] == m.files;
      while i < |m.files|
        invariant i <= |m.files| && Valid() && ok
        invariant old(sent) + all.0 == sent + FilesRun(e, me, inst, m.id, m.files[i..], sequence).0
        invariant all.1 == FilesRun(e, me, inst, m.id, m.files[i..], sequence).1
      {
        FilesFrom(e, me, inst, m.id, m.files, i, sequence, sent);
        ok := SendFile(e, Key(m.id, m.files[i].name), m.files[i].content);
        if !ok {
          break;
        }
        i := i + 1;
      }
      assert sent + [] == sent;
    }

    method SendCheckpointFiles(e: Environment, ms: seq<Machine>) returns (ok: bool)
      requires Valid()
      modifies this
      ensures Valid()
      ensures (sent, ok) == (old(sent) + PlanRun(e, me, inst, ms, old(sequence)).0,
                             PlanRun(e, me, inst, ms, old(sequence)).1)
    {
      var i := 0;
      ok := true;
      ghost var all := PlanRun(e, me, inst, ms, sequence);
      assert ms[0..] == ms;
      while i < |ms|
        invariant i <= |ms| && Valid()
        invariant old(sent) + all.0 == sent + PlanRun(e, me, inst, ms[i..], sequence).0
        invariant all.1 == if i == |ms| then ok else PlanRun(e, me, inst, ms[i..], sequence).1
      {
        PlanFrom(e, me, inst, ms, i, sequence, sent);
        if !e.get(ms[i].id) {
          return false;
        }
        ok := SendFiles(e, ms[i]);
        i := i + 1;
      }
      assert sent + [] == sent;
    }
  }

  // ------------------------------------------------------------ what a session carries

  lemma {:induction false} DataForConcat(ps: seq<Packet>, qs: seq<Packet>, k: Key)
    ensures DataFor(ps + qs, k) == DataFor(ps, k) + DataFor(qs, k)
    decreases |qs|
  {
    if qs == [] {
      assert ps + qs == ps;
    } else {
      var q := qs[..|qs| - 1];
      DataForConcat(ps, q, k);
      assert (ps + qs)[..|ps + qs| - 1] == ps + q;
    }
  }

  /** A file's packets carry its bytes in order, all of them if all went well, and nothing else. */
  lemma {:induction false} FileData(e: Environment, src: nat, inst: nat, key: Key, content: Bytes, offset: nat,
                                    n: nat, k: Key)
    requires offset <= |content|
    ensures var r := FileRun(e, src, inst, key, content, offset, n);
            if k == key then DataFor(r.0, k) <= content[offset..] && (r.1 ==> DataFor(r.0, k) == content[offset..])
            else DataFor(r.0, k) == []
    decreases |content| - offset
  {
    if e.read(key, offset).Some? && offset < |content| {
      var stop := Stop(e.read(key, offset).value, offset, |content|);
      var p := Chunk(src, inst, n, key, content[offset..stop]);
      assert DataFor([p][..0], k) == [];
      assert DataFor([p], k) == if k == key then p.data else [];
      assert content[offset..] == content[offset..stop] + content[stop..];
      if e.good(n + 1) {
        FileData(e, src, inst, key, content, stop, n + 1, k);
        DataForConcat([p], FileRun(e, src, inst, key, content, stop, n + 1).0, k);
      }
    }
  }

  /** The bytes sent for a file are a prefix of it, all of it if `ok`, and none if it did not open. */
  predicate Within(sent: Bytes, content: Bytes, ok: bool, isOpen: bool) {
    sent <= content && (ok ==> sent == content) && (!isOpen ==> sent == [])
  }

  lemma OneFileData(e: Environment, src: nat, inst: nat, key: Key, content: Bytes, n: nat, k: Key)
    ensures var r := OneFile(e, src, inst, key, content, n);
            if k == key then Within(DataFor(r.0, k), content, r.1, e.open(key)) else DataFor(r.0, k) == []
  {
    FileData(e, src, inst, key, content, 0, n, k);
    assert content[0..] == content;
  }

  predicate DistinctNames(files: seq<File>) {
    forall i, j :: 0 <= i < j < |files| ==> files[i].name != files[j].name
  }

  predicate DistinctMachines(ms: seq<Machine>) {
    forall i, j :: 0 <= i < j < |ms| ==> ms[i].id != ms[j].id
  }

  type Run = (seq<Packet>, bool)

  lemma ThenData(r: Run, a: Run, b: Run, k: Key)
    requires r == if a.1 then (a.0 + b.0, b.1) else a
    ensures DataFor(r.0, k) == DataFor(a.0, k) + (if a.1 then DataFor(b.0, k) else []) && r.1 == (a.1 && b.1)
  {
    DataForConcat(a.0, b.0, k);
  }

  lemma AndData(r: Run, a: Run, b: Run, last: bool, k: Key)
    requires r == (a.0 + b.0, if last then a.1 else b.1)
    ensures DataFor(r.0, k) == DataFor(a.0, k) + DataFor(b.0, k) && r.1 == if last then a.1 else b.1
  {
    DataForConcat(a.0, b.0, k);
  }

  lemma NothingThen(r: Run, a: Run, b: Run, k: Key)
    requires r == (if a.1 then (a.0 + b.0, b.1) else a) && DataFor(a.0, k) == [] && DataFor(b.0, k) == []
    ensures DataFor(r.0, k) == []
  {
    ThenData(r, a, b, k);
  }

  lemma NothingAnd(r: Run, a: Run, b: Run, last: bool, k: Key)
    requires r == (a.0 + b.0, if last then a.1 else b.1) && DataFor(a.0, k) == [] && DataFor(b.0, k) == []
    ensures DataFor(r.0, k) == []
  {
    AndData(r, a, b, last, k);
  }

  lemma {:induction false} NotThere(e: Environment, src: nat, inst: nat, id: nat, files: seq<File>, n: nat, k: Key)
    requires k.machine != id || forall f :: f in files ==> f.name != k.file
    ensures DataFor(FilesRun(e, src, inst, id, files, n).0, k) == []
    decreases |files|
  {
    if files != [] {
      var a := OneFile(e, src, inst, Key(id, files[0].name), files[0].content, n);
      OneFileData(e, src, inst, Key(id, files[0].name), files[0].content, n, k);
      NotThere(e, src, inst, id, files[1..], n + |a.0|, k);
      NothingThen(FilesRun(e, src, inst, id, files, n), a, FilesRun(e, src, inst, id, files[1..], n + |a.0|), k);
    }
  }

  lemma WithinFirst(d: Bytes, x: Bytes, y: Bytes, content: Bytes, ok: bool, more: bool, isOpen: bool)
    requires Within(x, content, ok, isOpen) && d == x + y && y == []
    ensures Within(d, content, ok && more, isOpen)
  {
    assert x + [] == x;
  }

  lemma WithinRest(d: Bytes, x: Bytes, y: Bytes, content: Bytes, ok: bool, more: bool, isOpen: bool)
    requires Within(y, content, more, isOpen) && x == [] && d == x + (if ok then y else [])
    ensures Within(d, content, ok && more, isOpen)
  {
    assert [] + y == y;
  }

  lemma RestIsDistinct(files: seq<File>)
    requires DistinctNames(files) && files != []
    ensures DistinctNames(files[1..]) && forall f :: f in files[1..] ==> f.name != files[0].name
  {
  }

  lemma FirstThen(r: Run, a: Run, b: Run, k: Key, content: Bytes, isOpen: bool)
    requires r == (if a.1 then (a.0 + b.0, b.1) else a)
    requires Within(DataFor(a.0, k), content, a.1, isOpen) && DataFor(b.0, k) == []
    ensures Within(DataFor(r.0, k), content, r.1, isOpen)
  {
    ThenData(r, a, b, k);
    WithinFirst(DataFor(r.0, k), DataFor(a.0, k), [], content, a.1, b.1, isOpen);
  }

  lemma FirstFileData(e: Environment, src: nat, inst: nat, id: nat, files: seq<File>, n: nat)
    requires DistinctNames(files) && files != []
    ensures var r := FilesRun(e, src, inst, id, files, n);
            var k := Key(id, files[0].name);
            Within(DataFor(r.0, k), files[0].content, r.1, e.open(k))
  {
    var k := Key(id, files[0].name);
    var a := OneFile(e, src, inst, k, files[0].content, n);
    OneFileData(e, src, inst, k, files[0].content, n, k);
    RestIsDistinct(files);
    NotThere(e, src, inst, id, files[1..], n + |a.0|, k);
    FirstThen(FilesRun(e, src, inst, id, files, n), a, FilesRun(e, src, inst, id, files[1..], n + |a.0|), k,
              files[0].content, e.open(k));
  }

  lemma LaterFileData(e: Environment, src: nat, inst: nat, id: nat, files: seq<File>, n: nat, k: Key, content: Bytes,
                      a: Run, b: Run)
    requires files != [] && k != Key(id, files[0].name)
    requires a == OneFile(e, src, inst, Key(id, files[0].name), files[0].content, n)
    requires b == FilesRun(e, src, inst, id, files[1..], n + |a.0|) && Within(DataFor(b.0, k), content, b.1, e.open(k))
    ensures var r := FilesRun(e, src, inst, id, files, n);
            Within(DataFor(r.0, k), content, r.1, e.open(k))
  {
    var r := FilesRun(e, src, inst, id, files, n);
    OneFileData(e, src, inst, Key(id, files[0].name), files[0].content, n, k);
    ThenData(r, a, b, k);
    WithinRest(DataFor(r.0, k), DataFor(a.0, k), DataFor(b.0, k), content, a.1, b.1, e.open(k));
  }

  lemma {:induction false} FilesData(e: Environment, src: nat, inst: nat, id: nat, files: seq<File>, n: nat, j: nat)
    requires DistinctNames(files) && j < |files|
    ensures var r := FilesRun(e, src, inst, id, files, n);
            var k := Key(id, files[j].name);
            Within(DataFor(r.0, k), files[j].content, r.1, e.open(k))
    decreases |files|
  {
    if j == 0 {
      FirstFileData(e, src, inst, id, files, n);
    } else {
      RestIsDistinct(files);
      var a := OneFile(e, src, inst, Key(id, files[0].name), files[0].content, n);
      var n1 := n + |a.0|;
      FilesData(e, src, inst, id, files[1..], n1, j - 1);
      LaterFileData(e, src, inst, id, files, n, Key(id, files[j].name), files[j].content, a,
                    FilesRun(e, src, inst, id, files[1..], n1));
    }
  }

  lemma {:induction false} NotPlanned(e: Environment, src: nat, inst: nat, ms: seq<Machine>, n: nat, k: Key)
    requires forall m :: m in ms ==> m.id != k.machine
    ensures DataFor(PlanRun(e, src, inst, ms, n).0, k) == []
    decreases |ms|
  {
    if ms != [] && e.get(ms[0].id) {
      var a := FilesRun(e, src, inst, ms[0].id, ms[0].files, n);
      assert ms[0] in ms;
      NotThere(e, src, inst, ms[0].id, ms[0].files, n, k);
      NotPlanned(e, src, inst, ms[1..], n + |a.0|, k);
      NothingAnd(PlanRun(e, src, inst, ms, n), a, PlanRun(e, src, inst, ms[1..], n + |a.0|), |ms| == 1, k);
    }
  }

  predicate DistinctKeys(ms: seq<Machine>) {
    DistinctMachines(ms) && forall i :: 0 <= i < |ms| ==> DistinctNames(ms[i].files)
  }

  function KeyOf(ms: seq<Machine>, i: nat, j: nat): Key
    requires i < |ms| && j < |ms[i].files|
  {
    Key(ms[i].id, ms[i].files[j].name)
  }

  lemma FirstAnd(r: Run, a: Run, b: Run, last: bool, k: Key, content: Bytes, isOpen: bool)
    requires r == (a.0 + b.0, if last then a.1 else b.1)
    requires Within(DataFor(a.0, k), content, a.1, isOpen) && DataFor(b.0, k) == []
    ensures Within(DataFor(r.0, k), content, a.1, isOpen)
  {
    AndData(r, a, b, last, k);
    WithinFirst(DataFor(r.0, k), DataFor(a.0, k), [], content, a.1, true, isOpen);
  }

  lemma FirstMachineData(e: Environment, src: nat, inst: nat, ms: seq<Machine>, n: nat, j: nat)
    requires DistinctKeys(ms) && ms != [] && j < |ms[0].files| && e.get(ms[0].id)
    ensures var r := PlanRun(e, src, inst, ms, n);
            var k := KeyOf(ms, 0, j);
            Within(DataFor(r.0, k), ms[0].files[j].content, MachineOk(e, src, inst, ms, n, 0), e.open(k))
  {
    var k := KeyOf(ms, 0, j);
    var a := FilesRun(e, src, inst, ms[0].id, ms[0].files, n);
    FilesData(e, src, inst, ms[0].id, ms[0].files, n, j);
    RestIsElsewhere(ms);
    NotPlanned(e, src, inst, ms[1..], n + |a.0|, k);
    FirstAnd(PlanRun(e, src, inst, ms, n), a, PlanRun(e, src, inst, ms[1..], n + |a.0|), |ms| == 1, k,
             ms[0].files[j].content, e.open(k));
  }

  lemma RestIsElsewhere(ms: seq<Machine>)
    requires DistinctKeys(ms) && ms != []
    ensures DistinctKeys(ms[1..]) && forall m :: m in ms[1..] ==> m.id != ms[0].id
  {
  }

  lemma LaterMachineData(e: Environment, src: nat, inst: nat, ms: seq<Machine>, n: nat, k: Key, content: Bytes,
                         ok: bool,
                         a: Run, b: Run)
    requires |ms| > 1 && k.machine != ms[0].id && e.get(ms[0].id)
    requires a == FilesRun(e, src, inst, ms[0].id, ms[0].files, n)
    requires b == PlanRun(e, src, inst, ms[1..], n + |a.0|) && Within(DataFor(b.0, k), content, ok, e.open(k))
    ensures var r := PlanRun(e, src, inst, ms, n);
            Within(DataFor(r.0, k), content, ok, e.open(k))
  {
    var r := PlanRun(e, src, inst, ms, n);
    NotThere(e, src, inst, ms[0].id, ms[0].files, n, k);
    AndData(r, a, b, false, k);
    WithinRest(DataFor(r.0, k), DataFor(a.0, k), DataFor(b.0, k), content, true, ok, e.open(k));
  }

  /** Never more than a prefix of each file, and all of it where the machine's files went through. */
  lemma {:induction false} PlanData(e: Environment, src: nat, inst: nat, ms: seq<Machine>, n: nat, i: nat, j: nat)
    requires DistinctKeys(ms) && i < |ms| && j < |ms[i].files|
    ensures var r := PlanRun(e, src, inst, ms, n);
            var k := KeyOf(ms, i, j);
            Within(DataFor(r.0, k), ms[i].files[j].content, MachineOk(e, src, inst, ms, n, i), e.open(k))
    decreases |ms|
  {
    if e.get(ms[0].id) {
      if i == 0 {
        FirstMachineData(e, src, inst, ms, n, j);
      } else {
        RestIsElsewhere(ms);
        var a := FilesRun(e, src, inst, ms[0].id, ms[0].files, n);
        var n1 := n + |a.0|;
        assert ms[1..][i - 1] == ms[i];
        PlanData(e, src, inst, ms[1..], n1, i - 1, j);
        LaterMachineData(e, src, inst, ms, n, KeyOf(ms, i, j), ms[i].files[j].content,
                         MachineOk(e, src, inst, ms, n, i), a, PlanRun(e, src, inst, ms[1..], n1));
      }
    }
  }

  /** The packets carry every byte of every file. */
  ghost predicate Complete(ms: seq<Machine>, ps: seq<Packet>) {
    forall i: nat, j: nat | i < |ms| && j < |ms[i].files| :: DataFor(ps, KeyOf(ms, i, j)) == ms[i].files[j].content
  }

  /** No machine but the last has a byte to send. */
  predicate OnlyLastHasData(ms: seq<Machine>) {
    forall i: nat, j: nat | i < |ms| - 1 && j < |ms[i].files| :: ms[i].files[j].content == []
  }

  /** In whatever environment, a session that reports success sent everything. */
  ghost predicate SuccessIsComplete(src: nat, inst: nat, ms: seq<Machine>) {
    forall e: Environment :: PlanRun(e, src, inst, ms, 1).1 ==> Complete(ms, PlanRun(e, src, inst, ms, 1).0)
  }

  /** Everything goes well except opening `bad`. */
  function AllButOne(bad: Key): Environment {
    Environment((_: nat) => true, (k: Key) => k != bad, (_: Key, _: nat) => Some(1), (_: nat) => true)
  }

  /** Nothing fails for machine `id`: it names its files, they open and are read, and no acknowledgement
      is negative. */
  ghost predicate Smooth(e: Environment, id: nat) {
    && e.get(id)
    && (forall k: Key :: k.machine == id ==> e.open(k))
    && (forall k: Key, offset: nat :: k.machine == id ==> e.read(k, offset).Some?)
    && (forall n: nat :: e.good(n))
  }

  lemma {:induction false} FileSucceeds(e: Environment, src: nat, inst: nat, key: Key, content: Bytes, offset: nat,
                                        n: nat)
    requires Smooth(e, key.machine) && offset <= |content|
    ensures FileRun(e, src, inst, key, content, offset, n).1
    decreases |content| - offset
  {
    if offset < |content| {
      FileSucceeds(e, src, inst, key, content, Stop(e.read(key, offset).value, offset, |content|), n + 1);
    }
  }

  lemma {:induction false} FilesSucceed(e: Environment, src: nat, inst: nat, id: nat, files: seq<File>, n: nat)
    requires Smooth(e, id)
    ensures FilesRun(e, src, inst, id, files, n).1
    decreases |files|
  {
    if files != [] {
      var key := Key(id, files[0].name);
      FileSucceeds(e, src, inst, key, files[0].content, 0, n);
      FilesSucceed(e, src, inst, id, files[1..], n + |OneFile(e, src, inst, key, files[0].content, n).0|);
    }
  }

  /** Where nothing fails every machine's files go through. */
  lemma {:induction false} SmoothIsOk(e: Environment, src: nat, inst: nat, ms: seq<Machine>, n: nat, i: nat)
    requires i < |ms| && forall m :: m in ms[..i] ==> e.get(m.id)
    requires Smooth(e, ms[i].id)
    ensures MachineOk(e, src, inst, ms, n, i)
    decreases |ms|
  {
    var a := FilesRun(e, src, inst, ms[0].id, ms[0].files, n);
    if i == 0 {
      FilesSucceed(e, src, inst, ms[0].id, ms[0].files, n);
    } else {
      assert ms[0] in ms[..i] && forall m :: m in ms[1..][..i - 1] ==> m in ms[..i];
      SmoothIsOk(e, src, inst, ms[1..], n + |a.0|, i - 1);
    }
  }

  /** The result that is reported is that of the last machine. */
  lemma {:induction false} LastDecides(e: Environment, src: nat, inst: nat, ms: seq<Machine>, n: nat)
    requires ms != []
    ensures PlanRun(e, src, inst, ms, n).1 == MachineOk(e, src, inst, ms, n, |ms| - 1)
    decreases |ms|
  {
    if e.get(ms[0].id) && |ms| > 1 {
      LastDecides(e, src, inst, ms[1..], n + |FilesRun(e, src, inst, ms[0].id, ms[0].files, n).0|);
    }
  }

  /** Success, after which END goes out, means that everything was sent exactly for the checkpoints in
      which only the last machine has anything to send. Otherwise a file that fails is forgotten as soon
      as the next machine's files are through. */
  lemma SuccessIsCompleteIff(src: nat, inst: nat, ms: seq<Machine>)
    requires DistinctKeys(ms)
    ensures SuccessIsComplete(src, inst, ms) <==> OnlyLastHasData(ms)
  {
    if OnlyLastHasData(ms) {
      forall e: Environment | PlanRun(e, src, inst, ms, 1).1
        ensures Complete(ms, PlanRun(e, src, inst, ms, 1).0)
      {
        forall i: nat, j: nat | i < |ms| && j < |ms[i].files|
          ensures DataFor(PlanRun(e, src, inst, ms, 1).0, KeyOf(ms, i, j)) == ms[i].files[j].content
        {
          PlanData(e, src, inst, ms, 1, i, j);
          LastDecides(e, src, inst, ms, 1);
        }
      }
    } else {
      var i: nat, j: nat :| i < |ms| - 1 && j < |ms[i].files| && ms[i].files[j].content != [];
      var bad := KeyOf(ms, i, j);
      PlanData(AllButOne(bad), src, inst, ms, 1, i, j);
      SmoothIsOk(AllButOne(bad), src, inst, ms, 1, |ms| - 1);
      LastDecides(AllButOne(bad), src, inst, ms, 1);
    }
  }

  // ------------------------------------------------------------ receiver

  /** What the file system does with one packet: whether the old files go, the directory is there, the
      append succeeds and the final rename succeeds; and what is left behind on a failure. */
  datatype Io = Io(deleteOk: bool, dirOk: bool, appendOk: bool, renameOk: bool, junk: map<Key, Bytes>)

  /** `sender` 0 is nobody. Once `installed`, the process ends. */
  datatype Receiver = Receiver(
    sender: nat, sequence: nat, dirs: set<nat>, files: map<Key, Bytes>, installed: Option<map<Key, Bytes>>)

  function Reset(r: Receiver): Receiver {
    r.(sender := 0, sequence := 0, dirs := {})
  }

  function Contents(files: map<Key, Bytes>, k: Key): Bytes {
    if k in files then files[k] else []
  }

  function Appended(files: map<Key, Bytes>, k: Key, data: Bytes): map<Key, Bytes> {
    files[k := Contents(files, k) + data]
  }

  function OnBegin(r: Receiver, p: Packet, io: Io): Receiver
    requires p.Begin?
  {
    var r1 := r.(sender := p.src, sequence := 0, dirs := {}, files := if io.deleteOk then map[] else io.junk);
    if io.deleteOk then r1 else Reset(r1)
  }

  function OnChunk(r: Receiver, p: Packet, io: Io): Receiver
    requires p.Chunk?
  {
    if p.src != r.sender || p.num == r.sequence then r
    else if p.num != r.sequence + 1 || (p.key.machine !in r.dirs && !io.dirOk) then Reset(r)
    else if !io.appendOk then Reset(r.(files := io.junk))
    else r.(dirs := r.dirs + {p.key.machine}, files := Appended(r.files, p.key, p.data), sequence := r.sequence + 1)
  }

  function OnEnd(r: Receiver, p: Packet, io: Io): Receiver
    requires p.End?
  {
    if p.src == r.sender && p.num == r.sequence + 1 && io.renameOk then r.(installed := Some(r.files)) else r
  }

  function OnPacket(r: Receiver, p: Packet, io: Io): Receiver {
    if r.installed.Some? then r
    else
      match p
      case Begin(_, _, _) => OnBegin(r, p, io)
      case Chunk(_, _, _, _, _) => OnChunk(r, p, io)
      case End(_, _, _) => OnEnd(r, p, io)
  }

  /** The receiving object, as the node keeps it. */
  class ReceiverObject {
    var sender: nat
    var sequence: nat
    var dirs: set<nat>
    var files: map<Key, Bytes>
    var installed: Option<map<Key, Bytes>>

    function State(): Receiver
      reads this
    {
      Receiver(sender, sequence, dirs, files, installed)
    }

    method ResetAll()
      modifies this
      ensures State() == Reset(old(State()))
    {
      sender, sequence, dirs := 0, 0, {};
    }

    method ReceiveFiles(p: Packet, io: Io) returns (ok: bool)
      requires p.Chunk?
      modifies this
      ensures sender == old(sender) && installed == old(installed)
      ensures ok ==> State() == OnChunk(old(State()), p, io) && sender == p.src && sequence == p.num
      ensures !ok ==> (if p.src == sender then Reset(State()) else State()) == OnChunk(old(State()), p, io)
    {
      if p.src != sender {
        return false;
      }
      if p.num == sequence {
        return true;
      }
      if p.num != sequence + 1 {
        return false;
      }
      if p.key.machine !in dirs {
        if !io.dirOk {
          return false;
        }
        dirs := dirs + {p.key.machine};
      }
      assert dirs == old(dirs) + {p.key.machine};
      if !io.appendOk {
        files := io.junk;
        return false;
      }
      files := Appended(files, p.key, p.data);
      sequence := sequence + 1;
      return true;
    }

    /** Handles one packet; `confirm` is the acknowledgement sent back, if any. */
    method Receive(p: Packet, io: Io) returns (confirm: Option<bool>)
      requires installed.None?
      modifies this
      ensures State() == OnPacket(old(State()), p, io)
      ensures confirm.None? <==> p.End?
      ensures p.Begin? ==> confirm == Some(io.deleteOk)
      ensures installed.Some? ==> p.End? && io.renameOk && p.src == old(sender)
      ensures p.Chunk? && p.src != 0 ==> (confirm == Some(true) <==> sender == p.src && sequence == p.num)
    {
      match p {
        case Begin(_, _, _) =>
          sender, sequence, dirs := p.src, 0, {};
          files := if io.deleteOk then map[] else io.junk;
          if !io.deleteOk {
            ResetAll();
          }
          confirm := Some(io.deleteOk);
        case Chunk(_, _, _, _, _) =>
          var ok := ReceiveFiles(p, io);
          if !ok && p.src == sender {
            ResetAll();
          }
          confirm := Some(ok);
        case End(_, _, _) =>
          if p.src == sender && p.num == sequence + 1 && io.renameOk {
            installed := Some(files);
          }
          confirm := None;
      }
    }
  }

  // ------------------------------------------------------------ the protocol

  /** A sender's one session: its packets before END, and whether END went out. */
  datatype Session = Session(inst: nat, packets: seq<Packet>, ended: bool)

  type Sessions = map<nat, Session>

  predicate ValidSessions(ss: Sessions) {
    forall a :: a in ss ==> a != 0 && Numbered(a, ss[a].inst, ss[a].packets)
  }

  /** The packet was sent: it is one of its sender's packets, or its END. */
  predicate WasSent(ss: Sessions, p: Packet) {
    && p.src in ss
    && (p in ss[p.src].packets || (ss[p.src].ended && p == End(p.src, ss[p.src].inst, |ss[p.src].packets|)))
  }

  ghost predicate Holds(files: map<Key, Bytes>, ps: seq<Packet>) {
    && files.Keys == Touched(ps)
    && forall k :: Contents(files, k) == DataFor(ps, k)
  }

  ghost predicate CameFrom(ss: Sessions, files: map<Key, Bytes>, a: nat) {
    a in ss && ss[a].ended && Holds(files, ss[a].packets)
  }

  /** While a sender is being followed, the files hold exactly its packets so far. */
  ghost predicate Follows(ss: Sessions, sender: nat, sequence: nat, files: map<Key, Bytes>) {
    && sender in ss
    && sequence < |ss[sender].packets|
    && Holds(files, ss[sender].packets[..sequence + 1])
  }

  ghost predicate Inv(ss: Sessions, r: Receiver) {
    && (r.sender != 0 ==> Follows(ss, r.sender, r.sequence, r.files))
    && (r.installed.Some? ==> exists a :: CameFrom(ss, r.installed.value, a))
  }

  /** Any packets that were sent, in any order and any number of times. */
  predicate Delivered(ss: Sessions, ps: seq<(Packet, Io)>) {
    forall j :: 0 <= j < |ps| ==> WasSent(ss, ps[j].0)
  }

  function ReceiveAll(r: Receiver, ps: seq<(Packet, Io)>): Receiver
    decreases |ps|
  {
    if ps == [] then r else OnPacket(ReceiveAll(r, ps[..|ps| - 1]), ps[|ps| - 1].0, ps[|ps| - 1].1)
  }

  lemma DataForOne(ps: seq<Packet>, p: Packet, k: Key)
    ensures DataFor(ps + [p], k) == DataFor(ps, k) + (if p.Chunk? && p.key == k then p.data else [])
  {
    assert (ps + [p])[..|ps|] == ps;
  }

  lemma TouchedOne(ps: seq<Packet>, p: Packet)
    requires p.Chunk?
    ensures Touched(ps + [p]) == Touched(ps) + {p.key}
  {
    assert forall q :: q in ps + [p] <==> q in ps || q == p;
  }

  lemma AppendHolds(files: map<Key, Bytes>, ps: seq<Packet>, p: Packet)
    requires Holds(files, ps) && p.Chunk?
    ensures Holds(Appended(files, p.key, p.data), ps + [p])
  {
    TouchedOne(ps, p);
    forall k ensures Contents(Appended(files, p.key, p.data), k) == DataFor(ps + [p], k) {
      assert Contents(files, k) == DataFor(ps, k);
      DataForOne(ps, p, k);
    }
  }

  /** A chunk's number is its place in the session. */
  lemma ChunkAt(src: nat, inst: nat, ps: seq<Packet>, p: Packet)
    requires Numbered(src, inst, ps) && p in ps && p.Chunk?
    ensures 1 <= p.num < |ps| && ps[p.num] == p && ps[..p.num + 1] == ps[..p.num] + [p]
  {
    var j :| 0 <= j < |ps| && ps[j] == p;
    assert j == p.num;
  }

  lemma ChunkTaken(ss: Sessions, r: Receiver, p: Packet, r': Receiver)
    requires ValidSessions(ss) && Follows(ss, r.sender, r.sequence, r.files) && p.Chunk? && WasSent(ss, p)
    requires p.src == r.sender && p.num == r.sequence + 1
    requires r'.sender == r.sender && r'.sequence == p.num && r'.files == Appended(r.files, p.key, p.data)
    ensures Follows(ss, r'.sender, r'.sequence, r'.files)
  {
    var ps := ss[p.src].packets;
    ChunkAt(p.src, ss[p.src].inst, ps, p);
    AppendHolds(r.files, ps[..p.num], p);
  }

  lemma ChunkOk(ss: Sessions, r: Receiver, p: Packet, io: Io)
    requires ValidSessions(ss) && Inv(ss, r) && r.installed.None? && p.Chunk? && WasSent(ss, p)
    ensures Inv(ss, OnChunk(r, p, io))
  {
    var r' := OnChunk(r, p, io);
    if r'.sender != 0 && r'.sequence != r.sequence {
      ChunkTaken(ss, r, p, r');
    }
  }

  lemma BeginOk(ss: Sessions, r: Receiver, p: Packet, io: Io)
    requires ValidSessions(ss) && Inv(ss, r) && p.Begin? && WasSent(ss, p)
    ensures Inv(ss, OnBegin(r, p, io))
  {
    var ps := ss[p.src].packets;
    assert ps[..1] == [ps[0]] && ps[..1][..0] == [];
    assert Holds(map[], ps[..1]);
  }

  lemma EndTaken(ss: Sessions, r: Receiver, p: Packet)
    requires ValidSessions(ss) && Follows(ss, r.sender, r.sequence, r.files) && p.End? && WasSent(ss, p)
    requires p.src == r.sender && p.num == r.sequence + 1
    ensures CameFrom(ss, r.files, p.src)
  {
    var ps := ss[p.src].packets;
    assert p !in ps;
    assert ps[..|ps|] == ps;
  }

  lemma EndOk(ss: Sessions, r: Receiver, p: Packet, io: Io)
    requires ValidSessions(ss) && Inv(ss, r) && p.End? && WasSent(ss, p)
    ensures Inv(ss, OnEnd(r, p, io))
  {
    assert p.src != 0;
    if p.src == r.sender && p.num == r.sequence + 1 {
      EndTaken(ss, r, p);
    }
  }

  lemma {:induction false} ReceiverFollows(ss: Sessions, ps: seq<(Packet, Io)>, r: Receiver)
    requires ValidSessions(ss) && r.sender == 0 && r.installed.None? && Delivered(ss, ps)
    ensures Inv(ss, ReceiveAll(r, ps))
    decreases |ps|
  {
    if ps != [] {
      ReceiverFollows(ss, ps[..|ps| - 1], r);
      var q := ReceiveAll(r, ps[..|ps| - 1]);
      var (p, io) := ps[|ps| - 1];
      assert WasSent(ss, ps[|ps| - 1].0);
      if q.installed.None? {
        match p
        case Begin(_, _, _) => BeginOk(ss, q, p, io);
        case Chunk(_, _, _, _, _) => ChunkOk(ss, q, p, io);
        case End(_, _, _) => EndOk(ss, q, p, io);
      }
    }
  }

  /** If an END is accepted, the installed files are exactly those one sender sent chunks for, each
      the in-order concatenation of its chunks, whatever the network and the other senders did. */
  lemma InstalledIsWhatWasSent(ss: Sessions, ps: seq<(Packet, Io)>, r: Receiver) returns (a: nat)
    requires ValidSessions(ss) && r.sender == 0 && r.installed.None? && Delivered(ss, ps)
    requires ReceiveAll(r, ps).installed.Some?
    ensures a in ss && ss[a].ended && ReceiveAll(r, ps).installed.value.Keys == Touched(ss[a].packets)
    ensures forall k :: k in Touched(ss[a].packets) ==>
                          ReceiveAll(r, ps).installed.value[k] == DataFor(ss[a].packets, k)
  {
    ReceiverFollows(ss, ps, r);
    a :| CameFrom(ss, ReceiveAll(r, ps).installed.value, a);
    forall k | k in Touched(ss[a].packets)
      ensures ReceiveAll(r, ps).installed.value[k] == DataFor(ss[a].packets, k)
    {
      assert Contents(ReceiveAll(r, ps).installed.value, k) == DataFor(ss[a].packets, k);
    }
  }

  const GOOD_IO := Io(true, true, true, true, map[])

  /** All of it delivered in order, with nothing failing at the receiver. */
  function InOrder(ps: seq<Packet>): seq<(Packet, Io)> {
    seq(|ps|, i requires 0 <= i < |ps| => (ps[i], GOOD_IO))
  }

  lemma InOrderPrefix(ps: seq<Packet>)
    requires ps != []
    ensures InOrder(ps)[..|ps| - 1] == InOrder(ps[..|ps| - 1])
  {
  }

  lemma {:induction false} PacketsAreTaken(src: nat, inst: nat, ps: seq<Packet>, r: Receiver)
    requires Numbered(src, inst, ps) && r.installed.None?
    ensures var q := ReceiveAll(r, InOrder(ps)); q.sender == src && q.sequence == |ps| - 1 && q.installed.None?
    decreases |ps|
  {
    InOrderPrefix(ps);
    if |ps| > 1 {
      PacketsAreTaken(src, inst, ps[..|ps| - 1], r);
    } else {
      assert InOrder([]) == [];
    }
  }

  /** A packet that comes a second time is confirmed and changes nothing. */
  lemma RepeatIsHarmless(r: Receiver, p: Packet, io: Io, again: Io)
    requires p.Chunk? && OnPacket(r, p, io).sender == p.src && OnPacket(r, p, io).sequence == p.num
    ensures OnPacket(OnPacket(r, p, io), p, again) == OnPacket(r, p, io)
  {
  }

  /** Whatever the receiver was doing, a session that comes through undisturbed is installed. */
  lemma UndisturbedIsInstalled(src: nat, inst: nat, ps: seq<Packet>, r: Receiver)
    requires Numbered(src, inst, ps) && r.installed.None?
    ensures ReceiveAll(r, InOrder(ps + [End(src, inst, |ps|)])).installed.Some?
  {
    var all := ps + [End(src, inst, |ps|)];
    InOrderPrefix(all);
    assert all[..|ps|] == ps;
    PacketsAreTaken(src, inst, ps, r);
  }

  /** A session of two pieces of one file. */
  function TwoPieces(k: Key, a: Bytes, b: Bytes): seq<Packet> {
    [Begin(1, 7, 0), Chunk(1, 7, 1, k, a), Chunk(1, 7, 2, k, b)]
  }

  /** The start of one session and the end of the next, in sending order, the rest lost. */
  function Mix(one: seq<Packet>, two: seq<Packet>): seq<(Packet, Io)>
    requires |one| == 3 && |two| == 3
  {
    [(one[0], GOOD_IO), (one[1], GOOD_IO), (two[2], GOOD_IO), (End(1, 7, 3), GOOD_IO)]
  }

  /** One session per sender is needed: two sessions that are mixed install a file that is neither's. */
  lemma SessionsMix(k: Key)
    ensures var one, two := TwoPieces(k, [1], [2]), TwoPieces(k, [3], [4]);
      && Numbered(1, 7, one) && Numbered(1, 7, two)
      && DataFor(one, k) == [1, 2] && DataFor(two, k) == [3, 4]
      && ReceiveAll(Mixed(k, 0), Mix(one, two)).installed == Some(map[k := [1, 4]])
  {
    var one, two := TwoPieces(k, [1], [2]), TwoPieces(k, [3], [4]);
    var ps := Mix(one, two);
    var r := Mixed(k, 0);
    MixedStates(k, one, two);
    ReceiveOne(r, ps[..1]);
    ReceiveOne(r, ps[..2]);
    ReceiveOne(r, ps[..3]);
    ReceiveOne(r, ps);
    assert ps[..1][..0] == [] && ps[..2][..1] == ps[..1] && ps[..3][..2] == ps[..2];
    TwoChunks(one, k);
    TwoChunks(two, k);
  }

  /** What the receiver holds after each of the mixed packets. */
  function Mixed(k: Key, t: nat): Receiver {
    if t == 0 then Receiver(0, 0, {}, map[], None)
    else if t == 1 then Receiver(1, 0, {}, map[], None)
    else if t == 2 then Receiver(1, 1, {k.machine}, map[k := [1]], None)
    else Receiver(1, 2, {k.machine}, map[k := [1, 4]], None)
  }

  lemma MixedStates(k: Key, one: seq<Packet>, two: seq<Packet>)
    requires |one| == 3 && one[0] == Begin(1, 7, 0) && one[1] == Chunk(1, 7, 1, k, [1])
    requires |two| == 3 && two[2] == Chunk(1, 7, 2, k, [4])
    ensures OnPacket(Mixed(k, 0), one[0], GOOD_IO) == Mixed(k, 1)
    ensures OnPacket(Mixed(k, 1), one[1], GOOD_IO) == Mixed(k, 2)
    ensures OnPacket(Mixed(k, 2), two[2], GOOD_IO) == Mixed(k, 3)
    ensures OnPacket(Mixed(k, 3), End(1, 7, 3), GOOD_IO) == Mixed(k, 3).(installed := Some(map[k := [1, 4]]))
  {
    var b1: Bytes, b14: Bytes := [1], [1, 4];
    assert [] + b1 == b1 && b1 + [4] == b14;
    assert {} + {k.machine} == {k.machine} && {k.machine} + {k.machine} == {k.machine};
    assert Appended(map[], k, b1) == map[k := b1] && Appended(map[k := b1], k, [4]) == map[k := b14];
  }

  lemma ReceiveOne(r: Receiver, ps: seq<(Packet, Io)>)
    requires ps != []
    ensures ReceiveAll(r, ps) == OnPacket(ReceiveAll(r, ps[..|ps| - 1]), ps[|ps| - 1].0, ps[|ps| - 1].1)
  {
  }

  lemma TwoChunks(ps: seq<Packet>, k: Key)
    requires |ps| == 3 && ps[0].Begin? && ps[1].Chunk? && ps[2].Chunk? && ps[1].key == k && ps[2].key == k
    ensures DataFor(ps, k) == ps[1].data + ps[2].data
  {
    assert DataFor(ps[..2][..1][..0], k) == [];
    assert DataFor(ps[..2][..1], k) == [];
    assert DataFor(ps[..2], k) == ps[1].data;
  }

  // ------------------------------------------------------------ end to end

  /** The chunks of a session are for planned files and none is empty or too long. */
  ghost predicate Planned(ms: seq<Machine>, p: Packet) {
    && p.Chunk?
    && 1 <= |p.data| <= BUFFER_SIZE
    && exists i: nat, j: nat :: i < |ms| && j < |ms[i].files| && p.key == KeyOf(ms, i, j)
  }

  lemma {:induction false} FilePackets(e: Environment, src: nat, inst: nat, key: Key, content: Bytes, offset: nat,
                                       n: nat, x: nat)
    requires offset <= |content| && x < |FileRun(e, src, inst, key, content, offset, n).0|
    ensures var p := FileRun(e, src, inst, key, content, offset, n).0[x];
            p.Chunk? && p.src == src && p.inst == inst && p.num == n + x && p.key == key && 1 <= |p.data| <= BUFFER_SIZE
    decreases |content| - offset
  {
    if x > 0 {
      FilePackets(e, src, inst, key, content, Stop(e.read(key, offset).value, offset, |content|), n + 1, x - 1);
    }
  }

  lemma {:induction false} FilesPackets(e: Environment, src: nat, inst: nat, id: nat, files: seq<File>, n: nat,
                                        x: nat) returns (j: nat)
    requires x < |FilesRun(e, src, inst, id, files, n).0|
    ensures var p := FilesRun(e, src, inst, id, files, n).0[x];
            && p.Chunk? && p.src == src && p.inst == inst && p.num == n + x && 1 <= |p.data| <= BUFFER_SIZE
            && j < |files| && p.key == Key(id, files[j].name)
    decreases |files|
  {
    var a := OneFile(e, src, inst, Key(id, files[0].name), files[0].content, n);
    if x < |a.0| {
      FilePackets(e, src, inst, Key(id, files[0].name), files[0].content, 0, n, x);
      j := 0;
    } else {
      var j' := FilesPackets(e, src, inst, id, files[1..], n + |a.0|, x - |a.0|);
      j := j' + 1;
    }
  }

  lemma {:induction false} PlanPackets(e: Environment, src: nat, inst: nat, ms: seq<Machine>, n: nat, x: nat)
    returns (i: nat, j: nat)
    requires x < |PlanRun(e, src, inst, ms, n).0|
    ensures var p := PlanRun(e, src, inst, ms, n).0[x];
            && p.Chunk? && p.src == src && p.inst == inst && p.num == n + x && 1 <= |p.data| <= BUFFER_SIZE
            && i < |ms| && j < |ms[i].files| && p.key == KeyOf(ms, i, j)
    decreases |ms|
  {
    var a := FilesRun(e, src, inst, ms[0].id, ms[0].files, n);
    if x < |a.0| {
      i := 0;
      j := FilesPackets(e, src, inst, ms[0].id, ms[0].files, n, x);
    } else {
      var i', j' := PlanPackets(e, src, inst, ms[1..], n + |a.0|, x - |a.0|);
      i, j := i' + 1, j';
    }
  }

  /** The session in which `src` sends `ms`; END follows only a reported success. */
  function SessionOf(e: Environment, src: nat, inst: nat, ms: seq<Machine>): Session {
    var r := PlanRun(e, src, inst, ms, 1);
    Session(inst, [Begin(src, inst, 0)] + r.0, r.1)
  }

  lemma SessionShape(e: Environment, src: nat, inst: nat, ms: seq<Machine>)
    ensures var s := SessionOf(e, src, inst, ms);
            && Numbered(src, inst, s.packets)
            && forall x :: 1 <= x < |s.packets| ==> Planned(ms, s.packets[x])
  {
    var s := SessionOf(e, src, inst, ms);
    forall x | 1 <= x < |s.packets|
      ensures Planned(ms, s.packets[x]) && s.packets[x].src == src && s.packets[x].inst == inst && s.packets[x].num == x
    {
      var i, j := PlanPackets(e, src, inst, ms, 1, x - 1);
      assert s.packets[x] == PlanRun(e, src, inst, ms, 1).0[x - 1];
    }
  }

  lemma {:induction false} TouchedHasData(ps: seq<Packet>, x: nat)
    requires x < |ps| && ps[x].Chunk? && ps[x].data != []
    ensures DataFor(ps, ps[x].key) != []
    decreases |ps|
  {
    if x < |ps| - 1 {
      TouchedHasData(ps[..|ps| - 1], x);
    }
  }

  lemma {:induction false} DataIsTouched(ps: seq<Packet>, k: Key)
    requires DataFor(ps, k) != []
    ensures k in Touched(ps)
    decreases |ps|
  {
    var p := ps[|ps| - 1];
    assert p in ps;
    if !(p.Chunk? && p.key == k) {
      DataIsTouched(ps[..|ps| - 1], k);
    }
  }

  /** What each sender has to send, and the environment it sends in. */
  datatype Plan = Plan(inst: nat, machines: seq<Machine>, env: Environment)

  ghost predicate AllThrough(q: Plan, src: nat) {
    forall i: nat :: i < |q.machines| ==> MachineOk(q.env, src, q.inst, q.machines, 1, i)
  }

  ghost predicate Matches(plans: map<nat, Plan>, ss: Sessions) {
    && plans.Keys == ss.Keys
    && forall a :: a in plans ==> a != 0 && ss[a] == SessionOf(plans[a].env, a, plans[a].inst, plans[a].machines)
  }

  lemma MatchIsValid(plans: map<nat, Plan>, ss: Sessions)
    requires Matches(plans, ss)
    ensures ValidSessions(ss)
  {
    forall a | a in ss ensures Numbered(a, ss[a].inst, ss[a].packets) {
      SessionShape(plans[a].env, a, plans[a].inst, plans[a].machines);
    }
  }

  /** The files are those of the checkpoint that have any content, with that content. */
  ghost predicate IsCheckpoint(files: map<Key, Bytes>, ms: seq<Machine>) {
    && (forall i: nat, j: nat | i < |ms| && j < |ms[i].files| && ms[i].files[j].content != [] ::
          KeyOf(ms, i, j) in files && files[KeyOf(ms, i, j)] == ms[i].files[j].content)
    && (forall k | k in files ::
          exists i: nat, j: nat ::
            i < |ms| && j < |ms[i].files| && ms[i].files[j].content != [] && k == KeyOf(ms, i, j))
  }

  lemma SessionCarries(e: Environment, src: nat, inst: nat, ms: seq<Machine>, k: Key)
    ensures DataFor(SessionOf(e, src, inst, ms).packets, k) == DataFor(PlanRun(e, src, inst, ms, 1).0, k)
  {
    var b := [Begin(src, inst, 0)];
    DataForConcat(b, PlanRun(e, src, inst, ms, 1).0, k);
    assert DataFor(b[..0], k) == [] && DataFor(b, k) == [];
  }

  ghost predicate Carries(e: Environment, src: nat, inst: nat, ms: seq<Machine>, files: map<Key, Bytes>) {
    && Complete(ms, PlanRun(e, src, inst, ms, 1).0)
    && files.Keys == Touched(SessionOf(e, src, inst, ms).packets)
    && forall k :: k in files ==> files[k] == DataFor(SessionOf(e, src, inst, ms).packets, k)
  }

  lemma PlannedIsThere(e: Environment, src: nat, inst: nat, ms: seq<Machine>, files: map<Key, Bytes>, i: nat, j: nat)
    requires Carries(e, src, inst, ms, files) && i < |ms| && j < |ms[i].files| && ms[i].files[j].content != []
    ensures KeyOf(ms, i, j) in files && files[KeyOf(ms, i, j)] == ms[i].files[j].content
  {
    SessionCarries(e, src, inst, ms, KeyOf(ms, i, j));
    DataIsTouched(SessionOf(e, src, inst, ms).packets, KeyOf(ms, i, j));
  }

  lemma ThereIsPlanned(e: Environment, src: nat, inst: nat, ms: seq<Machine>, files: map<Key, Bytes>, k: Key)
    requires Carries(e, src, inst, ms, files) && k in files
    ensures exists i: nat, j: nat ::
      i < |ms| && j < |ms[i].files| && ms[i].files[j].content != [] && k == KeyOf(ms, i, j)
  {
    var ps := SessionOf(e, src, inst, ms).packets;
    SessionShape(e, src, inst, ms);
    var p :| p in ps && p.Chunk? && p.key == k;
    var x :| 0 <= x < |ps| && ps[x] == p;
    assert Planned(ms, ps[x]);
    TouchedHasData(ps, x);
    SessionCarries(e, src, inst, ms, k);
  }

  lemma CompleteIsCheckpoint(e: Environment, src: nat, inst: nat, ms: seq<Machine>, files: map<Key, Bytes>)
    requires Carries(e, src, inst, ms, files)
    ensures IsCheckpoint(files, ms)
  {
    forall i: nat, j: nat | i < |ms| && j < |ms[i].files| && ms[i].files[j].content != []
      ensures KeyOf(ms, i, j) in files && files[KeyOf(ms, i, j)] == ms[i].files[j].content
    {
      PlannedIsThere(e, src, inst, ms, files, i, j);
    }
    forall k | k in files
      ensures exists i: nat, j: nat ::
        i < |ms| && j < |ms[i].files| && ms[i].files[j].content != [] && k == KeyOf(ms, i, j)
    {
      ThereIsPlanned(e, src, inst, ms, files, k);
    }
  }

  // ------------------------------------------------------------ one negative acknowledgement

  const FILE_A := Key(1, "a")
  const FILE_B := Key(2, "b")
  const TWO_MACHINES := [Machine(1, [File("a", [1, 2])]), Machine(2, [File("b", [3])])]

  /** Every file is named, opened and read; only the acknowledgement after the first piece is negative. */
  const ONE_BAD_ACK := Environment((_: nat) => true, (_: Key) => true, (_: Key, _: nat) => Some(1), (n: nat) => n != 2)

  const TORN := [Begin(1, 7, 0), Chunk(1, 7, 1, FILE_A, [1]), Chunk(1, 7, 2, FILE_B, [3])]

  lemma TornFile()
    ensures FilesRun(ONE_BAD_ACK, 1, 7, 1, TWO_MACHINES[0].files, 1) == ([TORN[1]], false)
    ensures FilesRun(ONE_BAD_ACK, 1, 7, 2, TWO_MACHINES[1].files, 2) == ([TORN[2]], true)
  {
    var a: Bytes, b: Bytes := [1, 2], [3];
    assert a[0..1] == [1] && b[0..1] == b && [TORN[2]] + [] == [TORN[2]];
    assert FileRun(ONE_BAD_ACK, 1, 7, FILE_A, a, 0, 1) == ([TORN[1]], false);
    assert FileRun(ONE_BAD_ACK, 1, 7, FILE_B, b, 1, 3) == ([], true);
    assert FileRun(ONE_BAD_ACK, 1, 7, FILE_B, b, 0, 2) == ([TORN[2]], true);
    assert FilesRun(ONE_BAD_ACK, 1, 7, 2, [], 3) == ([], true);
  }

  lemma TornSession()
    ensures SessionOf(ONE_BAD_ACK, 1, 7, TWO_MACHINES) == Session(7, TORN, true)
  {
    TornFile();
    var ms := TWO_MACHINES[1..];
    assert ms == [TWO_MACHINES[1]] && ms[1..] == [];
    assert [TORN[2]] + [] == [TORN[2]] && [TORN[1]] + [TORN[2]] == [TORN[1], TORN[2]];
    assert PlanRun(ONE_BAD_ACK, 1, 7, ms[1..], 3) == ([], true);
    assert PlanRun(ONE_BAD_ACK, 1, 7, ms, 2) == ([TORN[2]], true);
    assert PlanRun(ONE_BAD_ACK, 1, 7, TWO_MACHINES, 1) == ([TORN[1], TORN[2]], true);
  }

  /** So `AllThrough` is needed: after one negative acknowledgement in the middle of a file the session
      goes on with the next machine, END goes out, and the receiver installs the torn file. */
  lemma TornIsInstalled()
    ensures SessionOf(ONE_BAD_ACK, 1, 7, TWO_MACHINES) == Session(7, TORN, true)
    ensures var files := map[FILE_A := [1], FILE_B := [3]];
      && ReceiveAll(Receiver(0, 0, {}, map[], None), InOrder(TORN + [End(1, 7, 3)])).installed == Some(files)
      && !IsCheckpoint(files, TWO_MACHINES)
  {
    TornSession();
    var r, ps := Receiver(0, 0, {}, map[], None), InOrder(TORN + [End(1, 7, 3)]);
    var a: Bytes, b: Bytes := [1], [3];
    assert [] + a == a && [] + b == b && {} + {1} == {1};
    assert Appended(map[], FILE_A, a) == map[FILE_A := a];
    assert Appended(map[FILE_A := a], FILE_B, b) == map[FILE_A := a, FILE_B := b];
    ReceiveOne(r, ps[..1]);
    ReceiveOne(r, ps[..2]);
    ReceiveOne(r, ps[..3]);
    ReceiveOne(r, ps);
    assert ps[..1][..0] == [] && ps[..2][..1] == ps[..1] && ps[..3][..2] == ps[..2];
    assert TWO_MACHINES[0].files[0].content != [] && KeyOf(TWO_MACHINES, 0, 0) == FILE_A;
  }

  /** From the sender's files to the receiver's: if in every session that sent END all files went through,
      an installed checkpoint is, file for file, the checkpoint of one of the senders. */
  lemma CheckpointArrives(plans: map<nat, Plan>, ss: Sessions, ps: seq<(Packet, Io)>, r: Receiver) returns (a: nat)
    requires Matches(plans, ss) && Delivered(ss, ps) && r.sender == 0 && r.installed.None?
    requires forall b :: b in plans && ss[b].ended ==> DistinctKeys(plans[b].machines) && AllThrough(plans[b], b)
    requires ReceiveAll(r, ps).installed.Some?
    ensures a in plans && IsCheckpoint(ReceiveAll(r, ps).installed.value, plans[a].machines)
  {
    MatchIsValid(plans, ss);
    a := InstalledIsWhatWasSent(ss, ps, r);
    var q := plans[a];
    forall i: nat, j: nat | i < |q.machines| && j < |q.machines[i].files|
      ensures var k := KeyOf(q.machines, i, j);
        DataFor(PlanRun(q.env, a, q.inst, q.machines, 1).0, k) == q.machines[i].files[j].content
    {
      PlanData(q.env, a, q.inst, q.machines, 1, i, j);
    }
    CompleteIsCheckpoint(q.env, a, q.inst, q.machines, ReceiveAll(r, ps).installed.value);
  }
}
