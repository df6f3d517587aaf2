/**
 * internal/agent/cache.go: the snapshot file and its write protocol, one file operation at a time. A process may stop
 * between any two operations, or while bytes are being written, and start again later.
 */
module AgentCache {
  import opened Wrappers
  import DataPlane

  /** File contents, taken whole: nothing is said about decoding what was encoded. */
  type Blob = seq<char>

  datatype Codec = Codec(
    valid: DataPlane.Snapshot -> bool, encode: DataPlane.Snapshot -> Blob, decode: Blob -> Option<DataPlane.Snapshot>)

  datatype Disk = Disk(main: Option<Blob>, previous: Option<Blob>, tmp: Option<Blob>)

  const EMPTY := Disk(None, None, None)

  /** Which operations of one Save fail; a failing write stops after `written` bytes. */
  datatype Faults = Faults(
    mkdir: bool, open: bool, write: Option<nat>, sync: bool, close: bool, remove: bool, stat: bool, shelve: bool,
    install: bool, restore: bool)

  // ----- The disks a Save passes through -----

  function Bytes(data: Blob, f: Faults): nat {
    if f.write.Some? && f.write.value < |data| then f.write.value else |data|
  }

  function WriteDisks(d: Disk, data: Blob, n: nat): (disks: seq<Disk>)
    requires n <= |data|
    ensures |disks| == n && forall i :: 0 <= i < n ==> disks[i] == d.(tmp := Some(data[..i + 1]))
  {
    if n == 0 then [] else WriteDisks(d, data, n - 1) + [d.(tmp := Some(data[..n]))]
  }

  function InstallDisks(d: Disk, f: Faults): seq<Disk> {
    if !f.install then [d.(main := d.tmp, tmp := None)]
    else if f.restore || d.previous == None then []
    else [d.(main := d.previous, previous := None)]
  }

  /** Whether the old file is moved aside first. */
  predicate Shelves(d: Disk, f: Faults) {
    d.main.Some? && !f.stat
  }

  function SwapDisks(d: Disk, f: Faults): seq<Disk> {
    var removed := if f.remove then d else d.(previous := None);
    [removed] +
    if Shelves(d, f) then
      if f.shelve then [] else
        var shelved := removed.(previous := d.main, main := None);
        [shelved] + InstallDisks(shelved, f)
    else InstallDisks(removed, f)
  }

  predicate StageFails(f: Faults) {
    f.mkdir || f.open || f.write.Some? || f.sync || f.close
  }

  function StageDisks(d: Disk, data: Blob, f: Faults): seq<Disk> {
    if f.mkdir || f.open then [] else [d.(tmp := Some([]))] + WriteDisks(d, data, Bytes(data, f))
  }

  /** The disk after each operation of a Save of `data`, in order. */
  function SaveDisks(d: Disk, data: Blob, f: Faults): seq<Disk> {
    StageDisks(d, data, f) + if StageFails(f) then [] else SwapDisks(d.(tmp := Some(data)), f)
  }

  predicate Succeeds(d: Disk, f: Faults) {
    !StageFails(f) && (Shelves(d, f) ==> !f.shelve) && !f.install
  }

  // ----- The code -----

  /** The three paths, and every disk they went through. */
  class FileSystem {
    var main: Option<Blob>
    var previous: Option<Blob>
    var tmp: Option<Blob>
    ghost var log: seq<Disk>

    function State(): Disk
      reads this
    {
      Disk(main, previous, tmp)
    }

    constructor ()
      ensures State() == EMPTY && log == []
    {
      main, previous, tmp, log := None, None, None, [];
    }

    method OpenTmp(fails: bool) returns (ok: bool)
      modifies this
      ensures ok == !fails
      ensures State() == if ok then old(State()).(tmp := Some([])) else old(State())
      ensures log == old(log) + if ok then [State()] else []
    {
      if !fails {
        tmp := Some([]);
        log := log + [State()];
      }
      ok := !fails;
    }

    method WriteTmp(data: Blob, f: Faults) returns (ok: bool)
      requires tmp == Some([])
      modifies this
      ensures ok == f.write.None?
      ensures State() == old(State()).(tmp := Some(data[..Bytes(data, f)]))
      ensures log == old(log) + WriteDisks(old(State()), data, Bytes(data, f))
    {
      assert data[..0] == [];
      for i := 0 to Bytes(data, f)
        invariant State() == old(State()).(tmp := Some(data[..i]))
        invariant log == old(log) + WriteDisks(old(State()), data, i)
      {
        tmp := Some(data[..i + 1]);
        log := log + [State()];
      }
      ok := f.write.None?;
    }

    method RemovePrevious(fails: bool)
      modifies this
      ensures State() == if fails then old(State()) else old(State()).(previous := None)
      ensures log == old(log) + [State()]
    {
      if !fails {
        previous := None;
      }
      log := log + [State()];
    }

    method StatMain(fails: bool) returns (found: bool)
      ensures found <==> main.Some? && !fails
    {
      found := main.Some? && !fails;
    }

    method Shelve(fails: bool) returns (ok: bool)
      requires main.Some?
      modifies this
      ensures ok == !fails
      ensures State() == if ok then old(State()).(previous := old(main), main := None) else old(State())
      ensures log == old(log) + if ok then [State()] else []
    {
      if !fails {
        previous, main := main, None;
        log := log + [State()];
      }
      ok := !fails;
    }

    method Install(fails: bool) returns (ok: bool)
      requires tmp.Some?
      modifies this
      ensures ok == !fails
      ensures State() == if ok then old(State()).(main := old(tmp), tmp := None) else old(State())
      ensures log == old(log) + if ok then [State()] else []
    {
      if !fails {
        main, tmp := tmp, None;
        log := log + [State()];
      }
      ok := !fails;
    }

    /** Renames the previous file back, if it can. */
    method Restore(fails: bool)
      modifies this
      ensures var back := !fails && old(previous).Some?;
        State() == (if back then old(State()).(main := old(previous), previous := None) else old(State()))
        && log == old(log) + if back then [State()] else []
    {
      if !fails && previous.Some? {
        main, previous := previous, None;
        log := log + [State()];
      }
    }
  }

  class SnapshotCache {
    const files: FileSystem
    const codec: Codec
    var snapshot: Option<DataPlane.Snapshot>

    constructor (files: FileSystem, codec: Codec)
      ensures this.files == files && this.codec == codec && snapshot == None
    {
      this.files, this.codec, snapshot := files, codec, None;
    }

    method Load(readFails: bool) returns (ok: bool)
      modifies this`snapshot
      ensures ok <==>
        !readFails && files.main.Some? && codec.decode(files.main.value).Some?
        && codec.valid(codec.decode(files.main.value).value)
      ensures snapshot == if ok then codec.decode(files.main.value) else old(snapshot)
    {
      if readFails || files.main.None? {
        return false;
      }
      var decoded := codec.decode(files.main.value);
      if decoded.None? || !codec.valid(decoded.value) {
        return false;
      }
      snapshot := decoded;
      ok := true;
    }

    /** Stage the bytes, swap them in, and only then replace the snapshot in memory. */
    method Save(s: DataPlane.Snapshot, f: Faults) returns (ok: bool)
      modifies this`snapshot, files
      ensures ok <==> codec.valid(s) && Succeeds(old(files.State()), f)
      ensures snapshot == if ok then Some(s) else old(snapshot)
      ensures !codec.valid(s) ==> files.log == old(files.log) && files.State() == old(files.State())
      ensures codec.valid(s) ==> files.log == old(files.log) + SaveDisks(old(files.State()), codec.encode(s), f)
      ensures codec.valid(s) ==>
        files.State() == Last(old(files.State()), SaveDisks(old(files.State()), codec.encode(s), f))
    {
      hide SwapDisks, StageDisks;
      if !codec.valid(s) {
        return false;
      }
      ok := Stage(codec.encode(s), f);
      if ok {
        LastOfBoth(old(files.State()), codec.encode(s), f);
        ok := Swap(f);
      }
      if ok {
        snapshot := Some(s);
      }
    }

    /** Write the bytes to the temporary file. */
    method Stage(data: Blob, f: Faults) returns (ok: bool)
      modifies files
      ensures ok <==> !StageFails(f)
      ensures files.log == old(files.log) + StageDisks(old(files.State()), data, f)
      ensures files.State() == Last(old(files.State()), StageDisks(old(files.State()), data, f))
      ensures ok ==> files.State() == old(files.State()).(tmp := Some(data))
    {
      if f.mkdir {
        return false;
      }
      var ready := files.OpenTmp(f.open);
      if !ready {
        return false;
      }
      assert data[..0] == [] && data[..|data|] == data;
      var written := files.WriteTmp(data, f);
      ok := written && !f.sync && !f.close;
    }

    method Swap(f: Faults) returns (ok: bool)
      requires files.tmp.Some?
      modifies files
      ensures ok <==> (Shelves(old(files.State()), f) ==> !f.shelve) && !f.install
      ensures files.log == old(files.log) + SwapDisks(old(files.State()), f)
      ensures files.State() == Last(old(files.State()), SwapDisks(old(files.State()), f))
    {
      files.RemovePrevious(f.remove);
      var found := files.StatMain(f.stat);
      if found {
        var shelved := files.Shelve(f.shelve);
        if !shelved {
          return false;
        }
      }
      ok := files.Install(f.install);
      if !ok {
        files.Restore(f.restore);
      }
    }
  }

  function Last(d: Disk, disks: seq<Disk>): Disk {
    if disks == [] then d else disks[|disks| - 1]
  }

  lemma {:induction false} LastOfBoth(d: Disk, data: Blob, f: Faults)
    requires !StageFails(f)
    ensures SwapDisks(d.(tmp := Some(data)), f) != []
    ensures Last(d, SaveDisks(d, data, f)) == Last(d.(tmp := Some(data)), SwapDisks(d.(tmp := Some(data)), f))
  {
  }

  // ----- What survives -----

  /** A file holding all the bytes of one Save. */
  predicate Complete(file: Option<Blob>, good: set<Blob>) {
    file.Some? && file.value in good
  }

  /** How safely a complete file is held: at the main path, set aside as the previous one, or only staged. */
  function Level(d: Disk, good: set<Blob>): nat {
    if Complete(d.main, good) then 3
    else if Complete(d.previous, good) then 2
    else if Complete(d.tmp, good) then 1
    else 0
  }

  /** The main and previous paths are absent or complete. */
  predicate Clean(d: Disk, good: set<Blob>) {
    && (d.main.Some? ==> d.main.value in good) && (d.previous.Some? ==> d.previous.value in good)
  }

  /** Where a Save begun on `d` may leave the disk if the process stops. */
  predicate Stop(d: Disk, data: Blob, f: Faults, x: Disk) {
    x == d || x in SaveDisks(d, data, f)
  }

  lemma {:induction false} StagingKeepsTheFiles(d: Disk, data: Blob, f: Faults, x: Disk)
    requires x in StageDisks(d, data, f)
    ensures x.main == d.main && x.previous == d.previous
  {
  }

  /** A stop in the swap leaves a level at most one below the one the Save began with. */
  lemma {:induction false} SwapStopIsSafe(d: Disk, data: Blob, f: Faults, x: Disk, good: set<Blob>)
    requires Clean(d, good) && d.tmp == Some(data) && data in good && x in SwapDisks(d, f)
    ensures Clean(x, good) && Level(x, good) >= (if d.main.Some? then 2 else 1)
  {
  }

  /** Stopping a Save at any operation keeps main and previous absent or complete, and costs at most one level. */
  lemma {:induction false} StopCostsOneLevel(d: Disk, data: Blob, f: Faults, x: Disk, good: set<Blob>)
    requires Clean(d, good) && data in good && Stop(d, data, f, x)
    ensures Clean(x, good) && Level(x, good) >= Level(d, good) - 1
  {
    hide SwapDisks, StageDisks;
    if x in StageDisks(d, data, f) {
      StagingKeepsTheFiles(d, data, f, x);
    } else if x != d {
      SwapStopIsSafe(d.(tmp := Some(data)), data, f, x, good);
    }
  }

  /** A Save that returns success leaves exactly its bytes at the main path. */
  lemma {:induction false} SuccessIsReadable(d: Disk, data: Blob, f: Faults)
    requires Succeeds(d, f)
    ensures Last(d, SaveDisks(d, data, f)).main == Some(data) && Last(d, SaveDisks(d, data, f)).tmp == None
  {
    LastOfBoth(d, data, f);
  }

  /**
   * A Save succeeds exactly when the file is written, flushed and closed, the old file is set aside if one is seen, and
   * the new one is moved in. A Save that fails leaves the main file as it was, unless the staged file could not be
   * moved in and either the old file was set aside and not moved back, or nothing was set aside and an older previous
   * file that could not be removed was moved to the main path.
   */
  lemma {:induction false} FailedSaveKeepsMainIff(d: Disk, data: Blob, f: Faults)
    ensures var aside := d.main.Some? && !f.stat;
      var staged := !f.mkdir && !f.open && f.write.None? && !f.sync && !f.close;
      var lost := aside && f.restore;
      var replaced := !aside && f.remove && !f.restore && d.previous.Some? && d.previous != d.main;
      && (Succeeds(d, f) <==> staged && !(aside && f.shelve) && !f.install)
      && (!Succeeds(d, f) ==>
            (Last(d, SaveDisks(d, data, f)).main == d.main <==>
              !(staged && !(aside && f.shelve) && (lost || replaced))))
  {
    if StageFails(f) {
      StagedKeepsTheFiles(d, data, f);
    } else {
      LastOfBoth(d, data, f);
    }
  }

  lemma {:induction false} StagedKeepsTheFiles(d: Disk, data: Blob, f: Faults)
    ensures Last(d, StageDisks(d, data, f)).main == d.main
  {
    var disks := StageDisks(d, data, f);
    if disks != [] {
      StagingKeepsTheFiles(d, data, f, disks[|disks| - 1]);
    }
  }

  // ----- Saves, stops and restarts -----

  /** One Save, and after how many file operations the process stopped; a large number means it ran to its return. */
  datatype Attempt = Attempt(data: Blob, f: Faults, stop: nat)

  function Outcome(d: Disk, a: Attempt): Disk {
    var disks := SaveDisks(d, a.data, a.f);
    if a.stop >= |disks| then Last(d, disks) else Last(d, disks[..a.stop])
  }

  predicate Finishes(d: Disk, a: Attempt) {
    Succeeds(d, a.f) && a.stop >= |SaveDisks(d, a.data, a.f)|
  }

  function Replay(d: Disk, attempts: seq<Attempt>): Disk {
    if attempts == [] then d else Outcome(Replay(d, attempts[..|attempts| - 1]), attempts[|attempts| - 1])
  }

  predicate AllIn(attempts: seq<Attempt>, good: set<Blob>) {
    forall i :: 0 <= i < |attempts| ==> attempts[i].data in good
  }

  lemma {:induction false} OutcomeIsAStop(d: Disk, a: Attempt)
    ensures Stop(d, a.data, a.f, Outcome(d, a))
  {
  }

  /** After any history of Saves, stops and restarts, the main path is absent or holds all the bytes of one Save. */
  lemma {:induction false} MainIsAbsentOrComplete(attempts: seq<Attempt>, good: set<Blob>)
    requires AllIn(attempts, good)
    ensures Clean(Replay(EMPTY, attempts), good)
  {
    if attempts != [] {
      var front, last := attempts[..|attempts| - 1], attempts[|attempts| - 1];
      MainIsAbsentOrComplete(front, good);
      OutcomeIsAStop(Replay(EMPTY, front), last);
      StopCostsOneLevel(Replay(EMPTY, front), last.data, last.f, Outcome(Replay(EMPTY, front), last), good);
    }
  }

  lemma {:induction false} AttemptsCostOneLevelEach(d: Disk, attempts: seq<Attempt>, good: set<Blob>)
    requires Clean(d, good) && AllIn(attempts, good)
    ensures Clean(Replay(d, attempts), good) && Level(Replay(d, attempts), good) >= Level(d, good) - |attempts|
  {
    if attempts != [] {
      var front, last := attempts[..|attempts| - 1], attempts[|attempts| - 1];
      AttemptsCostOneLevelEach(d, front, good);
      OutcomeIsAStop(Replay(d, front), last);
      StopCostsOneLevel(Replay(d, front), last.data, last.f, Outcome(Replay(d, front), last), good);
    }
  }

  /** With at most two unfinished Saves since the last finished one, some complete file is left. */
  lemma {:induction false} TwoInterruptionsAreSurvived(d: Disk, a: Attempt, rest: seq<Attempt>, good: set<Blob>)
    requires Clean(d, good) && a.data in good && Finishes(d, a) && AllIn(rest, good) && |rest| <= 2
    ensures Level(Replay(Outcome(d, a), rest), good) >= 1
  {
    SuccessIsReadable(d, a.data, a.f);
    OutcomeIsAStop(d, a);
    StopCostsOneLevel(d, a.data, a.f, Outcome(d, a), good);
    AttemptsCostOneLevelEach(Outcome(d, a), rest, good);
  }

  const SMOOTH := Faults(false, false, None, false, false, false, false, false, false, false)

  /** A Save of one byte, with nothing failing. */
  lemma {:induction false} OneByteSave(d: Disk, c: char)
    ensures var staged := d.(tmp := Some([c]));
      SaveDisks(d, [c], SMOOTH) == [d.(tmp := Some([])), staged, staged.(previous := None)] +
        if d.main.Some? then [Disk(None, d.main, Some([c])), Disk(Some([c]), d.main, None)]
        else [Disk(Some([c]), None, None)]
  {
    assert [c][..1] == [c];
    assert WriteDisks(d, [c], 1) == [d.(tmp := Some([c]))];
  }

  /** Three can lose every copy: the second stop leaves only the staged file, and the third Save truncates it. */
  lemma {:induction false} ThreeInterruptionsLoseEverything()
    ensures var a := Attempt("a", SMOOTH, 4);
      var good := {"a", "b", "c", "d"};
      var rest := [Attempt("b", SMOOTH, 4), Attempt("c", SMOOTH, 3), Attempt("d", SMOOTH, 1)];
      && Finishes(EMPTY, a) && AllIn(rest, good) && Level(Replay(Outcome(EMPTY, a), rest), good) == 0
  {
    var rest := [Attempt("b", SMOOTH, 4), Attempt("c", SMOOTH, 3), Attempt("d", SMOOTH, 1)];
    OneByteSave(EMPTY, 'a');
    var d0 := Disk(Some("a"), None, None);
    assert Outcome(EMPTY, Attempt("a", SMOOTH, 4)) == d0;
    OneByteSave(d0, 'b');
    var d1 := Disk(None, Some("a"), Some("b"));
    assert Outcome(d0, rest[0]) == d1;
    OneByteSave(d1, 'c');
    var d2 := Disk(None, None, Some("c"));
    assert Outcome(d1, rest[1]) == d2;
    OneByteSave(d2, 'd');
    assert Outcome(d2, rest[2]) == Disk(None, None, Some([]));
    assert rest[..2][..1] == [rest[0]] && rest[..2][1] == rest[1] && [rest[0]][..0] == [];
    assert Replay(d0, [rest[0]]) == d1;
    assert Replay(d0, rest[..2]) == d2;
  }

  /** Every stop of every Save begun on `d` leaves a complete file. */
  ghost predicate AlwaysSafe(d: Disk, good: set<Blob>) {
    forall data: Blob, f, x :: data != [] && Stop(d, data, f, x) ==> Level(x, good + {data}) >= 1
  }

  /** That is so exactly when a file exists at the main or the previous path as the Save begins. */
  lemma {:induction false} EveryStopIsSafeIff(d: Disk, good: set<Blob>)
    requires Clean(d, good) && [] !in good
    ensures AlwaysSafe(d, good) <==> d.main.Some? || d.previous.Some?
  {
    if d.main.Some? || d.previous.Some? {
      forall data: Blob, f, x | data != [] && Stop(d, data, f, x) ensures Level(x, good + {data}) >= 1 {
        StopCostsOneLevel(d, data, f, x, good + {data});
      }
    } else {
      var x := d.(tmp := Some([]));
      assert x == SaveDisks(d, "x", SMOOTH)[0];
      assert Stop(d, "x", SMOOTH, x);
      assert Level(x, good + {"x"}) == 0;
    }
  }
}
