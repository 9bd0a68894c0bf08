/** The process registry (ProcessManager.cpp, headers/ProcessManager.h):
    admission under unique names with increasing process ids, lookup, the
    utilisation figures of the process listing, the `pNN` names and the
    cadence of the batch loop. This revision stores its own process record
    (Process.h at the repository root) and hands new processes to a
    scheduler that is not part of this model; the hand-off is recorded in
    `handedOff`. */
module ProcessRegistry {
  import opened Wrappers
  import opened Decimal
  import PagingMemory

  datatype ProcessState = Ready | Running | Waiting | Finished

  /** The registry's process record: fixed id and name, and a state the
      scheduler changes. Its initial state is set by a constructor body that
      is not part of this model, so it is left unconstrained. */
  class Process {
    const pid: int
    const name: string
    var state: ProcessState

    constructor (pid: int, name: string)
      ensures this.pid == pid && this.name == name
    {
      this.pid := pid;
      this.name := name;
    }
  }

  datatype RegistryError = EmptyName | DuplicateName(name: string) | NotInitialized

  /** Whether a name may be admitted to a table holding the given names. */
  function Admission(names: set<string>, name: string): (r: Outcome<RegistryError>)
    ensures r == Pass <==> name != "" && name !in names
    ensures name == "" ==> r == Fail(EmptyName)
    ensures name != "" && name in names ==> r == Fail(DuplicateName(name))
  {
    if name == "" then Fail(EmptyName)
    else if name in names then Fail(DuplicateName(name))
    else Pass
  }

  // ----- Utilisation -----

  /** CPU utilisation as printed: active * 100 / totalCores with C++'s
      truncating integer division. */
  function CpuUtilization(active: int, totalCores: int): (r: int)
    requires totalCores != 0
    ensures 0 <= active && totalCores > 0 ==> r * totalCores <= active * 100 < (r + 1) * totalCores
    ensures 0 <= active <= totalCores ==> 0 <= r <= 100
    ensures 0 <= active && active == totalCores ==> r == 100
  {
    UtilizationBounds(active, totalCores);
    PagingMemory.TruncDiv(active * 100, totalCores)
  }

  lemma UtilizationBounds(active: int, totalCores: int)
    requires totalCores != 0
    ensures var r := PagingMemory.TruncDiv(active * 100, totalCores);
      (0 <= active && totalCores > 0 ==> r * totalCores <= active * 100 < (r + 1) * totalCores)
      && (0 <= active <= totalCores ==> 0 <= r <= 100)
      && (0 <= active && active == totalCores ==> r == 100)
  {
    if 0 <= active && totalCores > 0 {
      var x := active * 100;
      var r := x / totalCores;
      assert PagingMemory.TruncDiv(x, totalCores) == r;
      FloorDivBounds(x, totalCores);
      if active <= totalCores {
        UtilizationAtMostHundred(active, totalCores, r);
      }
      if active == totalCores {
        MulLeImplies(r + 1, 100, totalCores);
      }
    }
  }

  lemma UtilizationAtMostHundred(active: int, totalCores: int, r: int)
    requires 0 <= active <= totalCores && totalCores > 0
    requires r * totalCores <= active * 100
    ensures r <= 100
  {
    MulLe(active, totalCores, 100);
    MulCancel(r, 100, totalCores);
  }

  lemma MulLeImplies(a: int, b: int, c: int)
    requires c >= 0
    ensures a <= b ==> a * c <= b * c
  {
    if a <= b {
      MulLe(a, b, c);
    }
  }

  lemma MulLe(a: int, b: int, c: int)
    requires a <= b && c >= 0
    ensures a * c <= b * c
  {
  }

  /** a * b <= c * b with b positive gives a <= c. */
  lemma MulCancel(a: int, c: int, b: int)
    requires b > 0
    ensures a * b <= c * b ==> a <= c
  {
    if a > c {
      MulLe(c + 1, a, b);
    }
  }

  lemma FloorDivBounds(a: int, b: int)
    requires a >= 0 && b > 0
    ensures (a / b) * b <= a < (a / b + 1) * b
  {
    assert a == b * (a / b) + a % b;
  }

  /** The cores the listing reports as available, and together with the
      used ones they are all the cores. */
  function AvailableCores(active: int, totalCores: int): (r: int)
    ensures r + active == totalCores
    ensures 0 <= active <= totalCores ==> 0 <= r <= totalCores
  {
    totalCores - active
  }

  // ----- Generated names -----

  /** 'p' followed by the counter, zero-padded to at least two digits. */
  function PaddedName(n: nat): string
  {
    "p" + (if n < 10 then "0" else "") + Digits(n)
  }

  /** A padded name is 'p' and at least two digits whose value is n. */
  lemma PaddedNameShape(n: nat)
    ensures var s := PaddedName(n);
      |s| >= 3 && s[0] == 'p' && Value(s[1..]) == n
      && (forall i :: 1 <= i < |s| ==> '0' <= s[i] <= '9')
      && (n < 100 <==> |s| == 3)
  {
    var s := PaddedName(n);
    DigitsShape(n);
    ValueOfDigits(n);
    if n < 10 {
      assert s[1..] == ['0', DigitChar(n)];
      assert s[1..][..1] == ['0'];
      assert ['0'][..0] == [];
    } else {
      assert s[1..] == Digits(n);
    }
  }

  /** Different counters give different names, so the batch loop never
      proposes a name twice. */
  lemma PaddedNameInjective(a: nat, b: nat)
    requires PaddedName(a) == PaddedName(b)
    ensures a == b
  {
    PaddedNameShape(a);
    PaddedNameShape(b);
  }

  // ----- Batch cadence -----

  const CycleLimit := 0x1_0000_0000_0000_0000
  type U64 = x: int | 0 <= x < CycleLimit

  /** The cycles elapsed since the last creation, as unsigned 64-bit
      subtraction computes them. */
  function CyclesSince(current: U64, last: U64): U64
  {
    (current - last) % CycleLimit
  }

  /** The batch loop's state between passes: the names the table holds, its
      name counter, the cycle of the last creation, and the names created. */
  datatype BatchState = BatchState(names: set<string>, counter: nat, lastCycle: U64, created: seq<string>)

  /** One pass of the batch loop at cycle reading current. When the cadence
      is due, the counter always advances; the process is created, and the
      last cycle moved, only when its name is new. */
  function BatchPass(s: BatchState, current: U64, batchFreq: int): (r: BatchState)
    ensures r.counter == s.counter + (if CyclesSince(current, s.lastCycle) >= batchFreq then 1 else 0)
    ensures r.created != s.created ==>
      CyclesSince(current, s.lastCycle) >= batchFreq && PaddedName(s.counter) !in s.names
      && r.created == s.created + [PaddedName(s.counter)] && r.names == s.names + {PaddedName(s.counter)}
      && r.lastCycle == current
    ensures r.created == s.created ==> r.names == s.names && r.lastCycle == s.lastCycle
  {
    if CyclesSince(current, s.lastCycle) < batchFreq then s
    else
      var name := PaddedName(s.counter);
      if name in s.names then s.(counter := s.counter + 1)
      else BatchState(s.names + {name}, s.counter + 1, current, s.created + [name])
  }

  /** The state after one pass per cycle reading, in order. */
  function BatchRun(s: BatchState, cycles: seq<U64>, batchFreq: int): BatchState
  {
    if cycles == [] then s
    else BatchPass(BatchRun(s, cycles[..|cycles| - 1], batchFreq), cycles[|cycles| - 1], batchFreq)
  }

  /** Over any run, every created name is new to the table and created
      once, the table gains exactly the created names, each creation used
      up a counter value, and the last cycle moves only with a creation. */
  lemma {:induction false} BatchRunCreatesFreshNames(s: BatchState, cycles: seq<U64>, batchFreq: int)
    requires s.created == []
    ensures var r := BatchRun(s, cycles, batchFreq);
      r.names == s.names + NameSet(r.created)
      && (forall j :: 0 <= j < |r.created| ==> r.created[j] !in s.names)
      && (forall i, j :: 0 <= i < j < |r.created| ==> r.created[i] != r.created[j])
      && r.counter >= s.counter + |r.created|
      && (r.created == [] ==> r.lastCycle == s.lastCycle)
  {
    if cycles != [] {
      var p := cycles[..|cycles| - 1];
      BatchRunCreatesFreshNames(s, p, batchFreq);
      var a := BatchRun(s, p, batchFreq);
      var r := BatchPass(a, cycles[|cycles| - 1], batchFreq);
      if r.created != a.created {
        var name := PaddedName(a.counter);
        assert r.created[..|a.created|] == a.created;
        forall j | 0 <= j < |a.created| ensures a.created[j] != name {
          assert a.created[j] in a.names;
        }
        NameSetSnoc(a.created, name);
      }
    }
  }

  lemma NameSetSnoc(s: seq<string>, x: string)
    ensures NameSet(s + [x]) == NameSet(s) + {x}
  {
    var t := s + [x];
    forall y | y in NameSet(t)
      ensures y in NameSet(s) + {x}
    {
      var j :| 0 <= j < |t| && t[j] == y;
      if j < |s| { assert s[j] == y; }
    }
    forall y | y in NameSet(s) + {x}
      ensures y in NameSet(t)
    {
      if y == x { assert t[|s|] == y; }
      else {
        var j :| 0 <= j < |s| && s[j] == y;
        assert t[j] == y;
      }
    }
  }

  /** The names a sequence holds. */
  function NameSet(s: seq<string>): set<string>
  {
    set j | 0 <= j < |s| :: s[j]
  }

  // ----- The registry -----

  /** The processes created under the given names, in order: the table
      holds each under its name, and each was handed on after the earlier
      hand-offs with the next id in turn. */
  predicate CreatedIn(procs: map<string, Process>, log: seq<Process>, names: seq<string>,
                      firstPid: int, before: seq<Process>)
  {
    |log| == |before| + |names| && log[..|before|] == before
    && forall j :: 0 <= j < |names| ==>
         names[j] in procs && procs[names[j]] == log[|before| + j]
         && log[|before| + j].name == names[j] && log[|before| + j].pid == firstPid + j
  }

  /** One more creation, under a name the table did not hold, extends the
      record by that name. */
  lemma CreatedSnoc(procs: map<string, Process>, log: seq<Process>, names: seq<string>,
                    firstPid: int, before: seq<Process>, name: string, p: Process)
    requires CreatedIn(procs, log, names, firstPid, before)
    requires name !in procs && p.name == name && p.pid == firstPid + |names|
    ensures CreatedIn(procs[name := p], log + [p], names + [name], firstPid, before)
  {
    var procs', log', names' := procs[name := p], log + [p], names + [name];
    assert log'[..|before|] == log[..|before|];
    forall j | 0 <= j < |names'|
      ensures names'[j] in procs' && procs'[names'[j]] == log'[|before| + j]
              && log'[|before| + j].name == names'[j] && log'[|before| + j].pid == firstPid + j
    {
      if j < |names| {
        assert names'[j] == names[j] && names[j] in procs && names[j] != name;
        assert log'[|before| + j] == log[|before| + j];
      }
    }
  }

  class ProcessManager {
    var processes: map<string, Process>
    var nextPID: nat
    var batchProcessingActive: bool
    var lastProcessCreationCycle: int
    /** The processes handed to the scheduler, in order. */
    var handedOff: seq<Process>

    /** Each entry is stored under its own name, ids are at least 1 and
        below nextPID, and no two entries share an id. */
    ghost predicate Valid()
      reads this
    {
      nextPID >= 1
      && (forall n :: n in processes ==> processes[n].name == n && 1 <= processes[n].pid < nextPID)
      && (forall a, b :: a in processes && b in processes && a != b ==> processes[a].pid != processes[b].pid)
    }

    constructor ()
      ensures Valid()
      ensures processes == map[] && nextPID == 1 && !batchProcessingActive
      ensures lastProcessCreationCycle == 0 && handedOff == []
    {
      processes := map[];
      nextPID := 1;
      batchProcessingActive := false;
      lastProcessCreationCycle := 0;
      handedOff := [];
    }

    /** Admits a process under a new, non-empty name: it gets the next id,
        is stored under its name and is handed to the scheduler. An empty
        or taken name is refused and changes nothing. */
    method GenerateProcess(name: string) returns (result: Outcome<RegistryError>)
      requires Valid()
      modifies this`processes, this`nextPID, this`handedOff
      ensures Valid()
      ensures result == Admission(old(processes).Keys, name)
      ensures result.Fail? ==>
        processes == old(processes) && nextPID == old(nextPID) && handedOff == old(handedOff)
      ensures result == Pass ==>
        name in processes && fresh(processes[name]) && processes[name].pid == old(nextPID)
        && processes == old(processes)[name := processes[name]]
        && nextPID == old(nextPID) + 1 && handedOff == old(handedOff) + [processes[name]]
    {
      if name == "" {
        return Fail(EmptyName);
      }
      if name in processes {
        return Fail(DuplicateName(name));
      }
      var process := new Process(nextPID, name);
      nextPID := nextPID + 1;
      processes := processes[name := process];
      handedOff := handedOff + [process];
      return Pass;
    }

    /** The name the next id would be given: 'p' and the id, zero-padded
        to two digits. */
    function GenerateProcessName(): (s: string)
      reads this
      ensures |s| >= 3 && s[0] == 'p' && Value(s[1..]) == nextPID
      ensures nextPID < 100 <==> |s| == 3
    {
      PaddedNameShape(nextPID);
      PaddedName(nextPID)
    }

    /** The process stored under the name, if any. */
    method GetProcess(name: string) returns (process: Option<Process>)
      ensures process.Some? <==> name in processes
      ensures process.Some? ==> process.value == processes[name]
      ensures Valid() && process.Some? ==> process.value.name == name && process.value.pid < nextPID
    {
      if name in processes {
        return Some(processes[name]);
      }
      return None;
    }

    /** The three figures of the process listing: utilisation, cores used
        (processes RUNNING) and cores available. */
    method ListProcesses(totalCores: int) returns (utilization: int, activeCount: int, available: int)
      requires totalCores != 0
      ensures activeCount == |RunningNames()|
      ensures utilization == CpuUtilization(activeCount, totalCores)
      ensures available == AvailableCores(activeCount, totalCores)
    {
      activeCount := 0;
      var remaining := processes.Keys;
      ghost var counted: set<string> := {};
      while remaining != {}
        invariant remaining + counted == processes.Keys && remaining !! counted
        invariant activeCount == |RunningAmong(counted)|
        decreases |remaining|
      {
        var n :| n in remaining;
        RunningAmongAdd(counted, n);
        if processes[n].state == Running {
          activeCount := activeCount + 1;
        }
        remaining := remaining - {n};
        counted := counted + {n};
      }
      assert counted == processes.Keys;
      utilization := CpuUtilization(activeCount, totalCores);
      available := totalCores - activeCount;
    }

    /** The names in the table whose process is RUNNING. */
    function RunningNames(): set<string>
      reads this, processes.Values
    {
      RunningAmong(processes.Keys)
    }

    function RunningAmong(names: set<string>): set<string>
      reads this, processes.Values
    {
      set n | n in names && n in processes && processes[n].state == Running
    }

    lemma RunningAmongAdd(names: set<string>, n: string)
      requires n !in names && n in processes
      ensures |RunningAmong(names + {n})| ==
        |RunningAmong(names)| + (if processes[n].state == Running then 1 else 0)
    {
      if processes[n].state == Running {
        assert RunningAmong(names + {n}) == RunningAmong(names) + {n};
      } else {
        assert RunningAmong(names + {n}) == RunningAmong(names);
      }
    }

    /** Starting the batch loop needs an initialised configuration; it sets
        the flag, and starts a loop, only when none is active. */
    method StartBatch(initialized: bool) returns (result: Outcome<RegistryError>, started: bool)
      modifies this`batchProcessingActive
      ensures !initialized ==>
        result == Fail(NotInitialized) && !started && batchProcessingActive == old(batchProcessingActive)
      ensures initialized ==> result == Pass && batchProcessingActive && started == !old(batchProcessingActive)
    {
      if !initialized {
        return Fail(NotInitialized), false;
      }
      started := false;
      if !batchProcessingActive {
        batchProcessingActive := true;
        started := true;
      }
      result := Pass;
    }

    /** Stopping clears the flag; the loop then ends after its pass. */
    method StopBatch()
      modifies this`batchProcessingActive
      ensures !batchProcessingActive
    {
      if batchProcessingActive {
        batchProcessingActive := false;
      }
    }

    /** One pass of the batch loop from the run state s: when the cadence
        is due, the next padded name is tried and the counter advances; a
        creation moves the last cycle. */
    method BatchStep(ghost s: BatchState, ghost firstPid: int, ghost log0: seq<Process>,
                     counter: nat, last: U64, current: U64, batchFreq: int) returns (counter': nat, last': U64)
      requires Valid()
      requires counter == s.counter && last == s.lastCycle && processes.Keys == s.names
      requires nextPID == firstPid + |s.created| && CreatedIn(processes, handedOff, s.created, firstPid, log0)
      modifies this`processes, this`nextPID, this`handedOff
      ensures Valid()
      ensures var r := BatchPass(s, current, batchFreq);
        counter' == r.counter && last' == r.lastCycle && processes.Keys == r.names
        && nextPID == firstPid + |r.created| && CreatedIn(processes, handedOff, r.created, firstPid, log0)
      ensures forall n :: n in old(processes) ==> n in processes && processes[n] == old(processes)[n]
    {
      counter', last' := counter, last;
      if CyclesSince(current, last) >= batchFreq {
        var name := PaddedName(counter);
        counter' := counter + 1;
        ghost var procs0, log1 := processes, handedOff;
        var created := GenerateProcess(name);
        if created == Pass {
          last' := current;
          CreatedSnoc(procs0, log1, s.created, firstPid, log0, name, processes[name]);
        } else {
          assert name in s.names;
        }
      }
    }

    /** The batch loop, one pass per cycle reading until the flag is
        cleared: the counter starts at 1 and the last cycle at the reading
        taken on entry; a due pass tries to create the next padded name. */
    method BatchLoop(startCycle: U64, cycles: seq<U64>, batchFreq: int) returns (processCounter: nat, lastCycle: U64)
      requires Valid()
      modifies this`processes, this`nextPID, this`handedOff
      ensures Valid()
      ensures var r := BatchRun(BatchState(old(processes).Keys, 1, startCycle, []), cycles, batchFreq);
        processCounter == r.counter && lastCycle == r.lastCycle && processes.Keys == r.names
        && nextPID == old(nextPID) + |r.created|
        && CreatedIn(processes, handedOff, r.created, old(nextPID), old(handedOff))
      ensures forall n :: n in old(processes) ==> n in processes && processes[n] == old(processes)[n]
    {
      processCounter := 1;
      lastCycle := startCycle;
      ghost var s0 := BatchState(processes.Keys, 1, startCycle, []);
      var i := 0;
      while i < |cycles|
        invariant 0 <= i <= |cycles| && Valid()
        invariant var r := BatchRun(s0, cycles[..i], batchFreq);
          processCounter == r.counter && lastCycle == r.lastCycle && processes.Keys == r.names
          && nextPID == old(nextPID) + |r.created|
          && CreatedIn(processes, handedOff, r.created, old(nextPID), old(handedOff))
        invariant forall n :: n in old(processes) ==> n in processes && processes[n] == old(processes)[n]
      {
        ghost var before := BatchRun(s0, cycles[..i], batchFreq);
        assert cycles[..i + 1][..i] == cycles[..i];
        processCounter, lastCycle :=
          BatchStep(before, old(nextPID), old(handedOff), processCounter, lastCycle, cycles[i], batchFreq);
        i := i + 1;
      }
      assert cycles[..i] == cycles;
    }
  }
}
