/** One sequential step of each scheduler loop (Scheduler.cpp with
    headers/Scheduler.h): the FIFO ready queue, the cores, the finished list,
    the process records and the memory manager. Each core thread's local
    `currentProcess` becomes an entry of `currentProcess`, and the clock
    readings the source takes are parameters. */
module Scheduling {
  import opened Wrappers
  import opened ProcessRecord
  import opened FlatMemory
  import opened PagingMemory
  import opened Memory
  import opened Decimal
  import Configuration

  datatype CoreState = Running | Idle | Stopped

  /** A core: its index, the process it shows and its state (the thread
      handle is not modelled). */
  datatype Core = Core(coreIndex: int, process: Option<Process>, state: CoreState)

  /** The three loop bodies a core thread can run. */
  datatype Policy = Fcfs | FlatRoundRobin | PagingRoundRobin

  /** How a round-robin step ended. */
  datatype StepResult =
    | Blocked    // no current process and an empty queue: the thread waits
    | Requeued   // the memory gate refused the process
    | Finished   // the quantum completed the process
    | Preempted  // quantum over, others waiting: back to the queue tail
    | Continued  // quantum over, nobody waiting: keeps the core

  /** The status fields of a process that a round-robin step sets. */
  datatype Flags = Flags(running: bool, waiting: bool, done: bool, core: int, start: int, end: int)

  function FlagsOf(p: Process): Flags
    reads p
  {
    Flags(p.isRunning, p.isWaiting, p.isDone, p.coreAssigned, p.startTime, p.endTime)
  }

  /** The status of a process after a step on core cpuIndex at clock
      reading now that ended with result, given its status f before: a
      refused process is untouched; otherwise it is assigned to the core,
      and it is then done, not running and stamped with its end time
      after finishing, waiting and not running after preemption, and
      running and not waiting after continuation. */
  predicate FlagsAfterStep(p: Process, result: StepResult, cpuIndex: int, now: int, f: Flags)
    reads p
  {
    match result
    case Blocked => FlagsOf(p) == f
    case Requeued => FlagsOf(p) == f
    case Finished =>
      p.coreAssigned == cpuIndex && p.isDone && !p.isRunning && !p.isWaiting && p.endTime == now
    case Preempted =>
      p.coreAssigned == cpuIndex && p.isWaiting && !p.isRunning && p.isDone == f.done && p.endTime == f.end
    case Continued =>
      p.coreAssigned == cpuIndex && p.isRunning && !p.isWaiting && p.isDone == f.done && p.endTime == f.end
  }

  // ----- Arithmetic of quanta and pages -----

  function Min(a: int, b: int): int { if a < b then a else b }

  /** The instructions one quantum runs: the quantum, or what is left. */
  function QuantumFor(quantumCycles: int, total: int, done: int): int
  {
    Min(quantumCycles, total - done)
  }

  /** The executed count after one quantum; a non-positive quantum runs none. */
  function AfterQuantum(done: int, total: int, quantumCycles: int): (r: int)
    ensures 0 <= done <= total ==> done <= r <= total
    ensures quantumCycles >= 1 && done < total ==> done < r
    ensures quantumCycles >= 1 && done <= total ==> (r == total <==> total - done <= quantumCycles)
  {
    var q := QuantumFor(quantumCycles, total, done);
    if q > 0 then done + q else done
  }

  /** The executed count after n quanta in a row. */
  function AfterQuanta(done: int, total: int, quantumCycles: int, n: nat): int
  {
    if n == 0 then done else AfterQuantum(AfterQuanta(done, total, quantumCycles, n - 1), total, quantumCycles)
  }

  /** Integer ceiling of a / b for a positive b. */
  function CeilDiv(a: int, b: int): int
    requires b > 0
  {
    (a + b - 1) / b
  }

  /** CeilDiv is the least multiple count reaching a. */
  lemma CeilDivBounds(a: int, b: int)
    requires b > 0
    ensures (CeilDiv(a, b) - 1) * b < a <= CeilDiv(a, b) * b
  {
    var c := CeilDiv(a, b);
    var m := a + b - 1;
    assert m == b * (m / b) + m % b && 0 <= m % b < b;
    assert c * b == b * c;
  }

  /** The page count the paged gate requests: the ceiling of size over the
      frame size, for either sign of the frame size. */
  function PageRequest(size: int, frameSize: int): (k: int)
    requires frameSize != 0
    ensures frameSize > 0 ==> (k - 1) * frameSize < size <= k * frameSize
    ensures frameSize > 0 && size >= 0 ==> k >= 0
  {
    CeilDivBounds(if frameSize > 0 then size else -size, if frameSize > 0 then frameSize else -frameSize);
    if frameSize > 0 then CeilDiv(size, frameSize) else CeilDiv(-size, -frameSize)
  }

  /** n quanta run min(total, done + n * quantum) instructions in all. */
  lemma {:induction false} QuantaAccumulate(done: int, total: int, quantumCycles: int, n: nat)
    requires 0 <= done <= total && quantumCycles >= 1
    ensures AfterQuanta(done, total, quantumCycles, n) == Min(total, done + n * quantumCycles)
  {
    if n > 0 {
      QuantaAccumulate(done, total, quantumCycles, n - 1);
      assert done + n * quantumCycles == done + (n - 1) * quantumCycles + quantumCycles;
    }
  }

  /** A process completes after exactly ceil((total - done) / quantum)
      quanta: that many finish it and one fewer does not. */
  lemma QuantaToCompletion(done: int, total: int, quantumCycles: int)
    requires 0 <= done <= total && quantumCycles >= 1
    ensures var n := CeilDiv(total - done, quantumCycles);
      n >= 0 && AfterQuanta(done, total, quantumCycles, n) == total
      && (n >= 1 ==> AfterQuanta(done, total, quantumCycles, n - 1) < total)
  {
    var n := CeilDiv(total - done, quantumCycles);
    CeilDivBounds(total - done, quantumCycles);
    QuantaAccumulate(done, total, quantumCycles, n);
    if n >= 1 {
      QuantaAccumulate(done, total, quantumCycles, n - 1);
    }
  }

  // ----- Policy choice -----

  /** The loop body a core runs: "fcfs" runs first-come first-served; "rr"
      runs flat round robin exactly when the whole memory is one frame, and
      paged round robin otherwise; any other name starts no loop. */
  function ChoosePolicy(algorithm: string, maxOverallMemory: int, memoryPerFrame: int): (r: Option<Policy>)
    ensures r.None? <==> algorithm != "fcfs" && algorithm != "rr"
    ensures r == Some(Fcfs) <==> algorithm == "fcfs"
    ensures r == Some(FlatRoundRobin) ==> maxOverallMemory == memoryPerFrame
    ensures r == Some(PagingRoundRobin) ==> maxOverallMemory != memoryPerFrame
  {
    if algorithm == "fcfs" then Some(Fcfs)
    else if algorithm == "rr" then
      if maxOverallMemory == memoryPerFrame then Some(FlatRoundRobin) else Some(PagingRoundRobin)
    else None
  }

  /** A configuration that passed validation always selects a loop body,
      and round robin splits into flat and paged on the memory sizes only. */
  lemma ValidConfigChoosesPolicy(s: Configuration.Settings, maxOverallMemory: int, memoryPerFrame: int)
    requires Configuration.Validate(s) == Pass
    ensures ChoosePolicy(s.scheduler, maxOverallMemory, memoryPerFrame).Some?
    ensures s.scheduler == "fcfs" <==> ChoosePolicy(s.scheduler, maxOverallMemory, memoryPerFrame) == Some(Fcfs)
    ensures s.scheduler == "rr" ==>
      (ChoosePolicy(s.scheduler, maxOverallMemory, memoryPerFrame) == Some(FlatRoundRobin) <==> maxOverallMemory == memoryPerFrame)
  {
    Configuration.ValidateAcceptsIff(s);
  }

  // ----- Generation -----

  /** A generated value `r % (hi - lo + 1) + lo` lies in [lo, hi] for any
      non-negative random draw r. */
  lemma GeneratedInRange(r: int, lo: int, hi: int)
    requires r >= 0 && lo <= hi
    ensures lo <= r % (hi - lo + 1) + lo <= hi
  {
  }

  /** The generated name of the n-th dummy process. */
  function DummyName(n: nat): string
  {
    "Process_" + Digits(n)
  }

  /** Distinct counters give distinct dummy names. */
  lemma DummyNamesDistinct(a: nat, b: nat)
    requires a != b
    ensures DummyName(a) != DummyName(b)
  {
    if DummyName(a) == DummyName(b) {
      var pre := "Process_";
      assert DummyName(a)[|pre|..] == Digits(a);
      assert DummyName(b)[|pre|..] == Digits(b);
      DigitsInjective(a, b);
    }
  }

  // ----- Tick counting -----

  /** The number of cores in state RUNNING. */
  function RunningCores(cores: seq<Core>): (n: nat)
    ensures n <= |cores|
  {
    if cores == [] then 0
    else RunningCores(cores[..|cores| - 1]) + (if cores[|cores| - 1].state == Running then 1 else 0)
  }

  /** Builds `numCores` idle cores with indices 0..numCores-1. */
  method BuildCores(numCores: nat) returns (cores: seq<Core>)
    ensures |cores| == numCores
    ensures forall i :: 0 <= i < numCores ==> cores[i] == Core(i, None, Idle)
  {
    cores := [];
    var i := 0;
    while i < numCores
      invariant 0 <= i <= numCores && |cores| == i
      invariant forall j :: 0 <= j < i ==> cores[j] == Core(j, None, Idle)
    {
      cores := cores + [Core(i, None, Idle)];
      i := i + 1;
    }
  }

  /** Runs `count` instructions after `executed`, storing the running count
      after each one; a non-positive count runs none. */
  method ExecuteInstructions(p: Process, executed: int, count: int)
    modifies p`instructionsDone
    ensures p.instructionsDone == if count > 0 then executed + count else old(p.instructionsDone)
  {
    var i := 0;
    while i < count
      invariant count > 0 ==> 0 <= i <= count
      invariant count <= 0 ==> i == 0
      invariant i > 0 ==> p.instructionsDone == executed + i
      invariant i == 0 ==> p.instructionsDone == old(p.instructionsDone)
    {
      p.SetInstructionsDone(executed + i + 1);
      i := i + 1;
    }
  }

  class Scheduler {
    const numCores: nat
    const schedulingAlgorithm: string
    const quantumCycles: int
    const batchProcessFrequency: int
    const minimumInstructions: int
    const maxInstructions: int
    const delaysPerExecution: int
    const globalExecDelay: int
    const maxOverallMemory: int
    const memoryPerFrame: int
    const minMemoryPerProcess: int
    const maxMemoryPerProcess: int
    const memoryManager: MemoryManager

    var readyQueue: seq<Process>
    var processVector: seq<Process>
    var coreVector: seq<Core>
    /** What each core's thread holds between loop passes. */
    var currentProcess: seq<Option<Process>>
    var finishedProcesses: seq<Process>
    var activeTicks: int
    var idleTicks: int
    var processCounter: nat

    /** The cores line up with their indices and the manager's frame size
        is the configured memory per frame. */
    ghost predicate Valid()
      reads this
    {
      |coreVector| == numCores && |currentProcess| == numCores
      && (forall i :: 0 <= i < numCores ==> coreVector[i].coreIndex == i)
      && memoryManager.frameSize == memoryPerFrame && memoryManager.memPerFrame == memoryPerFrame
      && memoryPerFrame != 0
    }

    /** Cores 0..numCores-1, idle and empty; the execution delay is
        (delays + 1) * 100; the memory manager is built with the frame size
        as both its frame size and its memory per frame. */
    constructor (numCores: nat, schedulingAlgorithm: string, quantumCycles: int, batchProcessFrequency: int,
                 minimumInstructions: int, maxInstructions: int, delaysPerExecution: int,
                 maxOverallMemory: int, memoryPerFrame: int, minMemoryPerProcess: int,
                 maxMemoryPerProcess: int, processVector: seq<Process>)
      requires memoryPerFrame != 0
      ensures Valid()
      ensures this.numCores == numCores && this.schedulingAlgorithm == schedulingAlgorithm
      ensures this.quantumCycles == quantumCycles && this.batchProcessFrequency == batchProcessFrequency
      ensures this.minimumInstructions == minimumInstructions && this.maxInstructions == maxInstructions
      ensures this.delaysPerExecution == delaysPerExecution
      ensures this.maxOverallMemory == maxOverallMemory && this.memoryPerFrame == memoryPerFrame
      ensures this.minMemoryPerProcess == minMemoryPerProcess && this.maxMemoryPerProcess == maxMemoryPerProcess
      ensures globalExecDelay == (delaysPerExecution + 1) * 100
      ensures forall i :: 0 <= i < numCores ==> coreVector[i] == Core(i, None, Idle)
      ensures forall i :: 0 <= i < numCores ==> currentProcess[i] == None
      ensures readyQueue == [] && finishedProcesses == [] && this.processVector == processVector
      ensures activeTicks == 0 && idleTicks == 0 && processCounter == 0
      ensures fresh(memoryManager)
      ensures memoryManager.maxMemory == maxOverallMemory && memoryManager.minMemoryPerProcess == minMemoryPerProcess
      ensures memoryManager.PagingInvariant()
      ensures maxOverallMemory >= 1 ==> memoryManager.FlatInvariant()
    {
      var cores := BuildCores(numCores);
      var mm := new MemoryManager(maxOverallMemory, memoryPerFrame, minMemoryPerProcess,
                                  maxMemoryPerProcess, memoryPerFrame);
      this.numCores := numCores;
      this.schedulingAlgorithm := schedulingAlgorithm;
      this.quantumCycles := quantumCycles;
      this.batchProcessFrequency := batchProcessFrequency;
      this.minimumInstructions := minimumInstructions;
      this.maxInstructions := maxInstructions;
      this.delaysPerExecution := delaysPerExecution;
      this.maxOverallMemory := maxOverallMemory;
      this.memoryPerFrame := memoryPerFrame;
      this.minMemoryPerProcess := minMemoryPerProcess;
      this.maxMemoryPerProcess := maxMemoryPerProcess;
      this.processVector := processVector;
      globalExecDelay := (delaysPerExecution + 1) * 100;
      memoryManager := mm;
      coreVector := cores;
      currentProcess := seq(numCores, _ => None);
      readyQueue := [];
      finishedProcesses := [];
      activeTicks, idleTicks := 0, 0;
      processCounter := 0;
    }

    /** Strict FIFO: the process joins the tail. */
    method AddProcessToReadyQueue(process: Process)
      modifies this`readyQueue
      ensures readyQueue == old(readyQueue) + [process]
    {
      readyQueue := readyQueue + [process];
    }

    /** A user-created process joins the queue tail and the process list. */
    method AddCustomProcess(process: Process)
      modifies this`readyQueue, this`processVector
      ensures readyQueue == old(readyQueue) + [process]
      ensures processVector == old(processVector) + [process]
    {
      readyQueue := readyQueue + [process];
      processVector := processVector + [process];
    }

    /** One pass of the generator loop, with r1 and r2 the two random draws:
        a waiting process named after the counter, with instruction count
        and size drawn from the configured ranges, joins both lists. */
    method GenerateDummyProcess(r1: int, r2: int) returns (p: Process)
      requires r1 >= 0 && r2 >= 0
      requires maxInstructions - minimumInstructions + 1 != 0
      requires maxMemoryPerProcess - minMemoryPerProcess + 1 != 0
      modifies this`processVector, this`readyQueue, this`processCounter
      ensures fresh(p) && p.processName == DummyName(old(processCounter))
      ensures p.instructionsTotal == r1 % (maxInstructions - minimumInstructions + 1) + minimumInstructions
      ensures p.processSize == r2 % (maxMemoryPerProcess - minMemoryPerProcess + 1) + minMemoryPerProcess
      ensures minimumInstructions <= maxInstructions ==> minimumInstructions <= p.instructionsTotal <= maxInstructions
      ensures minMemoryPerProcess <= maxMemoryPerProcess ==> minMemoryPerProcess <= p.processSize <= maxMemoryPerProcess
      ensures p.isWaiting && !p.isRunning && !p.isDone && p.instructionsDone == 0 && p.pages == []
      ensures processVector == old(processVector) + [p] && readyQueue == old(readyQueue) + [p]
      ensures processCounter == old(processCounter) + 1
    {
      var generatedInstructions := r1 % (maxInstructions - minimumInstructions + 1) + minimumInstructions;
      var memorySize := r2 % (maxMemoryPerProcess - minMemoryPerProcess + 1) + minMemoryPerProcess;
      if minimumInstructions <= maxInstructions {
        GeneratedInRange(r1, minimumInstructions, maxInstructions);
      }
      if minMemoryPerProcess <= maxMemoryPerProcess {
        GeneratedInRange(r2, minMemoryPerProcess, maxMemoryPerProcess);
      }
      p := new Process(DummyName(processCounter));
      p.SetInstructionsTotal(generatedInstructions);
      p.SetProcessSize(memorySize);
      p.SetWaiting(true);
      processVector := processVector + [p];
      AddProcessToReadyQueue(p);
      processCounter := processCounter + 1;
    }

    // ----- First-come first-served -----

    /** One pass of the FCFS loop on core cpuIndex, with the two clock
        readings taken around the run: the front process runs to its total
        on this core, is marked done and joins the finished list, and the
        core is left idle. With an empty queue the thread waits. */
    method FcfsStep(cpuIndex: int, startClock: int, endClock: int) returns (ran: bool)
      requires 0 <= cpuIndex < |coreVector|
      modifies this`readyQueue, this`coreVector, this`finishedProcesses
      modifies if readyQueue != [] then {readyQueue[0]} else {}
      ensures ran == (old(readyQueue) != [])
      ensures !ran ==>
        readyQueue == old(readyQueue) && coreVector == old(coreVector) && finishedProcesses == old(finishedProcesses)
      ensures ran ==>
        var p := old(readyQueue[0]);
        readyQueue == old(readyQueue[1..]) && finishedProcesses == old(finishedProcesses) + [p]
        && coreVector == old(coreVector[cpuIndex := coreVector[cpuIndex].(process := None, state := Idle)])
        && p.coreAssigned == cpuIndex && p.isDone && !p.isRunning && !p.isWaiting
        && p.instructionsTotal == old(p.instructionsTotal)
        && p.instructionsDone == (if old(p.instructionsTotal) > 0 then old(p.instructionsTotal) else old(p.instructionsDone))
        && p.startTime == startClock && p.endTime == endClock
    {
      if readyQueue == [] {
        return false;
      }
      var p := readyQueue[0];
      readyQueue := readyQueue[1..];
      coreVector := coreVector[cpuIndex := coreVector[cpuIndex].(process := Some(p), state := Running)];
      p.SetCoreAssigned(cpuIndex);
      p.SetRunning(true);
      p.SetWaiting(false);
      var instructions := p.instructionsTotal;
      p.startTime := startClock;
      ExecuteInstructions(p, 0, instructions);
      p.endTime := endClock;
      p.SetRunning(false);
      p.SetDone(true);
      coreVector := coreVector[cpuIndex := coreVector[cpuIndex].(process := None, state := Idle)];
      finishedProcesses := finishedProcesses + [p];
      return true;
    }

    /** The FCFS loop on one core once generation has stopped: it drains the
        queue, so processes finish in exactly the order they were queued,
        each marked done, with its full count run when it had one. */
    method RunFcfsScheduler(cpuIndex: int, clock: int)
      requires 0 <= cpuIndex < |coreVector|
      modifies this`readyQueue, this`coreVector, this`finishedProcesses, readyQueue
      ensures readyQueue == []
      ensures finishedProcesses == old(finishedProcesses) + old(readyQueue)
      ensures |coreVector| == old(|coreVector|)
      ensures old(readyQueue) != [] ==> coreVector[cpuIndex].process.None?
      ensures forall j :: 0 <= j < old(|readyQueue|) ==>
        var p := old(readyQueue)[j];
        p.isDone && !p.isRunning && p.coreAssigned == cpuIndex && p.instructionsTotal == old(p.instructionsTotal)
        && (p.instructionsTotal > 0 ==> p.instructionsDone == p.instructionsTotal)
    {
      ghost var q0 := readyQueue;
      var k := 0;
      if readyQueue == [] {
        return;
      }
      while readyQueue != []
        invariant 0 <= k <= |q0| && readyQueue == q0[k..]
        invariant finishedProcesses == old(finishedProcesses) + q0[..k]
        invariant 0 <= cpuIndex < |coreVector| == old(|coreVector|)
        invariant k > 0 ==> coreVector[cpuIndex].process.None?
        invariant forall j :: 0 <= j < |q0| ==> q0[j].instructionsTotal == old(q0[j].instructionsTotal)
        invariant forall j :: 0 <= j < k ==> Completed(q0[j], cpuIndex)
        decreases |readyQueue|
      {
        var p := readyQueue[0];
        var ran := FcfsStep(cpuIndex, clock, clock);
        assert p == q0[k];
        SnocPrefixOf(q0, k);
        k := k + 1;
      }
    }

    // ----- Round robin -----

    /** The process a core works on next: its own, or the queue front. */
    function Selected(cpuIndex: int): Option<Process>
      requires 0 <= cpuIndex < |currentProcess|
      reads this
    {
      if currentProcess[cpuIndex].Some? then currentProcess[cpuIndex]
      else if readyQueue != [] then Some(readyQueue[0])
      else None
    }

    /** The queue once the selected process is taken from it. */
    function QueueAfterSelect(cpuIndex: int): seq<Process>
      requires 0 <= cpuIndex < |currentProcess|
      reads this
    {
      if currentProcess[cpuIndex].Some? || readyQueue == [] then readyQueue else readyQueue[1..]
    }

    /** Takes the core's own process, or pops the queue front. */
    method Select(cpuIndex: int) returns (selected: Option<Process>)
      requires 0 <= cpuIndex < |currentProcess|
      modifies this`readyQueue
      ensures selected == old(Selected(cpuIndex)) && readyQueue == old(QueueAfterSelect(cpuIndex))
    {
      selected := currentProcess[cpuIndex];
      if selected.None? && readyQueue != [] {
        selected := Some(readyQueue[0]);
        readyQueue := readyQueue[1..];
      }
    }

    /** The memory gate refused the process: back to the queue tail, and
        the core's thread lets go of it. */
    method RequeueRefused(cpuIndex: int, p: Process)
      requires 0 <= cpuIndex < |currentProcess|
      modifies this`readyQueue, this`currentProcess
      ensures readyQueue == old(readyQueue) + [p]
      ensures currentProcess == old(currentProcess)[cpuIndex := None]
    {
      AddProcessToReadyQueue(p);
      currentProcess := currentProcess[cpuIndex := None];
    }

    /** Dispatch, one quantum and what follows it, short of the memory
        release: the process runs min(quantum, remaining) instructions on
        the core, its start time set on its first run only; then it is
        retired if complete, sent to the queue tail if others wait, and
        kept on the core otherwise. */
    method RunQuantum(cpuIndex: int, p: Process, now: int) returns (result: StepResult)
      requires 0 <= cpuIndex < |coreVector| && |currentProcess| == |coreVector|
      modifies this`readyQueue, this`coreVector, this`currentProcess, this`finishedProcesses, p
      ensures p.instructionsDone == AfterQuantum(old(p.instructionsDone), old(p.instructionsTotal), quantumCycles)
      ensures p.instructionsTotal == old(p.instructionsTotal) && p.pages == old(p.pages)
      ensures p.processSize == old(p.processSize) && p.coreAssigned == cpuIndex
      ensures p.startTime == (if old(p.startTime) == 0 then now else old(p.startTime))
      ensures result in {Finished, Preempted, Continued}
      ensures FlagsAfterStep(p, result, cpuIndex, now, old(FlagsOf(p)))
      ensures result == Finished <==> p.instructionsDone == p.instructionsTotal
      ensures result == Preempted <==> result != Finished && old(readyQueue) != []
      ensures result == Finished ==>
        p.isDone && !p.isRunning && p.endTime == now && readyQueue == old(readyQueue)
        && finishedProcesses == old(finishedProcesses) + [p]
      ensures result == Preempted ==>
        p.isWaiting && !p.isRunning && readyQueue == old(readyQueue) + [p]
        && finishedProcesses == old(finishedProcesses)
      ensures result == Continued ==>
        p.isRunning && !p.isWaiting && readyQueue == old(readyQueue)
        && finishedProcesses == old(finishedProcesses)
      ensures result == Continued ==>
        coreVector == old(coreVector)[cpuIndex := old(coreVector[cpuIndex]).(process := Some(p), state := Running)]
        && currentProcess == old(currentProcess)[cpuIndex := Some(p)]
      ensures result != Continued ==>
        coreVector == old(coreVector)[cpuIndex := old(coreVector[cpuIndex]).(process := None, state := Idle)]
        && currentProcess == old(currentProcess)[cpuIndex := None]
    {
      coreVector := coreVector[cpuIndex := coreVector[cpuIndex].(process := Some(p), state := Running)];
      RunOnCore(p, cpuIndex, quantumCycles, now);
      if p.instructionsDone == p.instructionsTotal {
        Retire(cpuIndex, p, now);
        return Finished;
      }
      if readyQueue != [] {
        Preempt(cpuIndex, p);
        return Preempted;
      }
      currentProcess := currentProcess[cpuIndex := Some(p)];
      return Continued;
    }

    /** A completed process leaves the core and joins the finished list. */
    method Retire(cpuIndex: int, p: Process, now: int)
      requires 0 <= cpuIndex < |coreVector| && |currentProcess| == |coreVector|
      modifies this`coreVector, this`currentProcess, this`finishedProcesses, p`endTime, p`isRunning, p`isDone
      ensures p.endTime == now && !p.isRunning && p.isDone
      ensures coreVector == old(coreVector)[cpuIndex := old(coreVector[cpuIndex]).(process := None, state := Idle)]
      ensures currentProcess == old(currentProcess)[cpuIndex := None]
      ensures finishedProcesses == old(finishedProcesses) + [p]
    {
      p.endTime := now;
      p.SetRunning(false);
      p.SetDone(true);
      coreVector := coreVector[cpuIndex := coreVector[cpuIndex].(process := None, state := Idle)];
      finishedProcesses := finishedProcesses + [p];
      currentProcess := currentProcess[cpuIndex := None];
    }

    /** An unfinished process gives up the core to a waiting one. */
    method Preempt(cpuIndex: int, p: Process)
      requires 0 <= cpuIndex < |coreVector| && |currentProcess| == |coreVector|
      modifies this`coreVector, this`currentProcess, this`readyQueue, p`isRunning, p`isWaiting
      ensures !p.isRunning && p.isWaiting
      ensures coreVector == old(coreVector)[cpuIndex := old(coreVector[cpuIndex]).(process := None, state := Idle)]
      ensures currentProcess == old(currentProcess)[cpuIndex := None]
      ensures readyQueue == old(readyQueue) + [p]
    {
      p.SetRunning(false);
      p.SetWaiting(true);
      coreVector := coreVector[cpuIndex := coreVector[cpuIndex].(process := None, state := Idle)];
      AddProcessToReadyQueue(p);
      currentProcess := currentProcess[cpuIndex := None];
    }

    /** The flat memory gate: a process already holding a block passes; any
        other passes exactly when first fit finds room for its size. */
    method FlatGate(p: Process) returns (admitted: bool)
      modifies memoryManager`memoryBlocks
      ensures var bs := old(memoryManager.memoryBlocks);
        var resident := OwnerIndex(bs, p.processName) != -1;
        admitted == (resident || FirstFit(bs, p.processSize) != -1)
        && memoryManager.memoryBlocks == (if resident then bs else Allocated(bs, p.processName, p.processSize))
      ensures old(memoryManager.FlatInvariant()) && p.processName != "" && p.processSize >= 1 ==>
        memoryManager.FlatInvariant()
    {
      var resident := memoryManager.IsProcessInMemory(p.processName);
      if resident {
        return true;
      }
      admitted := memoryManager.AllocateMemory(p.processName, p.processSize);
    }

    /** One pass of the flat round-robin loop on core cpuIndex at clock
        reading now. */
    method RrStep(cpuIndex: int, now: int) returns (result: StepResult)
      requires Valid() && 0 <= cpuIndex < numCores
      modifies this`readyQueue, this`coreVector, this`currentProcess, this`finishedProcesses
      modifies memoryManager`memoryBlocks
      modifies if Selected(cpuIndex).Some? then {Selected(cpuIndex).value} else {}
      ensures Valid()
      ensures result == Blocked <==> old(Selected(cpuIndex)).None?
      ensures old(Selected(cpuIndex)).Some? ==>
        FlagsAfterStep(old(Selected(cpuIndex)).value, result, cpuIndex, now, old(FlagsOf(Selected(cpuIndex).value)))
      ensures result == Blocked ==>
        readyQueue == old(readyQueue) && currentProcess == old(currentProcess)
        && coreVector == old(coreVector) && finishedProcesses == old(finishedProcesses)
        && memoryManager.memoryBlocks == old(memoryManager.memoryBlocks)
      ensures old(Selected(cpuIndex)).Some? ==>
        var p := old(Selected(cpuIndex)).value;
        var q := old(QueueAfterSelect(cpuIndex));
        var bs := old(memoryManager.memoryBlocks);
        var resident := OwnerIndex(bs, p.processName) != -1;
        var held := if resident then bs else Allocated(bs, p.processName, old(p.processSize));
        (result == Requeued <==> !resident && FirstFit(bs, old(p.processSize)) == -1)
        && (result == Requeued ==>
              readyQueue == q + [p] && currentProcess == old(currentProcess)[cpuIndex := None]
              && p.instructionsDone == old(p.instructionsDone) && memoryManager.memoryBlocks == bs
              && coreVector == old(coreVector) && finishedProcesses == old(finishedProcesses))
        && (result != Requeued ==>
              p.instructionsDone == AfterQuantum(old(p.instructionsDone), old(p.instructionsTotal), quantumCycles)
              && p.startTime == (if old(p.startTime) == 0 then now else old(p.startTime)))
        && (result == Finished ==>
              p.instructionsDone == old(p.instructionsTotal) && p.isDone
              && finishedProcesses == old(finishedProcesses) + [p] && readyQueue == q
              && memoryManager.memoryBlocks == Deallocated(held, p.processName))
        && (result == Preempted ==> readyQueue == q + [p] && q != [] && memoryManager.memoryBlocks == held)
        && (result == Continued ==> readyQueue == q && q == [] && memoryManager.memoryBlocks == held)
        && (result == Continued ==>
              coreVector == old(coreVector)[cpuIndex := old(coreVector[cpuIndex]).(process := Some(p), state := Running)]
              && currentProcess == old(currentProcess)[cpuIndex := Some(p)])
        && (result in {Finished, Preempted} ==>
              coreVector == old(coreVector)[cpuIndex := old(coreVector[cpuIndex]).(process := None, state := Idle)]
              && currentProcess == old(currentProcess)[cpuIndex := None])
      ensures old(memoryManager.FlatInvariant())
              && (old(Selected(cpuIndex)).Some? ==>
                    old(Selected(cpuIndex)).value.processName != "" && old(Selected(cpuIndex).value.processSize) >= 1)
              ==> memoryManager.FlatInvariant()
    {
      var selected := Select(cpuIndex);
      if selected.None? {
        return Blocked;
      }
      result := FlatDispatch(cpuIndex, selected.value, now);
    }

    /** Gate, quantum and release for a selected process p. */
    method FlatDispatch(cpuIndex: int, p: Process, now: int) returns (result: StepResult)
      requires Valid() && 0 <= cpuIndex < numCores
      modifies this`readyQueue, this`coreVector, this`currentProcess, this`finishedProcesses
      modifies memoryManager`memoryBlocks, p
      ensures Valid() && result in {Requeued, Finished, Preempted, Continued}
      ensures FlagsAfterStep(p, result, cpuIndex, now, old(FlagsOf(p)))
      ensures var bs := old(memoryManager.memoryBlocks);
        var resident := OwnerIndex(bs, p.processName) != -1;
        var held := if resident then bs else Allocated(bs, p.processName, old(p.processSize));
        (result == Requeued <==> !resident && FirstFit(bs, old(p.processSize)) == -1)
        && (result == Requeued ==>
              readyQueue == old(readyQueue) + [p] && currentProcess == old(currentProcess)[cpuIndex := None]
              && p.instructionsDone == old(p.instructionsDone) && memoryManager.memoryBlocks == bs
              && coreVector == old(coreVector) && finishedProcesses == old(finishedProcesses))
        && (result == Finished ==> memoryManager.memoryBlocks == Deallocated(held, p.processName))
        && (result in {Preempted, Continued} ==> memoryManager.memoryBlocks == held)
      ensures result != Requeued ==>
        p.instructionsDone == AfterQuantum(old(p.instructionsDone), old(p.instructionsTotal), quantumCycles)
        && p.startTime == (if old(p.startTime) == 0 then now else old(p.startTime))
      ensures result == Finished ==>
        p.instructionsDone == old(p.instructionsTotal) && p.isDone
        && finishedProcesses == old(finishedProcesses) + [p] && readyQueue == old(readyQueue)
      ensures result == Preempted ==> readyQueue == old(readyQueue) + [p] && old(readyQueue) != []
      ensures result == Continued ==>
        readyQueue == old(readyQueue) && old(readyQueue) == []
        && coreVector == old(coreVector)[cpuIndex := old(coreVector[cpuIndex]).(process := Some(p), state := Running)]
        && currentProcess == old(currentProcess)[cpuIndex := Some(p)]
      ensures result in {Finished, Preempted} ==>
        coreVector == old(coreVector)[cpuIndex := old(coreVector[cpuIndex]).(process := None, state := Idle)]
        && currentProcess == old(currentProcess)[cpuIndex := None]
      ensures old(memoryManager.FlatInvariant()) && p.processName != "" && old(p.processSize) >= 1 ==>
        memoryManager.FlatInvariant()
    {
      var admitted := FlatGate(p);
      if !admitted {
        RequeueRefused(cpuIndex, p);
        return Requeued;
      }
      result := RunQuantum(cpuIndex, p, now);
      if result == Finished {
        memoryManager.DeallocateMemory(p.processName);
      }
    }

    /** The paged memory gate: a process holding a page passes; any other
        requests ceil(size / frameSize) pages and passes when granted. */
    method PagingGate(p: Process, now: int) returns (admitted: bool)
      requires memoryManager.frameSize != 0
      modifies memoryManager`freeFrameList, memoryManager`processFrameMap, memoryManager`pagedIns, p`pages
      ensures var free := old(memoryManager.freeFrameList);
        var k := PageRequest(p.processSize, memoryManager.frameSize);
        var resident := |old(p.pages)| > 0;
        admitted == (resident || Admits(free, k))
        && (resident ==> memoryManager.freeFrameList == free && p.pages == old(p.pages)
                         && memoryManager.processFrameMap == old(memoryManager.processFrameMap)
                         && memoryManager.pagedIns == old(memoryManager.pagedIns))
        && (!resident ==>
              var g := Granted(free, k);
              memoryManager.freeFrameList == free[|g|..] && p.pages == old(p.pages) + g
              && memoryManager.pagedIns == old(memoryManager.pagedIns) + |g|
              && memoryManager.processFrameMap ==
                 Stamped(old(memoryManager.processFrameMap), g, p, now,
                         SizeInMem(k, p.processSize, memoryManager.memPerFrame)))
      ensures old(memoryManager.PagingInvariant()) ==> memoryManager.PagingInvariant()
    {
      var resident := memoryManager.IsProcessInPagingMemory(p);
      if resident {
        return true;
      }
      var processPageReq := PageRequest(p.processSize, memoryManager.frameSize);
      admitted := memoryManager.PagingAllocate(p, processPageReq, now);
    }

    /** One pass of the paged round-robin loop on core cpuIndex at clock
        reading now. */
    method PagingRrStep(cpuIndex: int, now: int) returns (result: StepResult)
      requires Valid() && 0 <= cpuIndex < numCores
      modifies this`readyQueue, this`coreVector, this`currentProcess, this`finishedProcesses
      modifies memoryManager`freeFrameList, memoryManager`processFrameMap, memoryManager`pagedIns
      modifies memoryManager`pagedOuts
      modifies if Selected(cpuIndex).Some? then {Selected(cpuIndex).value} else {}
      ensures Valid()
      ensures result == Blocked <==> old(Selected(cpuIndex)).None?
      ensures old(Selected(cpuIndex)).Some? ==>
        FlagsAfterStep(old(Selected(cpuIndex)).value, result, cpuIndex, now, old(FlagsOf(Selected(cpuIndex).value)))
      ensures result == Blocked ==>
        readyQueue == old(readyQueue) && currentProcess == old(currentProcess)
        && coreVector == old(coreVector) && finishedProcesses == old(finishedProcesses)
        && memoryManager.freeFrameList == old(memoryManager.freeFrameList)
        && memoryManager.processFrameMap == old(memoryManager.processFrameMap)
        && memoryManager.pagedIns == old(memoryManager.pagedIns)
        && memoryManager.pagedOuts == old(memoryManager.pagedOuts)
      ensures old(Selected(cpuIndex)).Some? ==>
        var p := old(Selected(cpuIndex)).value;
        var q := old(QueueAfterSelect(cpuIndex));
        var free := old(memoryManager.freeFrameList);
        var k := PageRequest(old(p.processSize), memoryPerFrame);
        var resident := |old(p.pages)| > 0;
        (result == Requeued <==> !resident && !Admits(free, k))
        && (result == Requeued ==>
              readyQueue == q + [p] && currentProcess == old(currentProcess)[cpuIndex := None]
              && p.instructionsDone == old(p.instructionsDone) && p.pages == old(p.pages)
              && coreVector == old(coreVector) && finishedProcesses == old(finishedProcesses)
              && memoryManager.freeFrameList == free
              && memoryManager.processFrameMap == old(memoryManager.processFrameMap)
              && memoryManager.pagedIns == old(memoryManager.pagedIns)
              && memoryManager.pagedOuts == old(memoryManager.pagedOuts))
        && (result != Requeued ==>
              p.instructionsDone == AfterQuantum(old(p.instructionsDone), old(p.instructionsTotal), quantumCycles)
              && p.startTime == (if old(p.startTime) == 0 then now else old(p.startTime)))
        && (result == Finished ==>
              p.instructionsDone == old(p.instructionsTotal) && p.isDone
              && finishedProcesses == old(finishedProcesses) + [p] && readyQueue == q
              && (old(memoryManager.PagingInvariant()) && p.processName != "" ==>
                    Unnamed(memoryManager.processFrameMap, p.processName)))
        && (result == Preempted ==> readyQueue == q + [p] && q != [])
        && (result == Continued ==> readyQueue == q && q == [])
        && (result == Continued ==>
              coreVector == old(coreVector)[cpuIndex := old(coreVector[cpuIndex]).(process := Some(p), state := Running)]
              && currentProcess == old(currentProcess)[cpuIndex := Some(p)])
        && (result in {Finished, Preempted} ==>
              coreVector == old(coreVector)[cpuIndex := old(coreVector[cpuIndex]).(process := None, state := Idle)]
              && currentProcess == old(currentProcess)[cpuIndex := None])
      ensures old(Selected(cpuIndex)).Some? && result != Requeued ==>
        var p := old(Selected(cpuIndex)).value;
        PagedAfterRun(p, now, result == Finished, old(memoryManager.freeFrameList), old(memoryManager.processFrameMap),
                      old(memoryManager.pagedIns), old(memoryManager.pagedOuts), old(p.pages), old(p.processSize))
      ensures old(memoryManager.PagingInvariant())
              && (old(Selected(cpuIndex)).Some? ==> old(Selected(cpuIndex)).value.processName != "")
              ==> memoryManager.PagingInvariant()
    {
      var selected := Select(cpuIndex);
      if selected.None? {
        return Blocked;
      }
      result := PagingDispatch(cpuIndex, selected.value, now);
    }

    /** The paged memory state after a process passed the gate and ran: its
        grant g (none when it already held a page) is taken from the free
        list, added to its pages and stamped into the frame table; when it
        finished, the frames the table then names for it (ks) are cleared,
        returned to the free list and dropped from its pages. */
    ghost predicate PagedAfterRun(p: Process, now: int, finished: bool, free: seq<int>, frames: map<int, Frame>,
                                  ins: int, outs: int, pages: seq<int>, size: int)
      requires memoryPerFrame != 0
      reads this, memoryManager, p
    {
      var k := PageRequest(size, memoryPerFrame);
      var g := if |pages| > 0 then [] else Granted(free, k);
      var stamped := Stamped(frames, g, p, now, SizeInMem(k, size, memoryPerFrame));
      var ks := if finished then NamedKeys(stamped, p.processName, memoryManager.numFrames) else [];
      memoryManager.freeFrameList == free[|g|..] + ks
      && memoryManager.processFrameMap == Cleared(stamped, ks)
      && p.pages == RemoveAll(pages + g, ks)
      && memoryManager.pagedIns == ins + |g|
      && memoryManager.pagedOuts == outs + |ks|
    }

    /** Gate, quantum and release for a selected process p. */
    method PagingDispatch(cpuIndex: int, p: Process, now: int) returns (result: StepResult)
      requires Valid() && 0 <= cpuIndex < numCores
      modifies this`readyQueue, this`coreVector, this`currentProcess, this`finishedProcesses
      modifies memoryManager`freeFrameList, memoryManager`processFrameMap, memoryManager`pagedIns
      modifies memoryManager`pagedOuts, p
      ensures Valid() && result in {Requeued, Finished, Preempted, Continued}
      ensures FlagsAfterStep(p, result, cpuIndex, now, old(FlagsOf(p)))
      ensures var free := old(memoryManager.freeFrameList);
        var k := PageRequest(old(p.processSize), memoryPerFrame);
        (result == Requeued <==> |old(p.pages)| == 0 && !Admits(free, k))
      ensures result == Requeued ==>
        readyQueue == old(readyQueue) + [p] && currentProcess == old(currentProcess)[cpuIndex := None]
        && p.instructionsDone == old(p.instructionsDone) && p.pages == old(p.pages)
        && coreVector == old(coreVector) && finishedProcesses == old(finishedProcesses)
        && memoryManager.freeFrameList == old(memoryManager.freeFrameList)
        && memoryManager.processFrameMap == old(memoryManager.processFrameMap)
        && memoryManager.pagedIns == old(memoryManager.pagedIns)
        && memoryManager.pagedOuts == old(memoryManager.pagedOuts)
      ensures result != Requeued ==>
        p.instructionsDone == AfterQuantum(old(p.instructionsDone), old(p.instructionsTotal), quantumCycles)
        && p.startTime == (if old(p.startTime) == 0 then now else old(p.startTime))
        && PagedAfterRun(p, now, result == Finished, old(memoryManager.freeFrameList), old(memoryManager.processFrameMap),
                         old(memoryManager.pagedIns), old(memoryManager.pagedOuts), old(p.pages), old(p.processSize))
      ensures result == Finished ==>
        p.instructionsDone == old(p.instructionsTotal) && p.isDone
        && finishedProcesses == old(finishedProcesses) + [p] && readyQueue == old(readyQueue)
        && (old(memoryManager.PagingInvariant()) && p.processName != "" ==>
              Unnamed(memoryManager.processFrameMap, p.processName))
      ensures result == Preempted ==> readyQueue == old(readyQueue) + [p] && old(readyQueue) != []
      ensures result == Continued ==>
        readyQueue == old(readyQueue) && old(readyQueue) == []
        && coreVector == old(coreVector)[cpuIndex := old(coreVector[cpuIndex]).(process := Some(p), state := Running)]
        && currentProcess == old(currentProcess)[cpuIndex := Some(p)]
      ensures result in {Finished, Preempted} ==>
        coreVector == old(coreVector)[cpuIndex := old(coreVector[cpuIndex]).(process := None, state := Idle)]
        && currentProcess == old(currentProcess)[cpuIndex := None]
      ensures old(memoryManager.PagingInvariant()) && p.processName != "" ==> memoryManager.PagingInvariant()
    {
      ghost var free0, frames0 := memoryManager.freeFrameList, memoryManager.processFrameMap;
      ghost var ins0, outs0, pages0, size0 := memoryManager.pagedIns, memoryManager.pagedOuts, p.pages, p.processSize;
      ghost var k := PageRequest(size0, memoryPerFrame);
      ghost var g := if |pages0| > 0 then [] else Granted(free0, k);
      ghost var stamped := Stamped(frames0, g, p, now, SizeInMem(k, size0, memoryPerFrame));
      StampedNone(frames0, p, now, SizeInMem(k, size0, memoryPerFrame));
      var admitted := PagingGate(p, now);
      if !admitted {
        RequeueRefused(cpuIndex, p);
        return Requeued;
      }
      assert memoryManager.freeFrameList == free0[|g|..] && memoryManager.processFrameMap == stamped;
      assert p.pages == pages0 + g && memoryManager.pagedIns == ins0 + |g|;
      result := PagingRun(cpuIndex, p, now);
      assert ReleasedIf(p, result == Finished, free0[|g|..], stamped, ins0 + |g|, outs0, pages0 + g);
    }

    /** The frame state after a run: unchanged, except that a finished
        process's frames ks are cleared, freed and dropped from its pages. */
    ghost predicate ReleasedIf(p: Process, finished: bool, free: seq<int>, frames: map<int, Frame>,
                               ins: int, outs: int, pages: seq<int>)
      reads memoryManager, p
    {
      var ks := if finished then NamedKeys(frames, p.processName, memoryManager.numFrames) else [];
      memoryManager.freeFrameList == free + ks
      && memoryManager.processFrameMap == Cleared(frames, ks)
      && p.pages == RemoveAll(pages, ks)
      && memoryManager.pagedIns == ins
      && memoryManager.pagedOuts == outs + |ks|
    }

    /** The quantum of an admitted process, and the release of its frames
        when it finished. */
    method PagingRun(cpuIndex: int, p: Process, now: int) returns (result: StepResult)
      requires Valid() && 0 <= cpuIndex < numCores
      modifies this`readyQueue, this`coreVector, this`currentProcess, this`finishedProcesses
      modifies memoryManager`freeFrameList, memoryManager`processFrameMap, memoryManager`pagedOuts, p
      ensures Valid() && result in {Finished, Preempted, Continued}
      ensures FlagsAfterStep(p, result, cpuIndex, now, old(FlagsOf(p)))
      ensures p.instructionsDone == AfterQuantum(old(p.instructionsDone), old(p.instructionsTotal), quantumCycles)
      ensures p.startTime == (if old(p.startTime) == 0 then now else old(p.startTime))
      ensures p.processSize == old(p.processSize)
      ensures ReleasedIf(p, result == Finished, old(memoryManager.freeFrameList), old(memoryManager.processFrameMap),
                         old(memoryManager.pagedIns), old(memoryManager.pagedOuts), old(p.pages))
      ensures result == Finished ==>
        p.instructionsDone == old(p.instructionsTotal) && p.isDone
        && finishedProcesses == old(finishedProcesses) + [p] && readyQueue == old(readyQueue)
        && (old(memoryManager.PagingInvariant()) && p.processName != "" ==>
              Unnamed(memoryManager.processFrameMap, p.processName))
      ensures result == Preempted ==>
        readyQueue == old(readyQueue) + [p] && old(readyQueue) != [] && finishedProcesses == old(finishedProcesses)
      ensures result == Continued ==>
        readyQueue == old(readyQueue) && old(readyQueue) == [] && finishedProcesses == old(finishedProcesses)
        && coreVector == old(coreVector)[cpuIndex := old(coreVector[cpuIndex]).(process := Some(p), state := Running)]
        && currentProcess == old(currentProcess)[cpuIndex := Some(p)]
      ensures result in {Finished, Preempted} ==>
        coreVector == old(coreVector)[cpuIndex := old(coreVector[cpuIndex]).(process := None, state := Idle)]
        && currentProcess == old(currentProcess)[cpuIndex := None]
      ensures old(memoryManager.PagingInvariant()) && p.processName != "" ==> memoryManager.PagingInvariant()
    {
      ghost var frames1 := memoryManager.processFrameMap;
      ghost var free1 := memoryManager.freeFrameList;
      result := RunQuantum(cpuIndex, p, now);
      if result == Finished {
        ReleasePages(p);
      } else {
        assert Cleared(frames1, []) == frames1;
        assert free1 + [] == free1;
      }
    }

    /** Releases every frame of a finished process; afterwards no frame
        table entry among 1..numFrames names it. */
    method ReleasePages(p: Process)
      modifies memoryManager`freeFrameList, memoryManager`processFrameMap, memoryManager`pagedOuts, p`pages
      ensures var ks := NamedKeys(old(memoryManager.processFrameMap), p.processName, memoryManager.numFrames);
        memoryManager.freeFrameList == old(memoryManager.freeFrameList) + ks
        && memoryManager.processFrameMap == Cleared(old(memoryManager.processFrameMap), ks)
        && p.pages == RemoveAll(old(p.pages), ks)
        && memoryManager.pagedOuts == old(memoryManager.pagedOuts) + |ks|
      ensures old(memoryManager.PagingInvariant()) && p.processName != "" ==>
        memoryManager.PagingInvariant() && Unnamed(memoryManager.processFrameMap, p.processName)
    {
      ghost var frames0 := memoryManager.processFrameMap;
      ghost var valid := memoryManager.PagingInvariant();
      var ok := memoryManager.PagingDeallocate(p);
      if valid && p.processName != "" {
        ClearedUnnamed(frames0, p.processName, memoryManager.numFrames);
      }
    }

    // ----- Tick counting -----

    /** One sample of the report loop: each running core adds an active
        tick, every other core an idle tick. */
    method CountCoreTicks()
      modifies this`activeTicks, this`idleTicks
      ensures activeTicks == old(activeTicks) + RunningCores(coreVector)
      ensures idleTicks == old(idleTicks) + (|coreVector| - RunningCores(coreVector))
    {
      var i := 0;
      while i < |coreVector|
        invariant 0 <= i <= |coreVector|
        invariant activeTicks == old(activeTicks) + RunningCores(coreVector[..i])
        invariant idleTicks == old(idleTicks) + (i - RunningCores(coreVector[..i]))
      {
        assert coreVector[..i + 1][..i] == coreVector[..i];
        if coreVector[i].state == Running {
          activeTicks := activeTicks + 1;
        } else {
          idleTicks := idleTicks + 1;
        }
        i := i + 1;
      }
      assert coreVector[..i] == coreVector;
    }

    /** `samples` passes of the report loop over unchanging cores: the tick
        total grows by the core count per pass, and the snapshot index
        returned advances by the quantum per pass. */
    method GenerateReportPerCycle(samples: nat) returns (rr: int)
      requires Valid()
      modifies this`activeTicks, this`idleTicks
      ensures activeTicks == old(activeTicks) + samples * RunningCores(coreVector)
      ensures idleTicks == old(idleTicks) + samples * (numCores - RunningCores(coreVector))
      ensures activeTicks + idleTicks == old(activeTicks + idleTicks) + samples * numCores
      ensures rr == samples * quantumCycles
    {
      rr := 0;
      var n := 0;
      var running := RunningCores(coreVector);
      while n < samples
        invariant 0 <= n <= samples
        invariant activeTicks == old(activeTicks) + n * running
        invariant idleTicks == old(idleTicks) + n * (numCores - running)
        invariant rr == n * quantumCycles
      {
        CountCoreTicks();
        rr := rr + quantumCycles;
        Distribute(n, running);
        Distribute(n, numCores - running);
        Distribute(n, quantumCycles);
        n := n + 1;
      }
      SplitProduct(samples, running, numCores - running);
    }
  }

  /** The process side of a round-robin dispatch: it is assigned to the
      core, marked running, stamped with its first start time, and runs
      min(quantum, remaining) instructions. */
  method RunOnCore(p: Process, cpuIndex: int, quantumCycles: int, now: int)
    modifies p`coreAssigned, p`isRunning, p`isWaiting, p`startTime, p`instructionsDone
    ensures p.instructionsDone == AfterQuantum(old(p.instructionsDone), p.instructionsTotal, quantumCycles)
    ensures p.coreAssigned == cpuIndex && p.isRunning && !p.isWaiting
    ensures p.startTime == (if old(p.startTime) == 0 then now else old(p.startTime))
  {
    p.SetCoreAssigned(cpuIndex);
    p.SetRunning(true);
    p.SetWaiting(false);
    var instructions := p.instructionsTotal;
    var executedInstructions := p.instructionsDone;
    var quantum := QuantumFor(quantumCycles, instructions, executedInstructions);
    if p.startTime == 0 {
      p.startTime := now;
    }
    ExecuteInstructions(p, executedInstructions, quantum);
  }

  /** A process the FCFS loop has completed on core cpuIndex. */
  predicate Completed(p: Process, cpuIndex: int)
    reads p
  {
    p.isDone && !p.isRunning && p.coreAssigned == cpuIndex
    && (p.instructionsTotal > 0 ==> p.instructionsDone == p.instructionsTotal)
  }

  lemma Distribute(n: int, a: int)
    ensures (n + 1) * a == n * a + a
  {
  }

  lemma SplitProduct(n: int, a: int, b: int)
    ensures n * a + n * b == n * (a + b)
  {
  }

  lemma SnocPrefixOf(s: seq<Process>, k: int)
    requires 0 <= k < |s|
    ensures s[..k + 1] == s[..k] + [s[k]] && s[k..][1..] == s[k + 1..]
  {
  }

}
