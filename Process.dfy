/** The mutable process record that the scheduler and the memory manager
    update (Process.cpp with headers/Process.h, extended with the size and
    page list that Process.cpp and MemoryManager.cpp use). */
module ProcessRecord {

  class Process {
    /** The name is fixed at construction; no setter changes it. */
    const processName: string
    var screenName: string
    var coreAssigned: int
    var isDone: bool
    var isRunning: bool
    var isWaiting: bool
    var instructionsDone: int
    var instructionsTotal: int
    var processSize: int
    /** Frame keys held in paged mode, in the order they were granted. */
    var pages: seq<int>
    /** Timestamps, as abstract clock readings; 0 means "not yet". */
    var startTime: int
    var endTime: int

    constructor (name: string)
      ensures processName == name && screenName == ""
      ensures coreAssigned == -1
      ensures !isDone && !isRunning && !isWaiting
      ensures instructionsDone == 0 && instructionsTotal == 0
      ensures processSize == 0 && pages == []
      ensures startTime == 0 && endTime == 0
    {
      processName := name;
      screenName := "";
      coreAssigned := -1;
      isDone, isRunning, isWaiting := false, false, false;
      instructionsDone, instructionsTotal := 0, 0;
      processSize := 0;
      pages := [];
      startTime, endTime := 0, 0;
    }

    // Each setter may change its own field only (its modifies frame), and
    // stores its argument as given: no clamping of the instruction counter.

    method SetInstructionsDone(instructions: int)
      modifies this`instructionsDone
      ensures instructionsDone == instructions
    {
      instructionsDone := instructions;
    }

    method SetCoreAssigned(core: int)
      modifies this`coreAssigned
      ensures coreAssigned == core
    {
      coreAssigned := core;
    }

    method SetProcessSize(size: int)
      modifies this`processSize
      ensures processSize == size
    {
      processSize := size;
    }

    method SetDone(done: bool)
      modifies this`isDone
      ensures isDone == done
    {
      isDone := done;
    }

    method SetScreenName(name: string)
      modifies this`screenName
      ensures screenName == name
    {
      screenName := name;
    }

    method SetRunning(running: bool)
      modifies this`isRunning
      ensures isRunning == running
    {
      isRunning := running;
    }

    method SetWaiting(waiting: bool)
      modifies this`isWaiting
      ensures isWaiting == waiting
    {
      isWaiting := waiting;
    }

    method SetInstructionsTotal(instructions: int)
      modifies this`instructionsTotal
      ensures instructionsTotal == instructions
    {
      instructionsTotal := instructions;
    }

    // Getters read one field each.

    function GetProcessName(): string { processName }
    function GetInstructionsDone(): int reads this { instructionsDone }
    function GetCoreAssigned(): int reads this { coreAssigned }
    function GetProcessSize(): int reads this { processSize }
    function GetDone(): bool reads this { isDone }
    function GetRunning(): bool reads this { isRunning }
    function GetWaiting(): bool reads this { isWaiting }
    function GetScreenName(): string reads this { screenName }
    function GetInstructionsTotal(): int reads this { instructionsTotal }
  }

  /** A setter followed by the matching getter returns the value set, and
      leaves every other field of the record as it was. */
  method SetThenGet(p: Process, done: int, total: int, size: int)
    modifies p
    ensures p.GetInstructionsDone() == done && p.GetInstructionsTotal() == total
    ensures p.GetProcessSize() == size
    ensures p.coreAssigned == old(p.coreAssigned) && p.pages == old(p.pages)
    ensures p.isDone == old(p.isDone) && p.isRunning == old(p.isRunning) && p.isWaiting == old(p.isWaiting)
    ensures p.screenName == old(p.screenName) && p.startTime == old(p.startTime) && p.endTime == old(p.endTime)
  {
    p.SetInstructionsDone(done);
    p.SetInstructionsTotal(total);
    p.SetProcessSize(size);
  }
}
