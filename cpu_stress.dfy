/**
 * The CPU burner: its argument handling, the affinity of each worker, the
 * worker's polling of the shared stop flag, the console control handler and
 * the order in which `main` sleeps, raises the flag and collects the workers.
 */
module CpuStress {

  import opened Wrappers
  import opened CRuntime

  const ExitSuccess: int := 0
  const ExitFailure: int := 1

  /** Console control events delivered to the handler. */
  const CtrlCEvent: int := 0
  const CtrlBreakEvent: int := 1
  const CtrlCloseEvent: int := 2
  const CtrlShutdownEvent: int := 6

  /** The events on which the handler raises the stop flag and claims the event. */
  const StopEvents: set<int> := {CtrlCEvent, CtrlBreakEvent, CtrlCloseEvent, CtrlShutdownEvent}

  /** Sleep's argument that means "never wake up". */
  const Infinite: int := 0xFFFF_FFFF

  /** An unsigned 32-bit Windows DWORD. */
  type DWord = x: int | 0 <= x < 0x1_0000_0000

  /** The conversion `(int)` of a DWORD: values past INT_MAX wrap to negative ints. */
  function Int32Of(x: DWord): (r: int)
    ensures IntMin <= r <= IntMax
    ensures r % 0x1_0000_0000 == x
  {
    if x <= IntMax then x else x - 0x1_0000_0000
  }

  /** What `main` settles on before starting any thread. */
  datatype Settings = Settings(duration: int, numCpus: int, numThreads: int)

  datatype ArgError = MissingDuration | InvalidDuration(value: int)

  /**
   * Argument validation and thread-count clamping: `argv[1]` is the duration in
   * seconds, the optional `argv[2]` the number of threads; `processors` is the
   * processor count the system reports.
   */
  method ParseArguments(argv: seq<string>, processors: DWord) returns (r: Result<Settings, ArgError>)
    ensures |argv| < 2 <==> r == Err(MissingDuration)
    ensures |argv| >= 2 ==> (r.Err? <==> Atoi(argv[1]) <= 0)
    ensures |argv| >= 2 && r.Err? ==> r.error == InvalidDuration(Atoi(argv[1]))
    ensures r.Ok? ==> r.value.duration == Atoi(argv[1]) && r.value.duration > 0
    ensures r.Ok? ==> r.value.numCpus >= 1
    ensures r.Ok? && Int32Of(processors) >= 1 ==> r.value.numCpus == Int32Of(processors)
    ensures r.Ok? && Int32Of(processors) < 1 ==> r.value.numCpus == 1
    ensures r.Ok? ==> 1 <= r.value.numThreads <= r.value.numCpus
    ensures r.Ok? && |argv| < 3 ==> r.value.numThreads == r.value.numCpus
    ensures r.Ok? && |argv| >= 3 && 1 <= Atoi(argv[2]) <= r.value.numCpus ==> r.value.numThreads == Atoi(argv[2])
    ensures r.Ok? && |argv| >= 3 && Atoi(argv[2]) <= 0 ==> r.value.numThreads == 1
    ensures r.Ok? && |argv| >= 3 && Atoi(argv[2]) > r.value.numCpus ==> r.value.numThreads == r.value.numCpus
  {
    if |argv| < 2 {
      return Err(MissingDuration);
    }
    var duration := Atoi(argv[1]);
    if duration <= 0 {
      return Err(InvalidDuration(duration));
    }
    var numCpus := Int32Of(processors);
    if numCpus < 1 {
      numCpus := 1;
    }
    var numThreads := if |argv| >= 3 then Atoi(argv[2]) else numCpus;
    if numThreads <= 0 {
      numThreads := 1;
    }
    if numThreads > numCpus {
      numThreads := numCpus;
    }
    r := Ok(Settings(duration, numCpus, numThreads));
  }

  function Pow2(n: nat): (r: nat)
    ensures r >= 1
  {
    if n == 0 then 1 else 2 * Pow2(n - 1)
  }

  /** Bit `j` of a mask. */
  predicate BitSet(mask: nat, j: nat) {
    if j == 0 then mask % 2 == 1 else BitSet(mask / 2, j - 1)
  }

  lemma {:induction false} NoBitOfZero(j: nat)
    ensures !BitSet(0, j)
  {
    if j > 0 {
      NoBitOfZero(j - 1);
    }
  }

  /** The mask `1 << i` has bit `i` set and no other. */
  lemma {:induction false} MaskSelectsOneCpu(i: nat, j: nat)
    ensures BitSet(Pow2(i), j) <==> i == j
  {
    if i == 0 {
      if j > 0 {
        NoBitOfZero(j - 1);
      }
    } else if j > 0 {
      assert Pow2(i) / 2 == Pow2(i - 1);
      MaskSelectsOneCpu(i - 1, j - 1);
    }
  }

  /** A started worker: the index it was given and the affinity mask it requests. */
  datatype Worker = Worker(cpuIndex: int, affinityMask: nat)

  /**
   * One worker thread. It requests the affinity mask of its own CPU, then
   * burns until a check of the stop flag reads nonzero; `flagReads` are the
   * values its successive checks read. `rounds` counts the burn rounds it
   * completed; `exited` is false when the reads ran out with the flag still clear.
   */
  method WorkerThread(cpuIndex: nat, flagReads: seq<int>) returns (mask: nat, rounds: nat, exited: bool)
    ensures forall j: nat :: BitSet(mask, j) <==> j == cpuIndex
    ensures rounds <= |flagReads|
    ensures forall k :: 0 <= k < rounds ==> flagReads[k] == 0
    ensures exited <==> rounds < |flagReads|
    ensures exited ==> flagReads[rounds] != 0
  {
    mask := Pow2(cpuIndex);
    forall j: nat ensures BitSet(mask, j) <==> j == cpuIndex {
      MaskSelectsOneCpu(cpuIndex, j);
    }
    rounds := 0;
    exited := false;
    while !exited && rounds < |flagReads|
      invariant rounds <= |flagReads|
      invariant forall k :: 0 <= k < rounds ==> flagReads[k] == 0
      invariant exited ==> rounds < |flagReads| && flagReads[rounds] != 0
    {
      if flagReads[rounds] != 0 {
        exited := true;
      } else {
        rounds := rounds + 1;
      }
    }
  }

  /** The total length, in milliseconds, of a sequence of Sleep calls. */
  function TotalMillis(xs: seq<nat>): nat {
    if xs == [] then 0 else xs[0] + TotalMillis(xs[1..])
  }

  /** The argument `main` passes to Sleep as written: a DWORD product, which wraps past 2^32 - 1. */
  function SleepMillisAsWritten(duration: int): (ms: DWord)
    requires 0 < duration <= IntMax
    ensures (duration * 1000 - ms) % 0x1_0000_0000 == 0
    ensures ms <= duration * 1000
    ensures ms == duration * 1000 <==> duration <= 4_294_967
    ensures ms != Infinite
  {
    var product := duration * 1000;
    var wrapped := product % 0x1_0000_0000;
    assert product == 2 * (duration * 500);
    assert wrapped % 2 == 0 by {
      assert product == (product / 0x1_0000_0000) * 0x1_0000_0000 + wrapped;
      assert (product / 0x1_0000_0000) * 0x1_0000_0000 == 2 * ((product / 0x1_0000_0000) * 0x8000_0000);
    }
    wrapped
  }

  /** Durations up to 4294967 seconds are slept in full; one second more sleeps for 704 milliseconds. */
  lemma SleepWrapsForLongDurations(duration: int)
    requires 0 < duration <= IntMax
    ensures duration <= 4_294_967 ==> SleepMillisAsWritten(duration) == duration * 1000
    ensures duration == 4_294_968 ==> SleepMillisAsWritten(duration) == 704
  {
  }

  /** A sleep of any length split into Sleep calls, each finite and within a DWORD. */
  function SleepChunks(ms: nat): (chunks: seq<nat>)
    ensures TotalMillis(chunks) == ms
    ensures forall i :: 0 <= i < |chunks| ==> 0 < chunks[i] < Infinite
    decreases ms
  {
    if ms == 0 then []
    else if ms < Infinite then [ms]
    else [Infinite - 1] + SleepChunks(ms - (Infinite - 1))
  }

  /** The handle-table entry for thread `i`. */
  function WorkerSlot(i: nat, spawnFailures: set<int>): Option<Worker> {
    if i in spawnFailures then None else Some(Worker(i, Pow2(i)))
  }

  /** The handle table `main` fills: one worker per index, absent where the thread failed to start. */
  method StartWorkers(numThreads: nat, spawnFailures: set<int>) returns (threads: array<Option<Worker>>)
    ensures fresh(threads) && threads.Length == numThreads
    ensures forall i :: 0 <= i < numThreads ==>
      threads[i] == WorkerSlot(i, spawnFailures)
  {
    threads := new Option<Worker>[numThreads];
    for i := 0 to numThreads
      invariant forall j :: 0 <= j < i ==> threads[j] == WorkerSlot(j, spawnFailures)
    {
      threads[i] := WorkerSlot(i, spawnFailures);
    }
  }

  /** The burner process: its shared stop flag and `main`. */
  class CpuStressProcess {
    /** `g_stop_flag`: 0 until a stop is requested, then 1 for good. */
    var stopFlag: int

    ghost predicate Valid()
      reads this
    {
      stopFlag == 0 || stopFlag == 1
    }

    constructor ()
      ensures Valid() && stopFlag == 0
    {
      stopFlag := 0;
    }

    /** Raises the stop flag and claims the event for the four stop events; declines every other event. */
    method ConsoleCtrlHandler(ctrlType: DWord) returns (handled: bool)
      requires Valid()
      modifies this
      ensures Valid()
      ensures handled <==> ctrlType in StopEvents
      ensures handled ==> stopFlag == 1
      ensures !handled ==> stopFlag == old(stopFlag)
    {
      if ctrlType == CtrlCEvent || ctrlType == CtrlBreakEvent || ctrlType == CtrlCloseEvent || ctrlType == CtrlShutdownEvent {
        stopFlag := 1;
        return true;
      }
      return false;
    }

    /**
     * `main`: validate the arguments, allocate the handle table, start one
     * worker per thread (those in `spawnFailures` fail to start), sleep for
     * the duration, then raise the stop flag for the workers to see.
     */
    method Run(argv: seq<string>, processors: DWord, allocOk: bool, spawnFailures: set<int>)
      returns (status: int, settings: Result<Settings, ArgError>, threads: array<Option<Worker>>, sleeps: seq<nat>)
      requires Valid()
      modifies this
      ensures Valid() && fresh(threads)
      ensures old(stopFlag) == 1 ==> stopFlag == 1
      ensures |argv| < 2 ==> settings == Err(MissingDuration)
      ensures |argv| >= 2 ==> (settings.Err? <==> Atoi(argv[1]) <= 0)
      ensures settings.Ok? ==> settings.value.duration == Atoi(argv[1]) && settings.value.duration > 0
      ensures settings.Ok? ==> settings.value.numCpus == (if Int32Of(processors) >= 1 then Int32Of(processors) else 1)
      ensures settings.Ok? ==> 1 <= settings.value.numThreads <= settings.value.numCpus
      ensures settings.Ok? && |argv| < 3 ==> settings.value.numThreads == settings.value.numCpus
      ensures settings.Ok? && |argv| >= 3 && 1 <= Atoi(argv[2]) <= settings.value.numCpus ==>
        settings.value.numThreads == Atoi(argv[2])
      ensures settings.Ok? && |argv| >= 3 && Atoi(argv[2]) <= 0 ==> settings.value.numThreads == 1
      ensures settings.Ok? && |argv| >= 3 && Atoi(argv[2]) > settings.value.numCpus ==>
        settings.value.numThreads == settings.value.numCpus
      ensures settings.Err? || !allocOk ==>
        status == ExitFailure && threads.Length == 0 && sleeps == [] && stopFlag == old(stopFlag)
      ensures settings.Ok? && allocOk ==> status == ExitSuccess && stopFlag == 1
      ensures settings.Ok? && allocOk ==> TotalMillis(sleeps) == settings.value.duration * 1000
      ensures settings.Ok? && allocOk ==> threads.Length == settings.value.numThreads
      ensures settings.Ok? && allocOk ==> forall i :: 0 <= i < threads.Length ==>
        threads[i] == WorkerSlot(i, spawnFailures)
    {
      settings := ParseArguments(argv, processors);
      sleeps := [];
      if settings.Err? || !allocOk {
        return ExitFailure, settings, new Option<Worker>[0], [];
      }
      threads := StartWorkers(settings.value.numThreads, spawnFailures);
      sleeps := SleepChunks(settings.value.duration * 1000);
      stopFlag := 1;
      status := ExitSuccess;
    }
  }
}
