/**
 * The GPU stressor's control state: the `running` flag, the chosen profile and
 * the run history, updated by `start`, `stop` and the control loop. The loop
 * runs sequentially over a trace of what each pass observes (a stop request,
 * the clock, the probe, the outcome of the kernel burst).
 */
module GpuStress {

  import opened Wrappers
  import opened StressProfiles
  import opened SampleSummary

  /** The arguments `start` hands to the control loop. */
  datatype RunConfig = RunConfig(durationS: real, maxTemp: Option<int>, activeUnits: int, profile: string)

  /** What one pass of the control loop observes; the environment supplies it. */
  datatype Pass = Pass(
    stopRequested: bool,        // stop() was called before this pass tests `running`
    now: real,                  // clock at the duration check
    limitReading: Option<int>,  // probe reading for the thermal check, consulted only when a limit is set
    burstOk: bool,              // the kernel burst and its wait completed without raising
    doneAt: real,               // clock after the burst
    temp: Option<int>,          // probe readings recorded with the sample
    util: Option<int>)

  /** Why the control loop ended. */
  datatype LoopExit = Stopped | TimeLimit | ThermalLimit | BurstFailed | SetupFailed

  /** The size of the burst the loop dispatches on every pass. */
  datatype Dispatch = Dispatch(workItems: int, iterations: int)

  /** The time limit applies only to a positive duration. */
  predicate TimeUp(config: RunConfig, start: real, now: real) {
    config.durationS > 0.0 && now - start >= config.durationS
  }

  /** The thermal limit trips only when a limit is set and a reading is present and not below it. */
  predicate OverTemp(config: RunConfig, reading: Option<int>) {
    config.maxTemp.Some? && reading.Some? && reading.value >= config.maxTemp.value
  }

  /** How one pass ends: with an exit reason, or with a completed burst (None). */
  function Verdict(p: Pass, config: RunConfig, start: real): (v: Option<LoopExit>)
    ensures v.None? <==> !p.stopRequested && !TimeUp(config, start, p.now) && !OverTemp(config, p.limitReading) && p.burstOk
    ensures p.stopRequested <==> v == Some(Stopped)
    ensures v == Some(TimeLimit) ==> config.durationS > 0.0 && p.now - start >= config.durationS
    ensures config.durationS <= 0.0 ==> v != Some(TimeLimit)
    ensures v == Some(ThermalLimit) ==> !TimeUp(config, start, p.now)
    ensures v == Some(ThermalLimit) ==> config.maxTemp.Some? && p.limitReading.Some? && p.limitReading.value >= config.maxTemp.value
    ensures config.maxTemp.None? || p.limitReading.None? ==> v != Some(ThermalLimit)
    ensures v == Some(BurstFailed) ==> !TimeUp(config, start, p.now) && !OverTemp(config, p.limitReading)
    ensures v != Some(SetupFailed)
  {
    if p.stopRequested then Some(Stopped)
    else if TimeUp(config, start, p.now) then Some(TimeLimit)
    else if OverTemp(config, p.limitReading) then Some(ThermalLimit)
    else if !p.burstOk then Some(BurstFailed)
    else None
  }

  /** The sample a completed burst appends: elapsed time and the two readings as the probe returned them. */
  function SampleOf(p: Pass, start: real): (s: Sample)
    ensures s.temp == p.temp && s.util == p.util
    ensures s.t + start == p.doneAt
  {
    Sample(p.doneAt - start, p.temp, p.util)
  }

  /** The burst the loop dispatches for a configuration. */
  function LoopDispatch(config: RunConfig): (d: Dispatch)
    ensures config.activeUnits >= 1 ==> d.workItems >= WorkItemsPerCu && d.workItems % WorkItemsPerCu == 0
    ensures d.iterations > 0
  {
    var preset := PresetOf(config.profile);
    var size := BurstSize(config.activeUnits, preset.workItemsFactor);
    assert config.activeUnits >= 1 ==> size >= WorkItemsPerCu && size % WorkItemsPerCu == 0 by {
      if config.activeUnits >= 1 {
        BurstSizePositive(config.activeUnits, preset.workItemsFactor);
      }
    }
    Dispatch(size, preset.iterations)
  }

  class GPUStressor {
    /** The device's compute-unit count, discovered once at construction. */
    const computeUnits: int
    var running: bool
    var profile: string
    var history: seq<Sample>

    constructor (computeUnits: int)
      ensures this.computeUnits == computeUnits
      ensures !running && profile == DefaultProfile && history == []
    {
      this.computeUnits := computeUnits;
      running := false;
      profile := DefaultProfile;
      history := [];
    }

    /**
     * Starts a run unless one is active. Returns the configuration handed to
     * the control loop, or None when the call changed nothing.
     */
    method Start(durationS: real, maxTemp: Option<int>, activeUnits: Option<int>, profileName: string)
      returns (launched: Option<RunConfig>)
      modifies this
      ensures history == old(history)
      ensures old(running) ==> launched.None? && running && profile == old(profile)
      ensures !old(running) ==> running && profile == ResolveProfileName(profileName)
      ensures !old(running) ==> launched == Some(RunConfig(durationS, maxTemp, ResolveUnits(activeUnits, computeUnits), profile))
    {
      if running {
        return None;
      }
      var units := ResolveUnits(activeUnits, computeUnits);
      var resolved := ResolveProfileName(profileName);
      profile := resolved;
      running := true;
      launched := Some(RunConfig(durationS, maxTemp, units, resolved));
    }

    /** Asks the control loop to stop; the loop observes it at the top of its next pass. */
    method Stop()
      modifies this
      ensures !running
      ensures profile == old(profile) && history == old(history)
    {
      running := false;
    }

    /**
     * The control loop with its buffer allocation inside the protected region:
     * every way out of the loop leaves `running` false. When the trace runs out
     * before the loop exits, the run is still in progress (None).
     */
    method StressLoop(config: RunConfig, start: real, allocOk: bool, trace: seq<Pass>)
      returns (exit: Option<LoopExit>, bursts: seq<Dispatch>)
      requires running
      modifies this
      ensures profile == old(profile)
      ensures exit.Some? <==> !running
      ensures !allocOk ==> exit == Some(SetupFailed) && history == old(history) && bursts == []
      ensures forall i :: 0 <= i < |bursts| ==> bursts[i] == LoopDispatch(config)
      ensures allocOk ==> |bursts| == |history| + (if exit == Some(BurstFailed) then 1 else 0)
      ensures allocOk ==> |history| <= |trace|
      ensures allocOk ==> forall i :: 0 <= i < |history| ==>
        Verdict(trace[i], config, start).None? && history[i] == SampleOf(trace[i], start)
      ensures allocOk && exit.Some? ==> |history| < |trace| && exit == Verdict(trace[|history|], config, start)
      ensures allocOk && exit.None? ==> |history| == |trace|
      ensures allocOk ==> forall k :: 0 <= k < |trace| && Verdict(trace[k], config, start).Some? ==> |history| <= k
    {
      if !allocOk {
        running := false;
        return Some(SetupFailed), [];
      }
      history := [];
      exit, bursts := Passes(config, start, trace);
    }

    /**
     * The control loop as the source writes it: the buffer is allocated before
     * the protected region, so a failed allocation escapes the thread and leaves
     * `running` true.
     */
    method StressLoopAsWritten(config: RunConfig, start: real, allocOk: bool, trace: seq<Pass>)
      returns (exit: Option<LoopExit>, bursts: seq<Dispatch>)
      requires running
      modifies this
      ensures profile == old(profile)
      ensures !allocOk ==> exit == Some(SetupFailed) && running && history == old(history) && bursts == []
      ensures forall i :: 0 <= i < |bursts| ==> bursts[i] == LoopDispatch(config)
      ensures allocOk ==> |bursts| == |history| + (if exit == Some(BurstFailed) then 1 else 0)
      ensures allocOk ==> (exit.Some? <==> !running)
      ensures allocOk ==> |history| <= |trace|
      ensures allocOk ==> forall i :: 0 <= i < |history| ==>
        Verdict(trace[i], config, start).None? && history[i] == SampleOf(trace[i], start)
      ensures allocOk && exit.Some? ==> |history| < |trace| && exit == Verdict(trace[|history|], config, start)
      ensures allocOk && exit.None? ==> |history| == |trace|
      ensures allocOk ==> forall k :: 0 <= k < |trace| && Verdict(trace[k], config, start).Some? ==> |history| <= k
    {
      if !allocOk {
        return Some(SetupFailed), [];
      }
      history := [];
      exit, bursts := Passes(config, start, trace);
    }

    /**
     * The passes of the loop over a cleared history, ending with `running` reset
     * when the loop exits. `bursts` lists the kernel dispatches in order: one per
     * completed pass, and one more when the last dispatch failed.
     */
    method Passes(config: RunConfig, start: real, trace: seq<Pass>) returns (exit: Option<LoopExit>, bursts: seq<Dispatch>)
      requires running && history == []
      modifies this
      ensures profile == old(profile)
      ensures forall i :: 0 <= i < |bursts| ==> bursts[i] == LoopDispatch(config)
      ensures |bursts| == |history| + (if exit == Some(BurstFailed) then 1 else 0)
      ensures exit.Some? <==> !running
      ensures |history| <= |trace|
      ensures forall i :: 0 <= i < |history| ==>
        Verdict(trace[i], config, start).None? && history[i] == SampleOf(trace[i], start)
      ensures exit.Some? ==> |history| < |trace| && exit == Verdict(trace[|history|], config, start)
      ensures exit.None? ==> |history| == |trace|
      ensures forall k :: 0 <= k < |trace| && Verdict(trace[k], config, start).Some? ==> |history| <= k
    {
      var burst := LoopDispatch(config);
      var k := 0;
      exit, bursts := None, [];
      while k < |trace| && exit.None?
        invariant 0 <= k <= |trace|
        invariant profile == old(profile)
        invariant forall i :: 0 <= i < |bursts| ==> bursts[i] == burst
        invariant |bursts| == |history| + (if exit == Some(BurstFailed) then 1 else 0)
        invariant exit.None? ==> running && |history| == k
        invariant exit.Some? ==> k >= 1 && |history| == k - 1 && exit == Verdict(trace[k - 1], config, start)
        invariant forall i :: 0 <= i < |history| ==>
          Verdict(trace[i], config, start).None? && history[i] == SampleOf(trace[i], start)
        invariant forall j :: 0 <= j < k && Verdict(trace[j], config, start).Some? ==> |history| <= j
      {
        var p := trace[k];
        if p.stopRequested {
          running := false;
        }
        if !running {
          exit := Some(Stopped);
        } else if config.durationS > 0.0 && p.now - start >= config.durationS {
          exit := Some(TimeLimit);
        } else if config.maxTemp.Some? && p.limitReading.Some? && p.limitReading.value >= config.maxTemp.value {
          exit := Some(ThermalLimit);
        } else if !p.burstOk {
          bursts := bursts + [burst];
          exit := Some(BurstFailed);
        } else {
          bursts := bursts + [burst];
          history := history + [Sample(p.doneAt - start, p.temp, p.util)];
        }
        k := k + 1;
      }
      if exit.Some? {
        running := false;
      }
    }
  }

  /** A run launched by `start` dispatches bursts of exactly the size `benchmark_once` measures. */
  lemma LoopBurstMatchesBenchmark(durationS: real, maxTemp: Option<int>, activeUnits: Option<int>,
                                  profileName: string, computeUnits: int)
    ensures var config := RunConfig(durationS, maxTemp, ResolveUnits(activeUnits, computeUnits), ResolveProfileName(profileName));
      var plan := PlanBenchmark(profileName, activeUnits, computeUnits);
      LoopDispatch(config) == Dispatch(plan.workItems, plan.iterations)
  {
  }

  /**
   * With the allocation as written, a failed allocation leaves the stressor
   * running with no loop behind it: `start` is ignored until an explicit
   * `stop` clears the flag, after which a new run can be launched.
   */
  method StuckAfterSetupFailure(computeUnits: int) returns (running: bool, restarted: Option<RunConfig>, afterStop: Option<RunConfig>)
    ensures running && restarted.None?
    ensures afterStop.Some?
  {
    var s := new GPUStressor(computeUnits);
    var launched := s.Start(10.0, None, None, "medio");
    var exit, bursts := s.StressLoopAsWritten(launched.value, 0.0, false, []);
    restarted := s.Start(10.0, None, None, "medio");
    running := s.running;
    s.Stop();
    afterStop := s.Start(10.0, None, None, "medio");
  }

  /** With the allocation inside the protected region, the same failure leaves the stressor ready for a new run. */
  method RestartAfterSetupFailure(computeUnits: int) returns (running: bool, restarted: Option<RunConfig>)
    ensures running && restarted.Some?
  {
    var s := new GPUStressor(computeUnits);
    var launched := s.Start(10.0, None, None, "medio");
    var exit, bursts := s.StressLoop(launched.value, 0.0, false, []);
    restarted := s.Start(10.0, None, None, "medio");
    running := s.running;
  }

  /**
   * A run whose limit is met by the very first probe reading stops on that
   * check, before any burst, with an empty history and `running` false.
   */
  method ThermalLimitBeforeFirstBurst(computeUnits: int, limit: int, first: Pass, rest: seq<Pass>)
    returns (exit: Option<LoopExit>, history: seq<Sample>, running: bool, bursts: seq<Dispatch>)
    requires !first.stopRequested && first.limitReading == Some(limit)
    ensures exit == Some(ThermalLimit) && history == [] && !running && bursts == []
  {
    var s := new GPUStressor(computeUnits);
    var launched := s.Start(0.0, Some(limit), None, "pesado");
    assert ([first] + rest)[0] == first;
    exit, bursts := s.StressLoop(launched.value, first.now, true, [first] + rest);
    history, running := s.history, s.running;
  }

  /** `start` while a run is active changes neither the profile nor the history. */
  method SecondStartIsIgnored(computeUnits: int, first: Pass, firstProfile: string, secondProfile: string)
    returns (profile: string, history: seq<Sample>, launched: Option<RunConfig>)
    requires Verdict(first, RunConfig(0.0, None, ResolveUnits(None, computeUnits), ResolveProfileName(firstProfile)), 0.0).None?
    ensures launched.None? && profile == ResolveProfileName(firstProfile)
    ensures history == [SampleOf(first, 0.0)]
  {
    var s := new GPUStressor(computeUnits);
    var config := s.Start(0.0, None, None, firstProfile);
    var exit, bursts := s.StressLoop(config.value, 0.0, true, [first]);
    launched := s.Start(5.0, Some(80), Some(1), secondProfile);
    profile, history := s.profile, s.history;
  }
}
