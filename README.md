# StressLab core: a Dafny model

This project models the core of StressLab, a GPU and CPU stress tester. The
GPU side is `gpu_stressor.py` and the CPU side is the native burner
`cpu_stress.c`. The model covers:

- **Run configuration**: the closed table of stress profiles (`leve`, `medio`,
  `pesado`). A profile name is resolved case-insensitively, and an unknown name
  falls back to `medio`. The requested compute-unit count is clamped. The model
  also gives the burst size (`units * 65536 * factor`) and the benchmark's
  floating-point operation count (`work_items * iterations * 4`).
- **Telemetry probe parsing**: the first line of the diagnostic tool's output,
  stripped and read as Python's `int()` reads it. Any failure gives an absent
  reading.
- **The `GPUStressor` control state**: the `running` flag, the chosen
  `profile` and the `history`, as a class whose methods update them.
  - `start` does nothing while a run is active.
  - `stop` clears the flag.
  - The control loop, pass by pass:
    - the stop request is checked first;
    - then the time limit, only for a positive duration;
    - then the temperature limit, only with a limit set and a reading present;
    - then one burst runs and exactly one sample is appended.
  - When the loop exits, it resets `running`.
  - The loop runs sequentially over a trace of what each pass observes: stop
    requests, clock readings, probe readings and whether the burst succeeded.
- **The run summary**: min, max and mean of each telemetry field over the
  samples where that field is present, and the time of the last sample.
- **The CPU burner's `main`**:
  - duration validation through C's `atoi`;
  - clamping the thread count into `[1, num_cpus]`;
  - one worker per thread, each asking for the affinity mask of its own CPU;
  - the console control handler;
  - the stop flag that the handler and `main` raise and the workers poll.

Modules: `Wrappers` (Option, Result), `Text` (decimal spellings), `StressProfiles`,
`Telemetry`, `SampleSummary`, `GpuStress`, `CRuntime` (atoi), `CpuStress`.

## Model

| member | source | states |
|---|---|---|
| `StressProfiles.PresetsPositive` | Trabalho-final-SO/estressador_final/gpu_stressor.py:36-50 | every profile in the table has positive iterations and a positive work-item factor |
| `StressProfiles.Lower` | Trabalho-final-SO/estressador_final/gpu_stressor.py:157 | lower-casing keeps the length and lower-cases each character in place |
| `StressProfiles.ResolveProfileName` | Trabalho-final-SO/estressador_final/gpu_stressor.py:157-159 | the recorded profile is always a table key: the lower-cased name when the table has it, `medio` otherwise |
| `StressProfiles.PresetOf` | Trabalho-final-SO/estressador_final/gpu_stressor.py:183 | the loop's lookup always gives one of the table's presets, with positive iterations and factor: the named one, or (200000, 1) for a name the table lacks |
| `StressProfiles.ResolveIgnoresCase` | Trabalho-final-SO/estressador_final/gpu_stressor.py:157-159 | two names that differ only in letter case resolve to the same profile |
| `StressProfiles.ResolveAnyCaseOfKnownName` | Trabalho-final-SO/estressador_final/gpu_stressor.py:240-244 | any spelling of a table name, in any case, selects that profile |
| `StressProfiles.UnknownNameGetsDefault` | Trabalho-final-SO/estressador_final/gpu_stressor.py:157-159 | a name that matches no table entry in any case resolves to `medio` and gets its parameters (200000 iterations, factor 1) |
| `StressProfiles.ResolveUnits` | Trabalho-final-SO/estressador_final/gpu_stressor.py:152-155 | the unit count is at least 1 and at most the device's count; a request in range is kept; a missing, non-positive or too-large request gives the device's count (at least 1) |
| `StressProfiles.BurstSizePositive` | Trabalho-final-SO/estressador_final/gpu_stressor.py:187 | a burst over at least one unit is a positive multiple of 65536 work items |
| `StressProfiles.HeavyDoublesBurst` | Trabalho-final-SO/estressador_final/gpu_stressor.py:36-50 | for the same unit count, `pesado` dispatches exactly twice the work items of `leve` or `medio` |
| `StressProfiles.PlanBenchmark` | Trabalho-final-SO/estressador_final/gpu_stressor.py:240-273 | the benchmark runs the profile the name resolves to, uses that profile's iterations and the clamped unit count, and counts `work_items * iterations * 4` operations |
| `StressProfiles.BenchmarkPlanPositive` | Trabalho-final-SO/estressador_final/gpu_stressor.py:248-273 | for any request, the benchmark dispatches at least 65536 work items and counts a positive number of operations |
| `Telemetry.FirstLine` | Trabalho-final-SO/estressador_final/gpu_stressor.py:91 | empty output has no first line; otherwise the line is the prefix before the first line boundary, and it holds no boundary |
| `Telemetry.Strip` | Trabalho-final-SO/estressador_final/gpu_stressor.py:91 | the stripped text neither starts nor ends with white space, uses only characters of the input, and is empty only when the input is all white space |
| `Telemetry.StripKeepsInfix` | Trabalho-final-SO/estressador_final/gpu_stressor.py:91 | the stripped text is one contiguous stretch of the input, and everything before and after it is white space |
| `Telemetry.StripPadding` | Trabalho-final-SO/estressador_final/gpu_stressor.py:91 | spaces and tabs around a word are removed and the word is left intact |
| `Telemetry.ParseInt` | Trabalho-final-SO/estressador_final/gpu_stressor.py:92-94 | text containing no digit never parses; a parse succeeds only when every character is a digit, an underscore with a digit on each side, or a leading sign (so `-_1` and `1__2` fail too), so text such as `12abc` or `1.5` fails; a string of digits, with or without a sign, reads as its decimal value, leading zeros included (`045` is 45) |
| `Telemetry.ProbeReading` | Trabalho-final-SO/estressador_final/gpu_stressor.py:79-94 | a tool that fails, and empty output, both give an absent reading, never an error |
| `Telemetry.ParseIntDecimal` | Trabalho-final-SO/estressador_final/gpu_stressor.py:92 | `int()` reads back the decimal spelling of every integer |
| `Telemetry.NoDigitsIsAbsent` | Trabalho-final-SO/estressador_final/gpu_stressor.py:109-112 | output without digits (such as `[N/A]`) is an absent reading |
| `Telemetry.ProbeReadsValue` | Trabalho-final-SO/estressador_final/gpu_stressor.py:91-92 | output whose first line is a value, padded with spaces or tabs, and either alone or followed by a line break and any further lines, reads as exactly that value |
| `SampleSummary.Present` | Trabalho-final-SO/estressador_final/gpu_stressor.py:289-290 | the filtered list holds the present readings with their multiplicities (each value as often as it occurs present in the column), and is empty when none is present |
| `SampleSummary.Min` | Trabalho-final-SO/estressador_final/gpu_stressor.py:296 | the minimum is one of the values and no value is below it |
| `SampleSummary.Max` | Trabalho-final-SO/estressador_final/gpu_stressor.py:297 | the maximum is one of the values and no value is above it |
| `SampleSummary.SumBetween` | Trabalho-final-SO/estressador_final/gpu_stressor.py:298 | n values in [lo, hi] sum to between n*lo and n*hi |
| `SampleSummary.MeanBetween` | Trabalho-final-SO/estressador_final/gpu_stressor.py:298 | a mean of values with such a sum lies in [lo, hi] |
| `SampleSummary.StatsOf` | Trabalho-final-SO/estressador_final/gpu_stressor.py:292-299 | statistics are absent exactly for an empty list; otherwise min and max are values of the list, bound every value, and avg is the sum of the values divided by their count, lying between min and max |
| `SampleSummary.Summarize` | Trabalho-final-SO/estressador_final/gpu_stressor.py:284-305 | an empty history gives no summary; otherwise the duration is the last sample's time |
| `SampleSummary.PresentColumnTotals` | Trabalho-final-SO/estressador_final/gpu_stressor.py:289-290 | the present readings of a field sum to the field's total over the history and are as many as the samples that carry the field |
| `SampleSummary.AverageIsMeanOfReadings` | Trabalho-final-SO/estressador_final/gpu_stressor.py:289-299 | a field's reported average is the total of its readings divided by the number of samples that carried it; absent readings count towards neither |
| `SampleSummary.FieldAbsentExactly` | Trabalho-final-SO/estressador_final/gpu_stressor.py:289-294 | a field's statistics are absent exactly when no sample carries that field, regardless of the other field |
| `SampleSummary.ReadingWithinStats` | Trabalho-final-SO/estressador_final/gpu_stressor.py:292-299 | every present reading lies between its field's min and max, and the mean does too |
| `SampleSummary.StatsAreReadings` | Trabalho-final-SO/estressador_final/gpu_stressor.py:296-297 | a field's min and max are readings that some sample actually carried |
| `GpuStress.Verdict` | Trabalho-final-SO/estressador_final/gpu_stressor.py:197-215 | a pass completes a burst exactly when no stop, time limit, thermal limit or burst failure ends it; a pass is reported as stopped exactly when a stop was requested, and the stop check comes first, then time, then temperature, all before the burst; a duration of 0 or less never stops the loop; an absent reading or unset limit never trips the thermal stop |
| `GpuStress.SampleOf` | Trabalho-final-SO/estressador_final/gpu_stressor.py:217-225 | a sample keeps the probe's readings as returned (absent stays absent) and its time is measured from the run's start |
| `GpuStress.LoopDispatch` | Trabalho-final-SO/estressador_final/gpu_stressor.py:183-188 | the loop's burst over at least one unit is a positive multiple of 65536 work items with a positive iteration count |
| `GpuStress.LoopBurstMatchesBenchmark` | Trabalho-final-SO/estressador_final/gpu_stressor.py:183-187 | a run launched by `start` dispatches bursts of exactly the size and iteration count the benchmark uses for the same request |
| `GpuStress.GPUStressor.constructor` | Trabalho-final-SO/estressador_final/gpu_stressor.py:130-133 | a new stressor is idle, has profile `medio` and an empty history |
| `GpuStress.GPUStressor.Start` | Trabalho-final-SO/estressador_final/gpu_stressor.py:136-169 | while running it launches nothing and leaves profile and history alone; otherwise it sets `running`, records the resolved profile, leaves the history, and hands the loop the clamped units and resolved profile |
| `GpuStress.GPUStressor.Stop` | Trabalho-final-SO/estressador_final/gpu_stressor.py:171-173 | clears `running` and changes nothing else |
| `GpuStress.GPUStressor.StressLoop` | Trabalho-final-SO/estressador_final/gpu_stressor.py:175-231 | history is cleared; sample i is recorded from pass i, and only when that pass completed its burst; no sample is recorded at or after a pass that stops; the exit reason is that pass's verdict; `running` is false exactly when the loop has exited, including after a failed setup; every burst dispatched is the configuration's burst (line 187), one per recorded sample plus one when the loop ends on a failed burst, and none when setup fails |
| `GpuStress.GPUStressor.StressLoopAsWritten` | Trabalho-final-SO/estressador_final/gpu_stressor.py:190-196 | as the loop above, except that a failed buffer allocation leaves `running` true and the history untouched, with no burst dispatched |
| `GpuStress.GPUStressor.Passes` | Trabalho-final-SO/estressador_final/gpu_stressor.py:196-231 | the `while self.running` loop and its `finally`: samples only for completed bursts, in pass order; each dispatch of lines 208-214 is the configuration's burst, one per sample plus the failed one if any; `running` is reset on exit |
| `GpuStress.StuckAfterSetupFailure` | Trabalho-final-SO/estressador_final/gpu_stressor.py:190-196 | with the allocation as written, a failed allocation leaves the stressor running and the next `start` is ignored; only after `stop` clears the flag does `start` launch a new run |
| `GpuStress.RestartAfterSetupFailure` | Trabalho-final-SO/estressador_final/gpu_stressor.py:149-150 | with the allocation protected, the stressor can start a new run after the same failure |
| `GpuStress.ThermalLimitBeforeFirstBurst` | Trabalho-final-SO/estressador_final/gpu_stressor.py:202-206 | when the first reading already meets the limit, the run stops at that check with no burst dispatched, an empty history and `running` false |
| `GpuStress.SecondStartIsIgnored` | Trabalho-final-SO/estressador_final/gpu_stressor.py:149-150 | a second `start` during a run launches nothing, and the first run's profile and samples survive it |
| `CRuntime.Atoi` | Trabalho-final-SO/estressador_final/cpu_stress.c:59 | the result is always an `int` |
| `CRuntime.AtoiReadsLeadingNumber` | Trabalho-final-SO/estressador_final/cpu_stress.c:59 | atoi reads back the decimal spelling of any `int`, whatever non-digit text follows |
| `CRuntime.AtoiWithoutDigits` | Trabalho-final-SO/estressador_final/cpu_stress.c:59-63 | text with no digits reads as 0, so a non-numeric duration is rejected |
| `CRuntime.AtoiOfNonNumber` | Trabalho-final-SO/estressador_final/cpu_stress.c:59-63 | text that does not start with an optional sign followed by a digit reads as 0 even when digits come later (`x5`, `-x5`, `abc10`), so such a duration is rejected |
| `CRuntime.AtoiSkipsSpace` | Trabalho-final-SO/estressador_final/cpu_stress.c:59 | leading white space is skipped: atoi reads any text behind it exactly as it reads the text alone |
| `CRuntime.AtoiOfDigits` | Trabalho-final-SO/estressador_final/cpu_stress.c:59 | a run of digits, leading zeros included, ended by a non-digit or the end of the text, reads as its value; a value past INT_MAX reads as INT_MAX |
| `CRuntime.AtoiOfSignedDigits` | Trabalho-final-SO/estressador_final/cpu_stress.c:59 | a `+` or `-` followed by digits reads as the value, kept or negated; a value below INT_MIN reads as INT_MIN |
| `CRuntime.AtoiSaturates` | Trabalho-final-SO/estressador_final/cpu_stress.c:59 | the decimal spelling of any number outside the int range, such as 99999999999, reads as INT_MAX or INT_MIN |
| `CRuntime.AtoiSpacesExample` | Trabalho-final-SO/estressador_final/cpu_stress.c:59 | `"  42"` reads as 42 |
| `CRuntime.AtoiPlusZerosExample` | Trabalho-final-SO/estressador_final/cpu_stress.c:59 | `"+007"` reads as 7 |
| `CpuStress.Int32Of` | Trabalho-final-SO/estressador_final/cpu_stress.c:67 | the `(int)` cast of a DWORD is an `int` congruent to it modulo 2^32 |
| `CpuStress.ParseArguments` | Trabalho-final-SO/estressador_final/cpu_stress.c:54-72 | a missing duration, and a duration atoi maps to 0 or less, are the two errors; otherwise the duration is atoi's value, the CPU count is the reported count, or exactly 1 when that is below 1, and the thread count lies in `[1, num_cpus]`: it defaults to `num_cpus`, 0 or less becomes 1, too many becomes `num_cpus`, and a count in range is kept |
| `CpuStress.MaskSelectsOneCpu` | Trabalho-final-SO/estressador_final/cpu_stress.c:26 | the mask `1 << i` has bit i set and no other bit |
| `CpuStress.WorkerThread` | Trabalho-final-SO/estressador_final/cpu_stress.c:21-50 | the worker requests a mask with exactly its own bit set; it burns while its checks read 0 and leaves at the first check that reads nonzero |
| `CpuStress.StartWorkers` | Trabalho-final-SO/estressador_final/cpu_stress.c:83-103 | the handle table has one entry per thread; entry i is worker i with mask `1 << i`, or absent when that thread failed to start |
| `CpuStress.SleepMillisAsWritten` | Trabalho-final-SO/estressador_final/cpu_stress.c:105 | the sleep argument is congruent to the duration in milliseconds modulo 2^32 and never exceeds it; it equals it exactly for durations up to 4294967 s; it is never INFINITE, because the product is even |
| `CpuStress.SleepWrapsForLongDurations` | Trabalho-final-SO/estressador_final/cpu_stress.c:105 | durations up to 4294967 s are slept in full, but 4294968 s sleeps only 704 ms |
| `CpuStress.SleepChunks` | Trabalho-final-SO/estressador_final/cpu_stress.c:105 | any number of milliseconds splits into finite Sleep calls, each below INFINITE, that add up to it exactly |
| `CpuStress.CpuStressProcess.constructor` | Trabalho-final-SO/estressador_final/cpu_stress.c:6 | the stop flag starts at 0 |
| `CpuStress.CpuStressProcess.ConsoleCtrlHandler` | Trabalho-final-SO/estressador_final/cpu_stress.c:7-19 | it claims the event exactly for CTRL_C, CTRL_BREAK, CTRL_CLOSE and CTRL_SHUTDOWN and raises the flag for them; for any other event it declines and leaves the flag alone |
| `CpuStress.CpuStressProcess.Run` | Trabalho-final-SO/estressador_final/cpu_stress.c:52-120 | the settings are those of `argv`: the duration is atoi of `argv[1]`, the CPU count is the reported count (at least 1), and the thread count is `argv[2]` clamped into `[1, num_cpus]`, or `num_cpus` when `argv[2]` is absent. Argument errors and a failed allocation exit with failure, start no thread and leave the flag alone. Otherwise it starts one worker per thread, sleeps the full duration in milliseconds, raises the flag (which is never reset) and exits with success |

## Findings

| source | as written | input that shows it | evidently intended | confidence | as-written member | corrected member |
|---|---|---|---|---|---|---|
| Trabalho-final-SO/estressador_final/gpu_stressor.py:190-196 | the burst buffer is allocated before the `try`, so its `finally` does not cover an allocation failure; the exception ends the thread with `running` still true, and every `start` is ignored until `stop` clears the flag | a buffer allocation that raises (host or device out of memory) | every way out of the control loop resets `running`, so the stressor can be started again | medium: the code path is certain, the failure is rare; not executed | `GpuStress.StuckAfterSetupFailure` | `GpuStress.RestartAfterSetupFailure` |
| Trabalho-final-SO/estressador_final/cpu_stress.c:105 | `Sleep((DWORD)duration * 1000)` multiplies in unsigned 32-bit arithmetic, which wraps | duration 4294968 sleeps 704 ms instead of 4294968 s | sleep for the whole duration | high for the wrap-around, though only durations over 49.7 days reach it; not executed | `CpuStress.SleepWrapsForLongDurations` | `CpuStress.SleepChunks` |

`GpuStress.GPUStressor.StressLoop` and `CpuStress.CpuStressProcess.Run` use the
corrected behaviour. `StressLoopAsWritten` and `SleepMillisAsWritten` keep the
code as it is written.

## Notes on the code

- The docstring of `start` (gpu_stressor.py:145) says the duration must be
  greater than 0. The loop itself accepts 0 or less and then applies no time
  limit (line 199). The model follows line 199.
- The history is cleared by the control loop on its own thread (line 193), not
  by `start`. Until the loop reaches that line, the previous run's history is
  still in place.
- `benchmark_once` (lines 233-282) does not look at `running`. It can run while
  the control loop is dispatching bursts.
- The probe returns `int(line)` (line 92). The loop stores each reading as a
  float, with NaN for an absent one (lines 220-224). The model keeps the
  integer or the absence.
- The loop returns no reason for ending to its caller. It prints one only for
  the thermal stop (line 205) and for an exception (line 228), and the
  `finally` clears `running`. `GpuStress.GPUStressor.StressLoop`
  returns the reason so that the contracts can name it.

## Left out

- `stress_gui.py` as a whole: widgets, dialogs, plotting, its own monitor loop and the launching of the CPU burner as a child process.
- Device discovery (`get_gpu_specs`), context, queue and program build, buffer creation and kernel dispatch: OpenCL calls. The device's compute-unit count is a constructor parameter. A burst's outcome and the buffer allocation's outcome are inputs.
- Running the `nvidia-smi` process: the tool's output (or its failure) is an input to `Telemetry.ProbeReading`.
- The burn kernels' floating-point arithmetic, on the GPU and in the C worker, and the benchmark's `elapsed_s`/`gflops` division: floating point and device timing.
- Wall-clock time: each pass's clock readings are inputs, as reals.
- Threads: the loop runs sequentially. A `stop()` is seen at the top of a pass. The model does not capture the unsynchronised sharing of `running`: a `stop()` followed quickly by `start()` can leave two loops running at once.
- `GpuStress.GPUStressor.StressLoop`: a trace that ends before the loop exits describes a run still in progress, not a finished one.
- `GpuStress.GPUStressor.StressLoop`: requires `running`. `start` sets it just before launching the loop, and a `stop()` in between appears as the first pass's stop request.
- `Telemetry.ParseInt`: Unicode decimal digits outside ASCII, which Python's `int()` accepts, are treated as unparsable.
- `StressProfiles.Lower`: folds ASCII letters only. This is exact for profile resolution, because no other character lower-cases to one of the letters used in the three table names.
- `SampleSummary.StatsOf`: the mean is exact (a real), not a rounded double. NaN markers are replaced by absent values.
- `CRuntime.Atoi`: C11 leaves an out-of-range value undefined. The model returns INT_MAX or INT_MIN, as the Windows C runtime does.
- `CpuStress.WorkerThread`: the affinity mask is an unbounded number. `DWORD_PTR` is 64 bits wide, and a shift by 64 or more is undefined in C, but Windows reports at most 64 processors per processor group. A failed `SetThreadAffinityMask` is only logged, and is not modelled.
- `CpuStress.CpuStressProcess.Run`:
  - Messages printed to the console are not modelled.
  - A failed `SetConsoleCtrlHandler` registration only logs a warning, and is not modelled.
  - `WaitForMultipleObjects` (including its 64-handle limit), `CloseHandle` and `free` are not modelled. Workers leave at their next check of the flag, per `CpuStress.WorkerThread`.
  - A failed `calloc` and failed `CreateThread` calls are inputs.
