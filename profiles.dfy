/**
 * Run configuration of the GPU stressor: the closed table of stress profiles,
 * how a requested profile name and compute-unit count are resolved, and the
 * sizes of one kernel burst and of one benchmark dispatch.
 */
module StressProfiles {

  import opened Wrappers

  /** Work items dispatched per compute unit before the profile's factor. */
  const WorkItemsPerCu: int := 65536

  /** Floating-point operations the burn kernel performs per inner iteration. */
  const FlopsPerIteration: int := 4

  /** The profile every unknown name falls back to. */
  const DefaultProfile: string := "medio"

  datatype Preset = Preset(iterations: int, workItemsFactor: int)

  /** The profile table, keyed by lower-case name. */
  const Profiles: map<string, Preset> := map[
    "leve" := Preset(50_000, 1),
    "medio" := Preset(200_000, 1),
    "pesado" := Preset(400_000, 2)
  ]

  /** Every preset has a positive iteration count and a positive work-item factor. */
  lemma PresetsPositive(name: string)
    requires name in Profiles
    ensures Profiles[name].iterations > 0 && Profiles[name].workItemsFactor > 0
  {
  }

  /** Lower-cases one ASCII letter and leaves every other character alone. */
  function LowerChar(c: char): (r: char)
    ensures 'A' <= c <= 'Z' ==> r as int == c as int + 32
    ensures !('A' <= c <= 'Z') ==> r == c
    ensures !('A' <= r <= 'Z')
  {
    if 'A' <= c <= 'Z' then (c as int + 32) as char else c
  }

  /** The lower-cased copy of a name, character by character. */
  function Lower(s: string): (r: string)
    ensures |r| == |s|
    ensures forall i :: 0 <= i < |s| ==> r[i] == LowerChar(s[i])
  {
    if s == [] then [] else [LowerChar(s[0])] + Lower(s[1..])
  }

  /** Two names that differ only in the case of their letters. */
  predicate SameIgnoringCase(a: string, b: string) {
    |a| == |b| && forall i :: 0 <= i < |a| ==> LowerChar(a[i]) == LowerChar(b[i])
  }

  /** The profile name a run records: the lower-cased name when the table has it, otherwise the default. */
  function ResolveProfileName(name: string): (r: string)
    ensures r in Profiles
    ensures Lower(name) in Profiles ==> r == Lower(name)
    ensures Lower(name) !in Profiles ==> r == DefaultProfile
  {
    var lowered := Lower(name);
    if lowered in Profiles then lowered else DefaultProfile
  }

  /** The preset for a name, falling back to the default profile's preset. */
  function PresetOf(name: string): (p: Preset)
    ensures p in Profiles.Values && p.iterations > 0 && p.workItemsFactor >= 1
    ensures name in Profiles ==> p == Profiles[name]
    ensures name !in Profiles ==> p == Preset(200_000, 1)
  {
    if name in Profiles then Profiles[name] else Profiles[DefaultProfile]
  }

  /** Resolution does not depend on the case of the letters in the name. */
  lemma ResolveIgnoresCase(a: string, b: string)
    requires SameIgnoringCase(a, b)
    ensures ResolveProfileName(a) == ResolveProfileName(b)
  {
    assert Lower(a) == Lower(b);
  }

  /** Any spelling of a table name, in any case, selects that profile. */
  lemma ResolveAnyCaseOfKnownName(name: string, known: string)
    requires known in Profiles && SameIgnoringCase(name, known)
    ensures ResolveProfileName(name) == known
  {
    assert Lower(known) == known;
    ResolveIgnoresCase(name, known);
  }

  /** A name outside the table, whatever its case, gets the default profile's parameters. */
  lemma UnknownNameGetsDefault(name: string)
    requires forall known :: known in Profiles ==> !SameIgnoringCase(name, known)
    ensures ResolveProfileName(name) == DefaultProfile
    ensures PresetOf(ResolveProfileName(name)) == Preset(200_000, 1)
  {
    var lowered := Lower(name);
    assert Lower(lowered) == lowered;
    assert SameIgnoringCase(name, lowered);
  }

  /** The larger of two counts, as Python's max() of two ints. */
  function Larger(a: int, b: int): (m: int)
    ensures m >= a && m >= b && (m == a || m == b)
  {
    if a >= b then a else b
  }

  /**
   * The number of compute units a run uses: an absent or non-positive request
   * asks for all of the device's units, and the answer is then kept between 1
   * and the device's count.
   */
  function ResolveUnits(requested: Option<int>, computeUnits: int): (r: int)
    ensures r >= 1
    ensures computeUnits >= 1 ==> r <= computeUnits
    ensures requested.Some? && 1 <= requested.value <= computeUnits ==> r == requested.value
    ensures requested.None? || requested.value <= 0 ==> r == Larger(1, computeUnits)
    ensures requested.Some? && requested.value > computeUnits ==> r == Larger(1, computeUnits)
  {
    var u := if requested.None? || requested.value <= 0 then computeUnits else requested.value;
    Larger(1, if u <= computeUnits then u else computeUnits)
  }

  /** Work items in one kernel burst of `units` compute units at a profile's factor. */
  function BurstSize(units: int, factor: int): int {
    units * WorkItemsPerCu * factor
  }

  /** A burst over at least one unit at a positive factor is a positive multiple of the per-unit count. */
  lemma BurstSizePositive(units: int, factor: int)
    requires units >= 1 && factor >= 1
    ensures BurstSize(units, factor) >= WorkItemsPerCu
    ensures BurstSize(units, factor) % WorkItemsPerCu == 0
  {
    assert BurstSize(units, factor) == (units * factor) * WorkItemsPerCu;
  }

  /** For the same unit count, the heavy profile dispatches twice the work items of the other two. */
  lemma HeavyDoublesBurst(units: int, other: string)
    requires other in Profiles && other != "pesado"
    ensures BurstSize(units, Profiles["pesado"].workItemsFactor)
         == 2 * BurstSize(units, Profiles[other].workItemsFactor)
  {
  }

  /** The sizes of one benchmark dispatch. */
  datatype BenchmarkPlan = BenchmarkPlan(profile: string, workItems: int, iterations: int, totalFlops: int)

  /** How `benchmark_once` sizes its single dispatch and counts its floating-point operations. */
  function PlanBenchmark(profileName: string, activeUnits: Option<int>, computeUnits: int): (b: BenchmarkPlan)
    ensures b.profile == ResolveProfileName(profileName)
    ensures b.profile in Profiles && b.iterations == Profiles[b.profile].iterations
    ensures b.workItems == BurstSize(ResolveUnits(activeUnits, computeUnits), Profiles[b.profile].workItemsFactor)
    ensures b.totalFlops == b.workItems * b.iterations * FlopsPerIteration
  {
    var profile := ResolveProfileName(profileName);
    var preset := Profiles[profile];
    var units := ResolveUnits(activeUnits, computeUnits);
    var workItems := BurstSize(units, preset.workItemsFactor);
    BenchmarkPlan(profile, workItems, preset.iterations, workItems * preset.iterations * FlopsPerIteration)
  }

  /** A benchmark always dispatches a positive number of work items and counts a positive number of operations. */
  lemma BenchmarkPlanPositive(profileName: string, activeUnits: Option<int>, computeUnits: int)
    ensures PlanBenchmark(profileName, activeUnits, computeUnits).workItems >= WorkItemsPerCu
    ensures PlanBenchmark(profileName, activeUnits, computeUnits).totalFlops > 0
  {
    var b := PlanBenchmark(profileName, activeUnits, computeUnits);
    BurstSizePositive(ResolveUnits(activeUnits, computeUnits), Profiles[b.profile].workItemsFactor);
    assert b.workItems * b.iterations > 0;
  }
}
