/**
 * profile_manager.py: the hardware profiles of PROFILE_HINTS and the choice of
 * one of them from the host's RAM, CPU architecture and operating system.
 *
 * PROFILE_HINTS is a module-level dict of dicts. `get_profile_config` hands out
 * the inner dict itself, not a copy, and sets its GPU layer count in place, so
 * the entries are modelled as shared `Dict` objects.
 */
module ProfileManager {
  import opened Wrappers
  import opened Strings
  import opened JsonData

  datatype Tier = Low | Medium | High

  function TierRank(t: Tier): nat {
    match t
    case Low => 0
    case Medium => 1
    case High => 2
  }

  /** The key of a tier in PROFILE_HINTS. */
  function TierName(t: Tier): string {
    match t
    case Low => "low"
    case Medium => "medium"
    case High => "high"
  }

  /** The facts `get_profile_config` reads from psutil and platform. */
  datatype Host = Host(ramGb: int, cpuArch: string, osName: string)

  /** The RAM heuristic: up to 8 GB low, up to 16 GB medium, above that high. */
  function TierFor(ramGb: int): Tier {
    if ramGb <= 8 then Low
    else if ramGb <= 16 then Medium
    else High
  }

  datatype ProfileHint = ProfileHint(nCtx: int, nBatch: int, nGpuLayers: int)

  /** The values PROFILE_HINTS holds for each tier when the module is loaded. */
  function InitialHint(t: Tier): ProfileHint {
    match t
    case Low => ProfileHint(256, 24, 0)
    case Medium => ProfileHint(512, 42, 8)
    case High => ProfileHint(1024, 64, 16)
  }

  /** A hint as the dict the source stores. */
  function HintItems(h: ProfileHint): map<string, Json> {
    map["n_ctx" := JInt(h.nCtx), "n_batch" := JInt(h.nBatch), "n_gpu_layers" := JInt(h.nGpuLayers)]
  }

  /** macOS on an ARM processor: `platform.system() == "Darwin"` and "arm" in the lower-cased machine name. */
  predicate IsAppleSilicon(cpuArch: string, osName: string) {
    osName == "Darwin" && Contains(Lower(cpuArch), "arm")
  }

  /** The Metal tuning step: what `get_profile_config` leaves in the selected entry. */
  function Tuned(items: map<string, Json>, cpuArch: string, osName: string): map<string, Json> {
    if IsAppleSilicon(cpuArch, osName) then items["n_gpu_layers" := JInt(1)] else items
  }

  /** PROFILE_HINTS: three distinct dict objects under fixed names. */
  class ProfileHints {
    const low: Dict
    const medium: Dict
    const high: Dict

    ghost predicate Valid()
      reads this
    {
      low != medium && low != high && medium != high
    }

    function Entry(t: Tier): Dict
      reads this
    {
      match t
      case Low => low
      case Medium => medium
      case High => high
    }

    /** `name in PROFILE_HINTS` and `PROFILE_HINTS[name]`. */
    function Lookup(name: string): (r: Option<Dict>)
      reads this
      ensures r.Some? <==> name == "low" || name == "medium" || name == "high"
      ensures forall t :: TierName(t) == name ==> r == Some(Entry(t))
    {
      if name == "low" then Some(low)
      else if name == "medium" then Some(medium)
      else if name == "high" then Some(high)
      else None
    }

    constructor ()
      ensures Valid()
      ensures fresh(low) && fresh(medium) && fresh(high)
      ensures forall t :: Entry(t).items == HintItems(InitialHint(t))
    {
      low := new Dict(HintItems(InitialHint(Low)));
      medium := new Dict(HintItems(InitialHint(Medium)));
      high := new Dict(HintItems(InitialHint(High)));
    }
  }

  /**
   * `get_profile_config` with the host facts as parameters: returns the table
   * entry of the RAM tier itself, after setting its GPU layers to 1 on an ARM Mac.
   * Only that entry changes; the other two are outside the modifies frame.
   */
  method GetProfileConfig(hints: ProfileHints, host: Host) returns (profile: Dict)
    requires hints.Valid()
    modifies hints.Entry(TierFor(host.ramGb))
    ensures profile == hints.Entry(TierFor(host.ramGb))
    ensures profile.items == Tuned(old(profile.items), host.cpuArch, host.osName)
  {
    if host.ramGb <= 8 {
      profile := hints.low;
    } else if host.ramGb <= 16 {
      profile := hints.medium;
    } else {
      profile := hints.high;
    }
    if host.osName == "Darwin" && Contains(Lower(host.cpuArch), "arm") {
      profile.items := profile.items["n_gpu_layers" := JInt(1)];
    }
  }

  /**
   * Because the entry is shared, an ARM Mac call leaves `n_gpu_layers == 1` in
   * PROFILE_HINTS, and a later call for the same tier returns it even on another
   * host.
   */
  method OverrideOutlivesCall(hints: ProfileHints, mac: Host, other: Host) returns (first: Dict, second: Dict)
    requires hints.Valid()
    requires IsAppleSilicon(mac.cpuArch, mac.osName)
    requires TierFor(mac.ramGb) == TierFor(other.ramGb)
    modifies hints.Entry(TierFor(mac.ramGb))
    ensures first == second == hints.Entry(TierFor(mac.ramGb))
    ensures "n_gpu_layers" in second.items && second.items["n_gpu_layers"] == JInt(1)
  {
    first := GetProfileConfig(hints, mac);
    second := GetProfileConfig(hints, other);
  }

  // ---------------------------------------------------------------------------
  // Properties of the tier choice

  /** The tier boundaries are `<= 8` and `<= 16` inclusive. */
  lemma TierBoundaries(ramGb: int)
    ensures TierFor(ramGb) == Low <==> ramGb <= 8
    ensures TierFor(ramGb) == Medium <==> 8 < ramGb <= 16
    ensures TierFor(ramGb) == High <==> ramGb > 16
  {
  }

  /** More RAM never selects a lower tier. */
  lemma TierMonotone(ram1: int, ram2: int)
    requires ram1 <= ram2
    ensures TierRank(TierFor(ram1)) <= TierRank(TierFor(ram2))
  {
  }

  /** Higher tiers have strictly larger context, batch and GPU layer counts. */
  lemma HintsIncreasing(t1: Tier, t2: Tier)
    requires TierRank(t1) < TierRank(t2)
    ensures InitialHint(t1).nCtx < InitialHint(t2).nCtx
    ensures InitialHint(t1).nBatch < InitialHint(t2).nBatch
    ensures InitialHint(t1).nGpuLayers < InitialHint(t2).nGpuLayers
  {
  }

  /** The Mac override sets exactly the GPU layer count and keeps every other key. */
  lemma OverrideWins(items: map<string, Json>, cpuArch: string, osName: string)
    requires IsAppleSilicon(cpuArch, osName)
    ensures var r := Tuned(items, cpuArch, osName);
      && "n_gpu_layers" in r && r["n_gpu_layers"] == JInt(1)
      && r.Keys == items.Keys + {"n_gpu_layers"}
      && forall k :: k in items && k != "n_gpu_layers" ==> r[k] == items[k]
  {
  }

  /** Off macOS, or on a CPU whose name lacks "arm", the entry is returned as it is. */
  lemma NoOverrideElsewhere(items: map<string, Json>, cpuArch: string, osName: string)
    requires osName != "Darwin" || !Contains(Lower(cpuArch), "arm")
    ensures Tuned(items, cpuArch, osName) == items
  {
  }

  /** The architecture test is case-insensitive and looks for a substring. */
  lemma AppleSiliconExamples()
    ensures IsAppleSilicon("arm64", "Darwin")
    ensures IsAppleSilicon("ARM64", "Darwin")
    ensures !IsAppleSilicon("arm64", "Linux")
    ensures !IsAppleSilicon("x86_64", "Darwin")
  {
    assert Lower("arm64")[0..3] == "arm";
    assert OccursAt(Lower("arm64"), "arm", 0);
    assert Lower("ARM64")[0..3] == "arm";
    assert OccursAt(Lower("ARM64"), "arm", 0);
    MissingCharNotContained(Lower("x86_64"), "arm", 'a');
  }

  /** A 16 GB Apple Silicon Mac gets the medium profile with one GPU layer. */
  lemma SixteenGbMac()
    ensures TierFor(16) == Medium
    ensures Tuned(HintItems(InitialHint(Medium)), "arm64", "Darwin") == HintItems(ProfileHint(512, 42, 1))
  {
    AppleSiliconExamples();
  }
}
