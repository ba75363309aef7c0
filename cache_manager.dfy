/**
 * cache_manager.py: a one-record store (the JSON file `.gitcommitai/cache.json`
 * at the repository root) and the fingerprint check built on it.
 *
 * The diff hash is an MD5 hex digest computed by `hash_diff_text`; here it is an
 * opaque string handed in by the caller.
 */
module CacheManager {
  import opened Wrappers
  import opened JsonData

  /** The four facts of `get_system_signature`. */
  datatype SystemSignature = SystemSignature(
    ramGb: int, cpuArch: string, platform: string, pythonVersion: string)

  /** The signature as the dict that is compared and stored. */
  function SignatureJson(sig: SystemSignature): Json {
    JObj(map[
      "ram_gb" := JInt(sig.ramGb),
      "cpu_arch" := JStr(sig.cpuArch),
      "platform" := JStr(sig.platform),
      "python_version" := JStr(sig.pythonVersion)
    ])
  }

  /** The record `update_cache` writes. */
  function FingerprintRecord(diffHash: string, sig: SystemSignature): map<string, Json> {
    map["last_diff_hash" := JStr(diffHash), "last_system_signature" := SignatureJson(sig)]
  }

  /**
   * The comparison of `is_profile_changed`: a key that is absent reads as
   * `None`, which differs from any digest and from any signature.
   */
  predicate ProfileChanged(record: map<string, Json>, diffHash: string, sig: SystemSignature) {
    Get(record, "last_diff_hash") != JStr(diffHash)
    || Get(record, "last_system_signature") != SignatureJson(sig)
  }

  class ProfileCache {
    /** The file's record; `None` while the file does not exist. */
    var stored: Option<map<string, Json>>

    /** A checkout with no cache file yet. */
    constructor ()
      ensures stored == None
    {
      stored := None;
    }

    /** What `load_cache` returns in the current state. */
    function Contents(): map<string, Json>
      reads this
    {
      if stored.Some? then stored.value else map[]
    }

    /** `load_cache`: the stored record, or `{}` when there is none. */
    method LoadCache() returns (data: map<string, Json>)
      ensures stored.None? ==> data == map[]
      ensures stored.Some? ==> data == stored.value
    {
      if stored.Some? {
        data := stored.value;
      } else {
        data := map[];
      }
    }

    /** `save_cache`: the whole record is replaced, nothing is merged. */
    method SaveCache(data: map<string, Json>)
      modifies this
      ensures stored == Some(data)
    {
      stored := Some(data);
    }

    /** `is_profile_changed`: reads the record and leaves it as it is. */
    method IsProfileChanged(diffHash: string, sig: SystemSignature) returns (changed: bool)
      ensures changed <==> ProfileChanged(Contents(), diffHash, sig)
    {
      var cache := LoadCache();
      var lastDiffHash := Get(cache, "last_diff_hash");
      var lastSignature := Get(cache, "last_system_signature");
      changed := lastDiffHash != JStr(diffHash) || lastSignature != SignatureJson(sig);
    }

    /** `update_cache`: overwrites the record with exactly the two fingerprint keys. */
    method UpdateCache(diffHash: string, sig: SystemSignature)
      modifies this
      ensures stored == Some(FingerprintRecord(diffHash, sig))
    {
      SaveCache(FingerprintRecord(diffHash, sig));
    }
  }

  /** What is saved is what is loaded next. */
  method SaveThenLoad(cache: ProfileCache, data: map<string, Json>) returns (loaded: map<string, Json>)
    modifies cache
    ensures loaded == data
  {
    cache.SaveCache(data);
    loaded := cache.LoadCache();
  }

  /** Right after `update_cache(h, s)`, `is_profile_changed(h', s')` is true exactly when the fingerprint differs. */
  method UpdateThenCheck(cache: ProfileCache, h: string, s: SystemSignature, h': string, s': SystemSignature)
    returns (changed: bool)
    modifies cache
    ensures changed <==> h' != h || s' != s
  {
    cache.UpdateCache(h, s);
    changed := cache.IsProfileChanged(h', s');
    RecordedFingerprint(h, s, h', s');
  }

  // ---------------------------------------------------------------------------
  // Properties of the fingerprint

  /** Different signatures give different dicts. */
  lemma SignatureJsonInjective(a: SystemSignature, b: SystemSignature)
    ensures SignatureJson(a) == SignatureJson(b) <==> a == b
  {
    if SignatureJson(a) == SignatureJson(b) {
      var ma, mb := SignatureJson(a).fields, SignatureJson(b).fields;
      assert ma["ram_gb"] == mb["ram_gb"];
      assert ma["cpu_arch"] == mb["cpu_arch"];
      assert ma["platform"] == mb["platform"];
      assert ma["python_version"] == mb["python_version"];
    }
  }

  /** After recording `(h, s)`, exactly the same fingerprint is reported unchanged. */
  lemma RecordedFingerprint(h: string, s: SystemSignature, h': string, s': SystemSignature)
    ensures !ProfileChanged(FingerprintRecord(h, s), h, s)
    ensures ProfileChanged(FingerprintRecord(h, s), h', s') <==> h' != h || s' != s
  {
    SignatureJsonInjective(s, s');
  }

  /** With nothing stored every fingerprint counts as changed. */
  lemma EmptyCacheChanged(h: string, s: SystemSignature)
    ensures ProfileChanged(map[], h, s)
  {
  }

  /** Unchanged means both stored keys are present and equal to the current ones. */
  lemma UnchangedIffStoredMatch(record: map<string, Json>, h: string, s: SystemSignature)
    ensures !ProfileChanged(record, h, s) <==>
      && "last_diff_hash" in record && record["last_diff_hash"] == JStr(h)
      && "last_system_signature" in record && record["last_system_signature"] == SignatureJson(s)
  {
  }

  /** The recorded fingerprint holds exactly the two fingerprint keys. */
  lemma FingerprintKeys(h: string, s: SystemSignature)
    ensures FingerprintRecord(h, s).Keys == {"last_diff_hash", "last_system_signature"}
  {
  }
}
