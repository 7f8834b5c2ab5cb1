/** Rate-limit settings and the per-usage recommended configurations
    (yfinance_config.py). */
module YFinanceConfig {
  import YFinance

  // RATE_LIMIT_CONFIG
  const DelayMin: real := 1.0
  const DelayMax: real := 3.0
  const BatchDelay: real := 5.0
  const MaxRetries: nat := 3
  const BackoffFactor: nat := 2
  const RetryStatuses: seq<nat> := [429, 500, 502, 503, 504]
  const BatchSize: nat := 5
  const CacheTtlHours: nat := 24

  /** One entry of the recommended-configuration table. */
  datatype Recommended = Recommended(delayMin: real, delayMax: real, batchSize: nat, maxRetries: nat)

  const Light := Recommended(0.5, 1.5, 3, 2)
  const Normal := Recommended(1.0, 3.0, 5, 3)
  const Heavy := Recommended(2.0, 5.0, 3, 5)
  const Batch := Recommended(3.0, 8.0, 2, 5)

  /** The usage types the table knows, in order of increasing load. */
  const UsageTypes: seq<string> := ["light", "normal", "heavy", "batch"]

  /** The table as the dictionary `configs`. */
  function Table(): (t: map<string, Recommended>)
    ensures t.Keys == set u | u in UsageTypes
  {
    map["light" := Light, "normal" := Normal, "heavy" := Heavy, "batch" := Batch]
  }

  /** `configs.get(usage_type, configs["normal"])`. */
  function GetRecommendedConfig(usageType: string := "normal"): (c: Recommended)
    ensures usageType in Table() ==> c == Table()[usageType]
    ensures usageType !in UsageTypes ==> c == Normal
  {
    var t := Table();
    if usageType in t then t[usageType] else t["normal"]
  }

  predicate WellFormed(c: Recommended) {
    0.0 < c.delayMin < c.delayMax && c.batchSize > 0 && c.maxRetries > 0
  }

  /** Every configuration the lookup can return, for any usage type, has a
      positive delay window with delay_min strictly below delay_max. */
  lemma EveryConfigWellFormed(usageType: string)
    ensures WellFormed(GetRecommendedConfig(usageType))
  {
    var c := GetRecommendedConfig(usageType);
    if usageType !in UsageTypes {
      assert c == Normal;
    } else {
      assert c in {Light, Normal, Heavy, Batch};
    }
  }

  /** Along light, normal, heavy, batch the delays and the retry budget never
      decrease. */
  lemma {:induction false} HeavierUsageWaitsLonger(i: nat, j: nat)
    requires i <= j < |UsageTypes|
    ensures var a, b := GetRecommendedConfig(UsageTypes[i]), GetRecommendedConfig(UsageTypes[j]);
      a.delayMin <= b.delayMin && a.delayMax <= b.delayMax && a.maxRetries <= b.maxRetries
  {
    assert UsageTypes[i] in Table() && UsageTypes[j] in Table();
  }

  /** An unknown usage type, including differently cased ones, gets the
      normal entry. */
  lemma UnknownUsageIsNormal()
    ensures GetRecommendedConfig("Light") == Normal
    ensures GetRecommendedConfig("") == Normal
    ensures GetRecommendedConfig("batch") == Batch
  {
    assert "Light" !in UsageTypes;
    assert "" !in UsageTypes;
  }

  /** RATE_LIMIT_CONFIG agrees with the "normal" entry, its cache
      time-to-live is the one the fetcher enforces, and the 429 status it
      retries on is one the fetcher's error test reads as rate limiting. */
  lemma RateLimitMatchesNormal()
    ensures GetRecommendedConfig("normal") == Recommended(DelayMin, DelayMax, BatchSize, MaxRetries)
    ensures GetRecommendedConfig() == GetRecommendedConfig("normal")
    ensures CacheTtlHours as real * 3600.0 == YFinance.CacheTtlSeconds
    ensures 429 in RetryStatuses && YFinance.RateLimited("429")
  {
  }
}
