/** Billable minutes, free-tier charging and the pricing configuration the
    analytics consume. Per-job quoting beyond the legacy per-minute rule is
    abstract: a Pricer carries it as function values. */
module Pricing {
  import opened Common
  import opened Model
  import opened Calendar

  /** One dated price list: SKU name to USD per minute. */
  datatype Snapshot = Snapshot(version: string, effectiveFrom: Date, skus: map<string, real>)

  const EmptySnapshot := Snapshot("", ZeroDate, map[])

  /** The pricing configuration, with the fields the loader and the analytics use. */
  datatype Config = Config(
    perMinuteUSD: real,
    windowsMultiplier: real,
    macOSMultiplier: real,
    freeTierPerMonth: real,
    alreadyUsedThisMon: real,
    version: string,
    effectiveFrom: Date,
    snapshots: seq<Snapshot>,
    freeTierByPlan: map<string, real>,
    largerRunnersPerMin: map<string, real>)

  /** The multipliers engine.go hard-codes, which are also the loader's defaults. */
  const DefaultWindowsMultiplier: real := 2.0
  const DefaultMacOSMultiplier: real := 10.0

  // ---------------------------------------------------------------------------
  // engine.go
  // ---------------------------------------------------------------------------

  /** Whole minutes, rounded up; nothing for a non-positive duration. */
  function CeilMinutes(durationSec: int): (m: nat)
    ensures durationSec <= 0 ==> m == 0
    ensures durationSec > 0 ==> (m - 1) * 60 < durationSec <= m * 60
  {
    if durationSec <= 0 then 0 else (durationSec + 59) / 60
  }

  /** The multiplier the configuration assigns to a runner OS; exact, case-sensitive names. */
  function OSMultiplier(runnerOS: string, cfg: Config): real {
    if runnerOS == "Windows" then cfg.windowsMultiplier
    else if runnerOS == "macOS" then cfg.macOSMultiplier
    else 1.0
  }

  predicate IsWhole(x: real) {
    x.Floor as real == x
  }

  predicate WholeNonNegativeMultipliers(cfg: Config) {
    cfg.windowsMultiplier >= 0.0 && cfg.macOSMultiplier >= 0.0
    && IsWhole(cfg.windowsMultiplier) && IsWhole(cfg.macOSMultiplier)
  }

  /** Billable minutes: whole minutes rounded up, times the OS multiplier. */
  function BillableMinutes(durationSec: int, runnerOS: string, cfg: Config): (b: real)
    ensures cfg.windowsMultiplier >= 0.0 && cfg.macOSMultiplier >= 0.0 ==> b >= 0.0
    ensures durationSec <= 0 ==> b == 0.0
  {
    CeilMinutes(durationSec) as real * OSMultiplier(runnerOS, cfg)
  }

  /** Billable minutes are a whole number whenever the multipliers are. */
  lemma BillableWhole(durationSec: int, runnerOS: string, cfg: Config)
    requires WholeNonNegativeMultipliers(cfg)
    ensures IsWhole(BillableMinutes(durationSec, runnerOS, cfg))
  {
    var n := CeilMinutes(durationSec);
    var k := OSMultiplier(runnerOS, cfg);
    assert IsWhole(k);
    var f := k.Floor;
    assert n as real * k == (n * f) as real;
    assert ((n * f) as real).Floor == n * f;
    assert BillableMinutes(durationSec, runnerOS, cfg) == (n * f) as real;
  }

  /** With the default multipliers the configurable rule is the literal one of
      engine.go: Windows minutes count twice, macOS minutes ten times, any other
      runner OS once. */
  lemma DefaultMultipliersAreLiteral(durationSec: int, runnerOS: string, cfg: Config)
    requires cfg.windowsMultiplier == DefaultWindowsMultiplier
    requires cfg.macOSMultiplier == DefaultMacOSMultiplier
    ensures runnerOS == "Windows" ==> BillableMinutes(durationSec, runnerOS, cfg) == 2.0 * CeilMinutes(durationSec) as real
    ensures runnerOS == "macOS" ==> BillableMinutes(durationSec, runnerOS, cfg) == 10.0 * CeilMinutes(durationSec) as real
    ensures runnerOS != "Windows" && runnerOS != "macOS" ==> BillableMinutes(durationSec, runnerOS, cfg) == CeilMinutes(durationSec) as real
  {
  }

  /** For a fixed OS, a longer job is never billed fewer minutes. */
  lemma {:induction false} BillableMonotone(d1: int, d2: int, runnerOS: string, cfg: Config)
    requires d1 <= d2
    requires cfg.windowsMultiplier >= 0.0 && cfg.macOSMultiplier >= 0.0
    ensures BillableMinutes(d1, runnerOS, cfg) <= BillableMinutes(d2, runnerOS, cfg)
  {
    CeilMonotone(d1, d2);
    MultiplierNonNegative(runnerOS, cfg);
    ScaleMonotone(CeilMinutes(d1), CeilMinutes(d2), OSMultiplier(runnerOS, cfg),
                  BillableMinutes(d1, runnerOS, cfg), BillableMinutes(d2, runnerOS, cfg));
  }

  lemma MultiplierNonNegative(runnerOS: string, cfg: Config)
    requires cfg.windowsMultiplier >= 0.0 && cfg.macOSMultiplier >= 0.0
    ensures OSMultiplier(runnerOS, cfg) >= 0.0
  {
  }

  lemma CeilMonotone(d1: int, d2: int)
    requires d1 <= d2
    ensures CeilMinutes(d1) <= CeilMinutes(d2)
  {
  }

  lemma ScaleMonotone(a: nat, b: nat, k: real, x: real, y: real)
    requires a <= b && k >= 0.0
    requires x == a as real * k && y == b as real * k
    ensures x <= y
  {
    assert b as real * k - a as real * k == (b - a) as real * k;
  }

  /** The billing examples of engine_test.go. */
  lemma BillableExamples(cfg: Config)
    requires cfg.windowsMultiplier == 2.0 && cfg.macOSMultiplier == 10.0
    ensures BillableMinutes(59, "Linux", cfg) == 1.0
    ensures BillableMinutes(60, "Linux", cfg) == 1.0
    ensures BillableMinutes(61, "Linux", cfg) == 2.0
    ensures BillableMinutes(200, "Windows", cfg) == 8.0
    ensures BillableMinutes(125, "macOS", cfg) == 30.0
  {
  }

  // ---------------------------------------------------------------------------
  // freetier.go
  // ---------------------------------------------------------------------------

  /** Minutes left to pay for after the remaining free tier. */
  function ChargedMinutes(totalBillable: real, freeTier: real, alreadyUsed: real): (charged: real)
    ensures charged >= 0.0
    ensures charged == Max(0.0, totalBillable - Max(0.0, freeTier - alreadyUsed))
    ensures alreadyUsed >= freeTier && totalBillable >= 0.0 ==> charged == totalBillable
    ensures totalBillable >= 0.0 ==> charged <= totalBillable
    ensures totalBillable <= freeTier - alreadyUsed ==> charged == 0.0
  {
    var remainingFree := if freeTier - alreadyUsed < 0.0 then 0.0 else freeTier - alreadyUsed;
    var c := totalBillable - remainingFree;
    if c < 0.0 then 0.0 else c
  }

  lemma ChargedExamples()
    ensures ChargedMinutes(2500.0, 2000.0, 0.0) == 500.0
    ensures ChargedMinutes(1000.0, 2000.0, 0.0) == 0.0
  {
  }

  // ---------------------------------------------------------------------------
  // Per-job quotes
  // ---------------------------------------------------------------------------

  /** The price of one job: billable minutes, USD, and which rule produced it. */
  datatype Quote = Quote(billableMinutes: real, costUSD: real, source: string, snapshot: Snapshot)

  /** The source tag of a quote made by the legacy per-minute rule. */
  const PricingSourceLegacy: string := "legacy"

  /** The per-job quoting collaborators the analytics call: PriceJob(durationSec,
      runnerOS, runnerName, startedAt, cfg) and LegacyMultiplier(runnerOS, cfg). */
  datatype Pricer = Pricer(
    priceJob: (int, string, string, int, Config) -> Result<Quote, string>,
    legacyMultiplier: (string, Config) -> real)

  /** Minutes at the flat per-minute rate. */
  function AtFlatRate(minutes: real, cfg: Config): real {
    minutes * cfg.perMinuteUSD
  }

  /** The legacy quote: engine.go billable minutes at the flat per-minute rate. */
  function LegacyQuote(durationSec: int, runnerOS: string, runnerName: string, startedAt: int, cfg: Config): (r: Result<Quote, string>)
    ensures r.Ok?
    ensures r.value.source == PricingSourceLegacy
    ensures r.value.costUSD == r.value.billableMinutes * cfg.perMinuteUSD
    ensures r.value.billableMinutes == BillableMinutes(durationSec, runnerOS, cfg)
  {
    var b := BillableMinutes(durationSec, runnerOS, cfg);
    Ok(Quote(b, b * cfg.perMinuteUSD, PricingSourceLegacy, EmptySnapshot))
  }

  /** The instance of the collaborators built from engine.go alone. */
  const LegacyPricer: Pricer := Pricer(LegacyQuote, OSMultiplier)
}
