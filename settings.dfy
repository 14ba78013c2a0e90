/** The user and repository configuration (internal/config/config.go): its
    defaults, and the merge that layers a loaded file over what is already
    configured. Go's zero value of each field means "not set". */
module Settings {

  datatype ScanSettings = ScanSettings(days: int, workers: int, incremental: bool)

  datatype PricingSettings = PricingSettings(
    source: string,
    linuxPerMin: real,
    windowsMultiplier: real,
    macOSMultiplier: real,
    currency: string)

  datatype FreeTierSettings = FreeTierSettings(plan: string, minutesPerMonth: real)

  datatype BudgetSettings = BudgetSettings(monthly: real, weekly: real, notify: string, webhookURL: string)

  datatype OutputSettings = OutputSettings(format: string, color: string)

  datatype Config = Config(
    repos: seq<string>,
    token: string,
    scan: ScanSettings,
    pricing: PricingSettings,
    freeTier: FreeTierSettings,
    budget: BudgetSettings,
    output: OutputSettings,
    ignoreWorkflows: seq<string>)

  /** The Go zero value: nothing set. */
  const ZeroConfig := Config(
    [], "", ScanSettings(0, 0, false), PricingSettings("", 0.0, 0.0, 0.0, ""),
    FreeTierSettings("", 0.0), BudgetSettings(0.0, 0.0, "", ""), OutputSettings("", ""), [])

  /** Default: the zero value with the documented defaults filled in, one field at a time. */
  method Default() returns (c: Config)
    ensures c.scan == ScanSettings(30, 4, true)
    ensures c.pricing == PricingSettings("default", 0.008, 2.0, 10.0, "USD")
    ensures c.freeTier == FreeTierSettings("free", 2000.0)
    ensures c.budget == BudgetSettings(100.0, 0.0, "stdout", "")
    ensures c.output == OutputSettings("table", "auto")
    ensures c.repos == [] && c.token == "" && c.ignoreWorkflows == []
  {
    c := ZeroConfig;
    c := c.(scan := c.scan.(days := 30));
    c := c.(scan := c.scan.(workers := 4));
    c := c.(scan := c.scan.(incremental := true));
    c := c.(pricing := c.pricing.(source := "default"));
    c := c.(pricing := c.pricing.(linuxPerMin := 0.008));
    c := c.(pricing := c.pricing.(windowsMultiplier := 2.0));
    c := c.(pricing := c.pricing.(macOSMultiplier := 10.0));
    c := c.(pricing := c.pricing.(currency := "USD"));
    c := c.(freeTier := c.freeTier.(plan := "free"));
    c := c.(freeTier := c.freeTier.(minutesPerMonth := 2000.0));
    c := c.(budget := c.budget.(monthly := 100.0));
    c := c.(budget := c.budget.(weekly := 0.0));
    c := c.(budget := c.budget.(notify := "stdout"));
    c := c.(output := c.output.(format := "table"));
    c := c.(output := c.output.(color := "auto"));
  }

  // ---------------------------------------------------------------------------
  // Merging
  // ---------------------------------------------------------------------------

  /** A field of the source wins when it is set: a non-empty string or list,
      a positive number. */
  function Text(src: string, dst: string): string { if src != "" then src else dst }
  function List(src: seq<string>, dst: seq<string>): seq<string> { if |src| > 0 then src else dst }
  function Count(src: int, dst: int): int { if src > 0 then src else dst }
  function Amount(src: real, dst: real): real { if src > 0.0 then src else dst }

  function ScanMerged(dst: ScanSettings, src: ScanSettings): ScanSettings {
    ScanSettings(Count(src.days, dst.days), Count(src.workers, dst.workers), src.incremental || dst.incremental)
  }

  function PricingMerged(dst: PricingSettings, src: PricingSettings): PricingSettings {
    PricingSettings(Text(src.source, dst.source), Amount(src.linuxPerMin, dst.linuxPerMin),
                    Amount(src.windowsMultiplier, dst.windowsMultiplier),
                    Amount(src.macOSMultiplier, dst.macOSMultiplier), Text(src.currency, dst.currency))
  }

  function FreeTierMerged(dst: FreeTierSettings, src: FreeTierSettings): FreeTierSettings {
    FreeTierSettings(Text(src.plan, dst.plan), Amount(src.minutesPerMonth, dst.minutesPerMonth))
  }

  function BudgetMerged(dst: BudgetSettings, src: BudgetSettings): BudgetSettings {
    BudgetSettings(Amount(src.monthly, dst.monthly), Amount(src.weekly, dst.weekly),
                   Text(src.notify, dst.notify), Text(src.webhookURL, dst.webhookURL))
  }

  function OutputMerged(dst: OutputSettings, src: OutputSettings): OutputSettings {
    OutputSettings(Text(src.format, dst.format), Text(src.color, dst.color))
  }

  /** The configuration merge leaves behind. */
  function Merged(dst: Config, src: Config): Config {
    Config(
      List(src.repos, dst.repos),
      Text(src.token, dst.token),
      ScanMerged(dst.scan, src.scan),
      PricingMerged(dst.pricing, src.pricing),
      FreeTierMerged(dst.freeTier, src.freeTier),
      BudgetMerged(dst.budget, src.budget),
      OutputMerged(dst.output, src.output),
      List(src.ignoreWorkflows, dst.ignoreWorkflows))
  }

  /** merge: overwrites the destination field by field where the source sets
      one, in the order the fields are declared. */
  method Merge(dst: Config, src: Config) returns (r: Config)
    ensures r == Merged(dst, src)
  {
    r := dst;
    if |src.repos| > 0 {
      r := r.(repos := src.repos);
    }
    if src.token != "" {
      r := r.(token := src.token);
    }
    var scan := MergeScan(r.scan, src.scan);
    r := r.(scan := scan);
    var pricing := MergePricing(r.pricing, src.pricing);
    r := r.(pricing := pricing);
    var freeTier := MergeFreeTier(r.freeTier, src.freeTier);
    r := r.(freeTier := freeTier);
    var budget := MergeBudget(r.budget, src.budget);
    r := r.(budget := budget);
    var output := MergeOutput(r.output, src.output);
    r := r.(output := output);
    if |src.ignoreWorkflows| > 0 {
      r := r.(ignoreWorkflows := src.ignoreWorkflows);
    }
  }

  method MergeScan(dst: ScanSettings, src: ScanSettings) returns (r: ScanSettings)
    ensures r == ScanMerged(dst, src)
  {
    r := dst;
    if src.days > 0 {
      r := r.(days := src.days);
    }
    if src.workers > 0 {
      r := r.(workers := src.workers);
    }
    if src.incremental {
      r := r.(incremental := true);
    }
  }

  method MergePricing(dst: PricingSettings, src: PricingSettings) returns (r: PricingSettings)
    ensures r == PricingMerged(dst, src)
  {
    r := dst;
    if src.source != "" {
      r := r.(source := src.source);
    }
    if src.linuxPerMin > 0.0 {
      r := r.(linuxPerMin := src.linuxPerMin);
    }
    if src.windowsMultiplier > 0.0 {
      r := r.(windowsMultiplier := src.windowsMultiplier);
    }
    if src.macOSMultiplier > 0.0 {
      r := r.(macOSMultiplier := src.macOSMultiplier);
    }
    if src.currency != "" {
      r := r.(currency := src.currency);
    }
  }

  method MergeFreeTier(dst: FreeTierSettings, src: FreeTierSettings) returns (r: FreeTierSettings)
    ensures r == FreeTierMerged(dst, src)
  {
    r := dst;
    if src.plan != "" {
      r := r.(plan := src.plan);
    }
    if src.minutesPerMonth > 0.0 {
      r := r.(minutesPerMonth := src.minutesPerMonth);
    }
  }

  method MergeBudget(dst: BudgetSettings, src: BudgetSettings) returns (r: BudgetSettings)
    ensures r == BudgetMerged(dst, src)
  {
    r := dst;
    if src.monthly > 0.0 {
      r := r.(monthly := src.monthly);
    }
    if src.weekly > 0.0 {
      r := r.(weekly := src.weekly);
    }
    if src.notify != "" {
      r := r.(notify := src.notify);
    }
    if src.webhookURL != "" {
      r := r.(webhookURL := src.webhookURL);
    }
  }

  method MergeOutput(dst: OutputSettings, src: OutputSettings) returns (r: OutputSettings)
    ensures r == OutputMerged(dst, src)
  {
    r := dst;
    if src.format != "" {
      r := r.(format := src.format);
    }
    if src.color != "" {
      r := r.(color := src.color);
    }
  }

  /** Merging a configuration that sets nothing changes nothing. */
  lemma MergeZeroIdentity(dst: Config)
    ensures Merged(dst, ZeroConfig) == dst
  {
  }

  /** Merging the same source a second time changes nothing more. */
  lemma MergeIdempotent(dst: Config, src: Config)
    ensures Merged(Merged(dst, src), src) == Merged(dst, src)
  {
  }

  /** Incremental scanning can be switched on by a merge, never off. */
  lemma MergeIncremental(dst: Config, src: Config)
    ensures Merged(dst, src).scan.incremental <==> dst.scan.incremental || src.scan.incremental
  {
  }

  /** Layering two files one after the other is the same as layering their
      merge: the later file wins wherever it sets a field, and the earlier one
      wherever only it does. */
  lemma MergeAssociative(dst: Config, a: Config, b: Config)
    ensures Merged(Merged(dst, a), b) == Merged(dst, Merged(a, b))
  {
  }

  /** A source that sets every field replaces everything but an incremental
      flag already on. */
  lemma MergeFullSource(dst: Config, src: Config)
    requires |src.repos| > 0 && src.token != "" && src.scan.days > 0 && src.scan.workers > 0
    requires src.pricing.source != "" && src.pricing.linuxPerMin > 0.0
    requires src.pricing.windowsMultiplier > 0.0 && src.pricing.macOSMultiplier > 0.0
    requires src.pricing.currency != "" && src.freeTier.plan != "" && src.freeTier.minutesPerMonth > 0.0
    requires src.budget.monthly > 0.0 && src.budget.weekly > 0.0
    requires src.budget.notify != "" && src.budget.webhookURL != ""
    requires src.output.format != "" && src.output.color != "" && |src.ignoreWorkflows| > 0
    ensures Merged(dst, src) == src.(scan := src.scan.(incremental := src.scan.incremental || dst.scan.incremental))
  {
  }
}
