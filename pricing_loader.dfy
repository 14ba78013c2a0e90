/** Validation and normalisation of a decoded pricing file: default rate and
    multipliers, SKU filtering per snapshot, snapshots sorted by effective
    date, and the latest snapshot as the headline version. Reading the file
    and decoding its YAML are outside this model. */
module PricingLoader {
  import opened Common
  import opened Model
  import opened Calendar
  import opened Pricing
  import opened Sorting

  /** One entry of pricing_snapshots as decoded. */
  datatype SnapshotFile = SnapshotFile(version: string, effectiveFrom: string, skus: map<string, real>)

  /** The pricing file as decoded. */
  datatype FileConfig = FileConfig(
    version: string,
    effectiveFrom: string,
    perMinuteUSD: real,
    multipliers: map<string, real>,
    largerRunners: map<string, real>,
    freeTiers: map<string, real>,
    pricingSnapshots: seq<SnapshotFile>)

  /** Why a pricing file is refused; each carries the text it quotes. */
  datatype LoadError =
    | InvalidEffectiveFrom(raw: string)
    | InvalidSnapshotDate(raw: string)
    | EmptySkus(version: string)
    | NoValidSkuRates(version: string)

  const DefaultPerMinuteUSD: real := 0.008

  /** A Go map read: the zero value for a missing key. */
  function Lookup(m: map<string, real>, k: string): real {
    if k in m then m[k] else 0.0
  }

  /** The multiplier after the file's value: only a positive value replaces the default. */
  function PositiveOr(fileValue: real, default: real): (r: real)
    ensures fileValue > 0.0 ==> r == fileValue
    ensures fileValue <= 0.0 ==> r == default
  {
    if fileValue > 0.0 then fileValue else default
  }

  // ---------------------------------------------------------------------------
  // Specification
  // ---------------------------------------------------------------------------

  predicate HasPositiveRate(raw: map<string, real>) {
    exists k :: k in raw && raw[k] > 0.0
  }

  /** The positive rates of raw whose SKU name normalises to n. */
  ghost function RatesFor(raw: map<string, real>, normalize: string -> string, n: string): set<real> {
    set k | k in raw && raw[k] > 0.0 && normalize(k) == n :: raw[k]
  }

  /** The normalised names of the SKUs with a positive rate. */
  ghost function PositiveNames(raw: map<string, real>, normalize: string -> string): set<string> {
    set k | k in raw && raw[k] > 0.0 :: normalize(k)
  }

  /** skus keeps exactly the positive rates of raw under normalised names; when two
      names normalise alike, one of their rates survives. */
  ghost predicate SkusFrom(raw: map<string, real>, normalize: string -> string, skus: map<string, real>) {
    && skus.Keys == PositiveNames(raw, normalize)
    && forall n :: n in skus ==> skus[n] in RatesFor(raw, normalize, n)
  }

  /** The error a snapshot entry raises, checked in the loader's order. */
  function SnapshotError(sf: SnapshotFile): Option<LoadError> {
    if ParseDate(TrimSpace(sf.effectiveFrom)).None? then Some(InvalidSnapshotDate(sf.effectiveFrom))
    else if |sf.skus| == 0 then Some(EmptySkus(sf.version))
    else if !HasPositiveRate(sf.skus) then Some(NoValidSkuRates(sf.version))
    else None
  }

  /** The error of the first offending snapshot entry, if any. */
  function FirstSnapshotError(sfs: seq<SnapshotFile>): (e: Option<LoadError>)
    ensures e.None? <==> forall i :: 0 <= i < |sfs| ==> SnapshotError(sfs[i]).None?
  {
    if sfs == [] then None
    else if SnapshotError(sfs[0]).Some? then SnapshotError(sfs[0])
    else
      var rest := FirstSnapshotError(sfs[1..]);
      assert forall i :: 1 <= i < |sfs| ==> sfs[i] == sfs[1..][i - 1];
      rest
  }

  lemma {:induction false} FirstSnapshotErrorAt(sfs: seq<SnapshotFile>, i: nat)
    requires i < |sfs| && SnapshotError(sfs[i]).Some?
    requires forall j :: 0 <= j < i ==> SnapshotError(sfs[j]).None?
    ensures FirstSnapshotError(sfs) == SnapshotError(sfs[i])
    decreases i
  {
    if i > 0 {
      FirstSnapshotErrorAt(sfs[1..], i - 1);
    }
  }

  /** The snapshot the loader builds from a valid entry. */
  ghost predicate BuiltFrom(sf: SnapshotFile, normalize: string -> string, s: Snapshot) {
    && s.version == TrimSpace(sf.version)
    && ParseDate(TrimSpace(sf.effectiveFrom)) == Some(s.effectiveFrom)
    && SkusFrom(sf.skus, normalize, s.skus)
  }

  ghost predicate AllBuiltFrom(sfs: seq<SnapshotFile>, normalize: string -> string, built: seq<Snapshot>) {
    |built| == |sfs| && forall i :: 0 <= i < |sfs| ==> BuiltFrom(sfs[i], normalize, built[i])
  }

  predicate TopDateValid(raw: FileConfig) {
    IsBlank(raw.effectiveFrom) || ParseDate(raw.effectiveFrom).Some?
  }

  ghost predicate SortedByDate(snaps: seq<Snapshot>) {
    forall i, j :: 0 <= i < j < |snaps| ==> !DateBefore(snaps[j].effectiveFrom, snaps[i].effectiveFrom)
  }

  ghost predicate ValidDates(snaps: seq<Snapshot>) {
    forall i :: 0 <= i < |snaps| ==> ValidDate(snaps[i].effectiveFrom)
  }

  ghost predicate PositiveRates(snaps: seq<Snapshot>) {
    forall i, n :: 0 <= i < |snaps| && n in snaps[i].skus ==> snaps[i].skus[n] > 0.0
  }

  /** The sort key: later dates have smaller keys. */
  function DateKey(s: Snapshot): real {
    -(DateOrdinal(s.effectiveFrom) as real)
  }

  // ---------------------------------------------------------------------------
  // Implementation
  // ---------------------------------------------------------------------------

  /** Keeps the positive rates, under normalised SKU names. */
  method FilterSkus(raw: map<string, real>, normalize: string -> string) returns (skus: map<string, real>)
    ensures SkusFrom(raw, normalize, skus)
    ensures forall n :: n in skus ==> skus[n] > 0.0
    ensures skus == map[] <==> !HasPositiveRate(raw)
  {
    skus := map[];
    var rest := raw.Keys;
    while rest != {}
      invariant rest <= raw.Keys
      invariant skus.Keys == set k | k in raw && k !in rest && raw[k] > 0.0 :: normalize(k)
      invariant forall n :: n in skus ==> skus[n] in RatesFor(raw, normalize, n)
      decreases rest
    {
      var k :| k in rest;
      if raw[k] > 0.0 {
        assert raw[k] in RatesFor(raw, normalize, normalize(k));
        skus := skus[normalize(k) := raw[k]];
      }
      rest := rest - {k};
    }
    if HasPositiveRate(raw) {
      var k :| k in raw && raw[k] > 0.0;
      assert normalize(k) in skus;
    }
  }

  /** One entry: its date, its SKU list, and its positive rates, checked in that order. */
  method BuildSnapshot(sf: SnapshotFile, normalize: string -> string) returns (r: Result<Snapshot, LoadError>)
    ensures r.Err? <==> SnapshotError(sf).Some?
    ensures r.Err? ==> r.error == SnapshotError(sf).value
    ensures r.Ok? ==> Good(sf, normalize, r.value)
  {
    var eff := ParseDate(TrimSpace(sf.effectiveFrom));
    if eff.None? {
      return Err(InvalidSnapshotDate(sf.effectiveFrom));
    }
    if |sf.skus| == 0 {
      return Err(EmptySkus(sf.version));
    }
    var skus := FilterSkus(sf.skus, normalize);
    if |skus| == 0 {
      return Err(NoValidSkuRates(sf.version));
    }
    return Ok(Snapshot(TrimSpace(sf.version), eff.value, skus));
  }

  /** The snapshot loop: each entry is checked and built in file order; the first
      offending entry aborts. */
  method BuildSnapshots(sfs: seq<SnapshotFile>, normalize: string -> string) returns (r: Result<seq<Snapshot>, LoadError>)
    ensures r.Err? <==> FirstSnapshotError(sfs).Some?
    ensures r.Err? ==> r.error == FirstSnapshotError(sfs).value
    ensures r.Ok? ==> |r.value| == |sfs|
    ensures r.Ok? ==> AllBuiltFrom(sfs, normalize, r.value) && PositiveRates(r.value) && ValidDates(r.value)
  {
    var snaps: seq<Snapshot> := [];
    ghost var good := (sf, s) => Good(sf, normalize, s);
    for i := 0 to |sfs|
      invariant Pairwise(sfs[..i], snaps, good)
    {
      var one := BuildSnapshot(sfs[i], normalize);
      if one.Err? {
        FirstErrorAfter(sfs, i, snaps, normalize, good);
        return Err(one.error);
      }
      assert good(sfs[i], one.value);
      PairwiseSnoc(sfs[..i], snaps, good, sfs[i], one.value);
      assert sfs[..i + 1] == sfs[..i] + [sfs[i]];
      snaps := snaps + [one.value];
    }
    assert sfs[..|sfs|] == sfs;
    GoodEverywhere(sfs, normalize, snaps, good);
    return Ok(snaps);
  }

  /** An entry without errors together with the snapshot built from it. */
  ghost predicate Good(sf: SnapshotFile, normalize: string -> string, s: Snapshot) {
    SnapshotError(sf).None? && BuiltFrom(sf, normalize, s) && PositiveRates([s]) && ValidDate(s.effectiveFrom)
  }

  /** p holds of the entries of xs and ys position by position. */
  ghost predicate Pairwise<A, B>(xs: seq<A>, ys: seq<B>, p: (A, B) -> bool) {
    |xs| == |ys| && forall j :: 0 <= j < |xs| ==> p(xs[j], ys[j])
  }

  lemma PairwiseSnoc<A, B>(xs: seq<A>, ys: seq<B>, p: (A, B) -> bool, x: A, y: B)
    requires Pairwise(xs, ys, p) && p(x, y)
    ensures Pairwise(xs + [x], ys + [y], p)
  {
  }

  lemma FirstErrorAfter(sfs: seq<SnapshotFile>, i: nat, snaps: seq<Snapshot>, normalize: string -> string,
                        good: (SnapshotFile, Snapshot) -> bool)
    requires i < |sfs| && SnapshotError(sfs[i]).Some?
    requires good == ((sf, s) => Good(sf, normalize, s))
    requires Pairwise(sfs[..i], snaps, good)
    ensures FirstSnapshotError(sfs) == SnapshotError(sfs[i])
  {
    forall j | 0 <= j < i
      ensures SnapshotError(sfs[j]).None?
    {
      assert good(sfs[..i][j], snaps[j]);
    }
    FirstSnapshotErrorAt(sfs, i);
  }

  lemma GoodEverywhere(sfs: seq<SnapshotFile>, normalize: string -> string, snaps: seq<Snapshot>,
                       good: (SnapshotFile, Snapshot) -> bool)
    requires good == ((sf, s) => Good(sf, normalize, s))
    requires Pairwise(sfs, snaps, good)
    ensures |snaps| == |sfs|
    ensures AllBuiltFrom(sfs, normalize, snaps) && PositiveRates(snaps) && ValidDates(snaps)
  {
    forall i | 0 <= i < |sfs|
      ensures BuiltFrom(sfs[i], normalize, snaps[i]) && ValidDate(snaps[i].effectiveFrom)
    {
      assert good(sfs[i], snaps[i]);
    }
    forall i, n | 0 <= i < |snaps| && n in snaps[i].skus
      ensures snaps[i].skus[n] > 0.0
    {
      assert good(sfs[i], snaps[i]);
      assert [snaps[i]][0] == snaps[i];
    }
  }

  /** sort.Slice by effective date, earliest first; entries with equal dates in no particular order. */
  method SortByDate(snaps: seq<Snapshot>) returns (sorted: seq<Snapshot>)
    requires ValidDates(snaps)
    ensures |sorted| == |snaps|
    ensures multiset(sorted) == multiset(snaps)
    ensures SortedByDate(sorted)
    ensures PositiveRates(snaps) ==> PositiveRates(sorted)
  {
    sorted := SortDesc(snaps, DateKey);
    assert forall i :: 0 <= i < |sorted| ==> sorted[i] in multiset(snaps);
    forall i, j | 0 <= i < j < |sorted|
      ensures !DateBefore(sorted[j].effectiveFrom, sorted[i].effectiveFrom)
    {
      assert sorted[j] in multiset(snaps) && sorted[i] in multiset(snaps);
      DateOrdinalOrders(sorted[j].effectiveFrom, sorted[i].effectiveFrom);
    }
  }

  /** The headline effective date: none when blank, else the parsed (untrimmed) text. */
  function TopDate(raw: FileConfig): Date
    requires TopDateValid(raw)
  {
    if IsBlank(raw.effectiveFrom) then ZeroDate else ParseDate(raw.effectiveFrom).value
  }

  /** The configuration before snapshots: the headline date, then the multipliers, then the rate. */
  method Headline(raw: FileConfig) returns (r: Result<Config, LoadError>)
    ensures r.Err? <==> !TopDateValid(raw)
    ensures r.Err? ==> r.error == InvalidEffectiveFrom(raw.effectiveFrom)
    ensures r.Ok? ==> r.value == Config(
      PositiveOr(raw.perMinuteUSD, DefaultPerMinuteUSD),
      PositiveOr(Lookup(raw.multipliers, "Windows"), DefaultWindowsMultiplier),
      PositiveOr(Lookup(raw.multipliers, "macOS"), DefaultMacOSMultiplier),
      0.0, 0.0, raw.version, TopDate(raw), [], raw.freeTiers, raw.largerRunners)
  {
    var cfg := Config(raw.perMinuteUSD, DefaultWindowsMultiplier, DefaultMacOSMultiplier, 0.0, 0.0,
                      raw.version, ZeroDate, [], raw.freeTiers, raw.largerRunners);
    if !IsBlank(raw.effectiveFrom) {
      var t := ParseDate(raw.effectiveFrom);
      if t.None? {
        return Err(InvalidEffectiveFrom(raw.effectiveFrom));
      }
      cfg := cfg.(effectiveFrom := t.value);
    }
    var w := Lookup(raw.multipliers, "Windows");
    if w > 0.0 {
      cfg := cfg.(windowsMultiplier := w);
    }
    var m := Lookup(raw.multipliers, "macOS");
    if m > 0.0 {
      cfg := cfg.(macOSMultiplier := m);
    }
    if cfg.perMinuteUSD <= 0.0 {
      cfg := cfg.(perMinuteUSD := DefaultPerMinuteUSD);
    }
    return Ok(cfg);
  }

  /** LoadFromFile after decoding. */
  method Load(raw: FileConfig, normalize: string -> string) returns (r: Result<Config, LoadError>)
    ensures !TopDateValid(raw) ==> r == Err(InvalidEffectiveFrom(raw.effectiveFrom))
    ensures TopDateValid(raw) && FirstSnapshotError(raw.pricingSnapshots).Some? ==>
      r == Err(FirstSnapshotError(raw.pricingSnapshots).value)
    ensures r.Ok? <==> TopDateValid(raw) && FirstSnapshotError(raw.pricingSnapshots).None?
    ensures r.Ok? ==> r.value.perMinuteUSD == PositiveOr(raw.perMinuteUSD, DefaultPerMinuteUSD)
    ensures r.Ok? ==> r.value.windowsMultiplier == PositiveOr(Lookup(raw.multipliers, "Windows"), DefaultWindowsMultiplier)
    ensures r.Ok? ==> r.value.macOSMultiplier == PositiveOr(Lookup(raw.multipliers, "macOS"), DefaultMacOSMultiplier)
    ensures r.Ok? ==> r.value.freeTierByPlan == raw.freeTiers && r.value.largerRunnersPerMin == raw.largerRunners
    ensures r.Ok? ==> r.value.freeTierPerMonth == 0.0 && r.value.alreadyUsedThisMon == 0.0
    ensures r.Ok? ==> exists built :: AllBuiltFrom(raw.pricingSnapshots, normalize, built)
                                     && multiset(r.value.snapshots) == multiset(built)
    ensures r.Ok? ==> SortedByDate(r.value.snapshots)
    ensures r.Ok? ==> PositiveRates(r.value.snapshots)
    ensures r.Ok? && raw.pricingSnapshots != [] ==>
      var latest := r.value.snapshots[|r.value.snapshots| - 1];
      r.value.version == latest.version && r.value.effectiveFrom == latest.effectiveFrom
    ensures r.Ok? && raw.pricingSnapshots == [] ==>
      && r.value.snapshots == []
      && r.value.version == raw.version
      && r.value.effectiveFrom == TopDate(raw)
  {
    var headline := Headline(raw);
    if headline.Err? {
      return Err(headline.error);
    }
    r := AttachSnapshots(headline.value, raw.pricingSnapshots, normalize);
  }

  /** The snapshot part of LoadFromFile: each snapshot built, the list sorted by
      date, and the latest snapshot's version and date as the headline ones.
      `cfg` is the headline configuration, which has no snapshots yet; every
      other field of it is kept. */
  method AttachSnapshots(cfg: Config, sfs: seq<SnapshotFile>, normalize: string -> string)
    returns (r: Result<Config, LoadError>)
    requires cfg.snapshots == []
    ensures r.Err? <==> FirstSnapshotError(sfs).Some?
    ensures r.Err? ==> r.error == FirstSnapshotError(sfs).value
    ensures r.Ok? ==> SameHeadline(r.value, cfg)
    ensures r.Ok? ==> exists built :: AllBuiltFrom(sfs, normalize, built) && multiset(r.value.snapshots) == multiset(built)
    ensures r.Ok? ==> SortedByDate(r.value.snapshots) && PositiveRates(r.value.snapshots)
    ensures r.Ok? && sfs != [] ==>
      var latest := r.value.snapshots[|r.value.snapshots| - 1];
      r.value.version == latest.version && r.value.effectiveFrom == latest.effectiveFrom
    ensures r.Ok? && sfs == [] ==>
      r.value.snapshots == [] && r.value.version == cfg.version && r.value.effectiveFrom == cfg.effectiveFrom
  {
    if |sfs| == 0 {
      assert FirstSnapshotError(sfs).None?;
      assert AllBuiltFrom(sfs, normalize, []);
      return Ok(cfg);
    }
    var built := BuildSnapshots(sfs, normalize);
    if built.Err? {
      return Err(built.error);
    }
    var snaps := built.value;
    var sorted := SortByDate(snaps);
    assert AllBuiltFrom(sfs, normalize, snaps) && multiset(sorted) == multiset(snaps);
    var latest := sorted[|sorted| - 1];
    r := Ok(cfg.(snapshots := sorted, version := latest.version, effectiveFrom := latest.effectiveFrom));
  }

  /** The fields the snapshots leave alone. */
  predicate SameHeadline(a: Config, b: Config) {
    && a.perMinuteUSD == b.perMinuteUSD
    && a.windowsMultiplier == b.windowsMultiplier && a.macOSMultiplier == b.macOSMultiplier
    && a.freeTierPerMonth == b.freeTierPerMonth && a.alreadyUsedThisMon == b.alreadyUsedThisMon
    && a.freeTierByPlan == b.freeTierByPlan && a.largerRunnersPerMin == b.largerRunnersPerMin
  }

  /** The rate default and the multiplier defaults of a file that sets none of them. */
  lemma DefaultsApply(raw: FileConfig)
    requires raw.perMinuteUSD <= 0.0 && raw.multipliers == map[]
    ensures PositiveOr(raw.perMinuteUSD, DefaultPerMinuteUSD) == 0.008
    ensures PositiveOr(Lookup(raw.multipliers, "Windows"), DefaultWindowsMultiplier) == 2.0
    ensures PositiveOr(Lookup(raw.multipliers, "macOS"), DefaultMacOSMultiplier) == 10.0
  {
  }
}
