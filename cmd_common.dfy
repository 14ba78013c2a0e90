/** Helpers the commands share (cmd/common.go): choosing the repository,
    splitting owner/repo, and laying the user's configuration over the pricing
    file. */
module CmdCommon {
  import opened Common
  import Settings
  import Pricing
  import Calendar

  // ---------------------------------------------------------------------------
  // Repository selection
  // ---------------------------------------------------------------------------

  /** pickRepo: the --repo value if it is not blank, otherwise the first
      configured repository if that is not blank. */
  function PickRepo(input: string, cfg: Settings.Config): (r: Result<string, string>)
    ensures r.Ok? ==> r.value != "" && TrimSpace(r.value) == r.value
    ensures !IsBlank(input) ==> r == Ok(TrimSpace(input))
    ensures IsBlank(input) ==> (r.Ok? <==> |cfg.repos| > 0 && !IsBlank(cfg.repos[0]))
    ensures IsBlank(input) && r.Ok? ==> r.value == TrimSpace(cfg.repos[0])
  {
    if TrimSpace(input) != "" then
      TrimSpaceIdempotent(input);
      Ok(TrimSpace(input))
    else if |cfg.repos| > 0 && TrimSpace(cfg.repos[0]) != "" then
      TrimSpaceIdempotent(cfg.repos[0]);
      Ok(TrimSpace(cfg.repos[0]))
    else Err("repo is required (use --repo owner/repo)")
  }

  /** splitRepo: exactly two non-empty pieces around one slash. */
  function SplitRepo(full: string): (r: Result<(string, string), string>)
    ensures r.Ok? ==> r.value.0 != "" && r.value.1 != "" && '/' !in r.value.0 && '/' !in r.value.1
  {
    var parts := Split(TrimSpace(full), '/');
    if |parts| != 2 || parts[0] == "" || parts[1] == "" then Err(full)
    else Ok((parts[0], parts[1]))
  }

  /** A successful split puts the trimmed input back together. */
  lemma SplitRepoRoundTrip(full: string)
    requires SplitRepo(full).Ok?
    ensures SplitRepo(full).value.0 + "/" + SplitRepo(full).value.1 == TrimSpace(full)
  {
    var parts := Split(TrimSpace(full), '/');
    SplitJoin(TrimSpace(full), '/');
    assert Join(parts, '/') == parts[0] + ['/'] + Join(parts[1..], '/');
    assert Join(parts[1..], '/') == parts[1];
  }

  /** Two non-empty names without a slash, the first not starting and the
      second not ending with white space, split back into themselves. */
  lemma SplitRepoAccepts(owner: string, repo: string)
    requires owner != "" && repo != "" && '/' !in owner && '/' !in repo
    requires !IsSpace(owner[0]) && !IsSpace(repo[|repo| - 1])
    ensures SplitRepo(owner + "/" + repo) == Ok((owner, repo))
  {
    var full := owner + "/" + repo;
    assert full == owner + ['/'] + repo;
    TrimSpaceKeeps(full);
    SplitLeading(owner, '/', repo);
    assert IndexOf(repo, '/') == -1;
  }

  /** The split fails only when the trimmed input is not owner/repo: so it
      succeeds exactly for two non-empty, slash-free names. */
  lemma SplitRepoRejects(full: string, owner: string, repo: string)
    requires SplitRepo(full).Err?
    requires owner != "" && repo != "" && '/' !in owner && '/' !in repo
    ensures TrimSpace(full) != owner + "/" + repo
  {
    if TrimSpace(full) == owner + "/" + repo {
      var t := TrimSpace(full);
      TrimSpaceSpec(full);
      assert owner[0] == t[0] && repo[|repo| - 1] == t[|t| - 1];
      TrimSpaceIdempotent(full);
      SplitRepoAccepts(owner, repo);
    }
  }

  // ---------------------------------------------------------------------------
  // Pricing configuration
  // ---------------------------------------------------------------------------

  /** The zero pricing configuration used when no pricing file exists. */
  const ZeroPricing := Pricing.Config(0.0, 0.0, 0.0, 0.0, 0.0, "", Calendar.ZeroDate, [], map[], map[])

  /** loadPricingConfig after the file search: `found` is None when no
      candidate file exists, otherwise what loading the first one gave. The
      user's rate fills an unset rate, positive user multipliers replace the
      file's, and the user's free tier always replaces the file's. */
  method LoadPricingConfig(found: Option<Result<Pricing.Config, string>>, user: Settings.Config)
    returns (r: Result<Pricing.Config, string>)
    ensures found.Some? && found.value.Err? ==> r == Err(found.value.error)
    ensures !(found.Some? && found.value.Err?) ==> r.Ok?
    ensures r.Ok? ==>
      var base := if found.Some? then found.value.value else ZeroPricing;
      && r.value.perMinuteUSD == (if base.perMinuteUSD == 0.0 then user.pricing.linuxPerMin else base.perMinuteUSD)
      && r.value.windowsMultiplier
         == (if user.pricing.windowsMultiplier > 0.0 then user.pricing.windowsMultiplier else base.windowsMultiplier)
      && r.value.macOSMultiplier
         == (if user.pricing.macOSMultiplier > 0.0 then user.pricing.macOSMultiplier else base.macOSMultiplier)
      && r.value.freeTierPerMonth == user.freeTier.minutesPerMonth
      && r.value == base.(perMinuteUSD := r.value.perMinuteUSD, windowsMultiplier := r.value.windowsMultiplier,
                          macOSMultiplier := r.value.macOSMultiplier, freeTierPerMonth := r.value.freeTierPerMonth)
  {
    var cfg := ZeroPricing;
    if found.Some? {
      if found.value.Err? {
        return Err(found.value.error);
      }
      cfg := found.value.value;
    }
    if cfg.perMinuteUSD == 0.0 {
      cfg := cfg.(perMinuteUSD := user.pricing.linuxPerMin);
    }
    if user.pricing.windowsMultiplier > 0.0 {
      cfg := cfg.(windowsMultiplier := user.pricing.windowsMultiplier);
    }
    if user.pricing.macOSMultiplier > 0.0 {
      cfg := cfg.(macOSMultiplier := user.pricing.macOSMultiplier);
    }
    cfg := cfg.(freeTierPerMonth := user.freeTier.minutesPerMonth);
    return Ok(cfg);
  }
}
