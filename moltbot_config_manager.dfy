/** The configuration manager of the oldest generation (MoltbotManager's
    `ConfigManager`).

    Its catalog keeps every alias key with a `/`, even one a provider already
    produced. Whether the gateway runs is read from the line count that
    `ps aux | grep -i 'moltbot-gateway' | grep -v grep | wc -l` prints; the
    command itself is not modelled, its output is a parameter. The typed
    schema and the label tables of this generation are not part of this model;
    it uses the older generation's, which declare the same types. */
module MoltbotManager {
  import opened Common
  import opened JsonTree
  import opened SchemaParts
  import ManagerSchema
  import opened Locator
  import opened Catalog
  import ManagerModelDisplay
  import OpenClawManager

  // ---------------------------------------------------------------------------
  // Reading the process count

  /** The characters `trimmingCharacters(in: .whitespacesAndNewlines)` removes,
      restricted to ASCII. */
  predicate IsSpace(c: char) {
    c == ' ' || c == '\t' || c == '\n' || c == '\r' || c == '\U{B}' || c == '\U{C}'
  }

  predicate AllSpace(s: string) {
    forall i :: 0 <= i < |s| ==> IsSpace(s[i])
  }

  /** `s` with its leading white space removed. */
  function TrimStart(s: string): (r: string)
    ensures |r| <= |s| && r == s[|s| - |r|..]
    ensures AllSpace(s[..|s| - |r|])
    ensures r != [] ==> !IsSpace(r[0])
    decreases |s|
  {
    if s != [] && IsSpace(s[0]) then
      var r := TrimStart(s[1..]);
      assert s[1..][|s| - 1 - |r|..] == s[|s| - |r|..];
      assert s[..|s| - |r|] == [s[0]] + s[1..][..|s| - 1 - |r|];
      AllSpaceCons(s[0], s[1..][..|s| - 1 - |r|]);
      r
    else
      assert s[..0] == [];
      s
  }

  /** `s` with its trailing white space removed. */
  function TrimEnd(s: string): (r: string)
    ensures |r| <= |s| && r == s[..|r|]
    ensures AllSpace(s[|r|..])
    ensures r != [] ==> !IsSpace(r[|r| - 1])
    decreases |s|
  {
    if s != [] && IsSpace(s[|s| - 1]) then
      var init := s[..|s| - 1];
      var r := TrimEnd(init);
      assert init[..|r|] == s[..|r|];
      assert s[|r|..] == init[|r|..] + [s[|s| - 1]];
      AllSpaceSnoc(init[|r|..], s[|s| - 1]);
      r
    else
      assert s[|s|..] == [];
      s
  }

  lemma AllSpaceCons(c: char, t: string)
    requires IsSpace(c) && AllSpace(t)
    ensures AllSpace([c] + t)
  {
    forall i | 0 <= i < |[c] + t|
      ensures IsSpace(([c] + t)[i])
    {
      if i > 0 {
        assert ([c] + t)[i] == t[i - 1];
      }
    }
  }

  lemma AllSpaceSnoc(t: string, c: char)
    requires AllSpace(t) && IsSpace(c)
    ensures AllSpace(t + [c])
  {
    forall i | 0 <= i < |t + [c]|
      ensures IsSpace((t + [c])[i])
    {
      if i < |t| {
        assert (t + [c])[i] == t[i];
      }
    }
  }

  /** `trimmingCharacters(in: .whitespacesAndNewlines)`. */
  function Trim(s: string): string {
    TrimEnd(TrimStart(s))
  }

  /** White space around a text that neither starts nor ends with white space
      is exactly what trimming removes. */
  lemma {:induction false} TrimSurrounded(lead: string, core: string, trail: string)
    requires AllSpace(lead) && AllSpace(trail)
    requires core != [] && !IsSpace(core[0]) && !IsSpace(core[|core| - 1])
    ensures Trim(lead + core + trail) == core
  {
    TrimStartSkips(lead, core + trail);
    assert lead + core + trail == lead + (core + trail);
    TrimEndSkips(core, trail);
  }

  lemma {:induction false} TrimStartSkips(lead: string, rest: string)
    requires AllSpace(lead) && (rest != [] ==> !IsSpace(rest[0]))
    ensures TrimStart(lead + rest) == rest
    decreases |lead|
  {
    if lead != [] {
      assert (lead + rest)[1..] == lead[1..] + rest;
      TrimStartSkips(lead[1..], rest);
    } else {
      assert lead + rest == rest;
    }
  }

  lemma {:induction false} TrimEndSkips(rest: string, trail: string)
    requires AllSpace(trail) && (rest != [] ==> !IsSpace(rest[|rest| - 1]))
    ensures TrimEnd(rest + trail) == rest
    decreases |trail|
  {
    if trail != [] {
      assert (rest + trail)[..|rest + trail| - 1] == rest + trail[..|trail| - 1];
      TrimEndSkips(rest, trail[..|trail| - 1]);
    } else {
      assert rest + trail == rest;
    }
  }

  predicate IsDigit(c: char) {
    '0' <= c <= '9'
  }

  predicate AllDigits(s: string) {
    forall i :: 0 <= i < |s| ==> IsDigit(s[i])
  }

  /** The value of a string of decimal digits. */
  function DigitsValue(s: string): nat
    requires AllDigits(s)
    decreases |s|
  {
    if s == [] then 0
    else DigitsValue(s[..|s| - 1]) * 10 + (s[|s| - 1] as int - '0' as int)
  }

  /** `Int(text)`: an optional sign and at least one decimal digit, nothing
      else, and a value that fits in 64 bits. */
  function ParseInt(s: string): (r: Option<int>)
    ensures r.Some? ==> IntMin <= r.value <= IntMax
    ensures r.Some? ==> s != [] && (IsDigit(s[0]) || s[0] == '+' || s[0] == '-')
  {
    var negative := |s| > 0 && s[0] == '-';
    var digits := if |s| > 0 && (s[0] == '+' || s[0] == '-') then s[1..] else s;
    if digits == [] || !AllDigits(digits) then None
    else
      var magnitude: int := DigitsValue(digits);
      var value := if negative then 0 - magnitude else magnitude;
      if IntMin <= value <= IntMax then Some(value) else None
  }

  /** `Int(output) ?? 0 > 0` on the trimmed output, which is `"0"` when the
      output is not valid UTF-8. */
  function RunningFromOutput(output: Option<string>): bool {
    var text := if output.Some? then Trim(output.value) else "0";
    var count := match ParseInt(text) case Some(n) => n case None => 0;
    count > 0
  }

  /** The decimal digits of `n`, as `wc -l` prints it. */
  function Decimal(n: nat): (r: string)
    decreases n
  {
    if n < 10 then [('0' as int + n) as char]
    else Decimal(n / 10) + [('0' as int + n % 10) as char]
  }

  /** Reading a printed count gives the count back. */
  lemma {:induction false} DecimalRoundTrip(n: nat)
    ensures Decimal(n) != [] && AllDigits(Decimal(n)) && DigitsValue(Decimal(n)) == n
    decreases n
  {
    if n >= 10 {
      DecimalRoundTrip(n / 10);
      var d := Decimal(n);
      assert d[..|d| - 1] == Decimal(n / 10);
    }
  }

  lemma ParseDecimal(n: nat)
    requires n <= IntMax
    ensures ParseInt(Decimal(n)) == Some(n)
  {
    DecimalRoundTrip(n);
  }

  /** The gateway counts as running exactly when the command printed a positive
      count, whatever white space surrounds it. */
  lemma RunningIffPositiveCount(lead: string, n: nat, trail: string)
    requires AllSpace(lead) && AllSpace(trail) && n <= IntMax
    ensures RunningFromOutput(Some(lead + Decimal(n) + trail)) <==> n > 0
  {
    DecimalRoundTrip(n);
    var d := Decimal(n);
    assert !IsSpace(d[0]) && !IsSpace(d[|d| - 1]);
    TrimSurrounded(lead, d, trail);
    ParseDecimal(n);
  }

  /** Output that is not a number counts as no process. */
  lemma UnreadableOutputMeansStopped(output: Option<string>)
    requires output.None? || ParseInt(Trim(output.value)).None?
    ensures !RunningFromOutput(output)
  {
    if output.None? {
      assert ParseInt("0") == Some(0) by {
        assert AllDigits("0") && DigitsValue("0") == 0;
        assert DigitsValue("0"[..0]) == 0;
      }
    }
  }

  // ---------------------------------------------------------------------------
  // The manager

  /** The fixed message of this generation's `loadConfig`. */
  function LoadError(path: string): string {
    "Failed to load config from " + path
  }

  class ConfigManager {
    var config: Option<ManagerSchema.Config>
    var gatewayRunning: bool
    var errorMessage: Option<string>
    var configPath: string

    /** `init()`: the first of this generation's three candidates that exists,
        else the file the user picks, else a fixed path; then a load. */
    constructor (home: string, existing: set<string>, selected: Option<string>, read: Option<Json>)
      ensures configPath == (match FirstExisting(MoltbotCandidates(home), existing)
                             case Some(p) => p
                             case None => if selected.Some? then selected.value else MoltbotDefault)
      ensures !gatewayRunning
      ensures config == OpenClawManager.Loaded(read)
      ensures errorMessage == if OpenClawManager.Loaded(read).Some? then None else Some(LoadError(configPath))
    {
      config := None;
      gatewayRunning := false;
      errorMessage := None;
      var found := FindMoltbotConfig(home, existing);
      match found {
        case Some(p) => configPath := p;
        case None =>
          if selected.Some? {
            configPath := selected.value;
          } else {
            configPath := MoltbotDefault;
          }
      }
      new;
      LoadConfig(read);
    }

    /** `loadConfig()`: success replaces the configuration and clears the error;
        failure keeps the last configuration and reports the path. */
    method LoadConfig(read: Option<Json>)
      modifies this
      ensures configPath == old(configPath) && gatewayRunning == old(gatewayRunning)
      ensures OpenClawManager.Loaded(read).Some? ==> config == OpenClawManager.Loaded(read) && errorMessage == None
      ensures OpenClawManager.Loaded(read).None? ==> config == old(config) && errorMessage == Some(LoadError(configPath))
    {
      var decoded := OpenClawManager.Loaded(read);
      if decoded.Some? {
        config := decoded;
        errorMessage := None;
      } else {
        errorMessage := Some(LoadError(configPath));
      }
    }

    /** `saveConfig()`: without a configuration nothing happens; otherwise the
        typed configuration is handed to the writer. */
    method SaveConfig(writeOk: bool) returns (written: Option<ManagerSchema.Config>)
      modifies this
      ensures config == old(config) && configPath == old(configPath) && gatewayRunning == old(gatewayRunning)
      ensures written == config
      ensures config.None? ==> errorMessage == old(errorMessage)
      ensures config.Some? ==> errorMessage == if writeOk then None else Some(OpenClawManager.SaveError)
    {
      if config.None? {
        return None;
      }
      written := config;
      if writeOk {
        errorMessage := None;
      } else {
        errorMessage := Some(OpenClawManager.SaveError);
      }
    }

    /** `updatePrimaryModel(_:)`: the typed edit, then a save. */
    method UpdatePrimaryModel(newModel: string, writeOk: bool) returns (written: Option<ManagerSchema.Config>)
      modifies this
      ensures configPath == old(configPath) && gatewayRunning == old(gatewayRunning)
      ensures old(config).None? ==> config.None? && written.None? && errorMessage == old(errorMessage)
      ensures old(config).Some? ==> config == Some(OpenClawManager.WithPrimaryModel(old(config).value, newModel)) && written == config
      ensures old(config).Some? ==> errorMessage == if writeOk then None else Some(OpenClawManager.SaveError)
    {
      if config.Some? {
        config := Some(OpenClawManager.WithPrimaryModel(config.value, newModel));
      }
      written := SaveConfig(writeOk);
    }

    /** `updateFallbackModels(_:)`. */
    method UpdateFallbackModels(newFallbacks: seq<string>, writeOk: bool) returns (written: Option<ManagerSchema.Config>)
      modifies this
      ensures configPath == old(configPath) && gatewayRunning == old(gatewayRunning)
      ensures old(config).None? ==> config.None? && written.None? && errorMessage == old(errorMessage)
      ensures old(config).Some? ==> config == Some(OpenClawManager.WithFallbackModels(old(config).value, newFallbacks)) && written == config
      ensures old(config).Some? ==> errorMessage == if writeOk then None else Some(OpenClawManager.SaveError)
    {
      if config.Some? {
        config := Some(OpenClawManager.WithFallbackModels(config.value, newFallbacks));
      }
      written := SaveConfig(writeOk);
    }

    /** `checkGatewayStatus()` once the command has printed `output` (`None`
        when the output is not valid UTF-8). */
    method CheckGatewayStatus(output: Option<string>)
      modifies this
      ensures config == old(config) && errorMessage == old(errorMessage) && configPath == old(configPath)
      ensures gatewayRunning == RunningFromOutput(output)
    {
      var text := if output.Some? then Trim(output.value) else "0";
      var parsed := ParseInt(text);
      var count := if parsed.Some? then parsed.value else 0;
      gatewayRunning := count > 0;
    }

    /** `getAvailableModels()`: empty without a configuration, otherwise every
        provider model and every alias key with a `/`, sorted by display name. */
    method GetAvailableModels(providerOrder: seq<string>, aliasOrder: seq<string>) returns (models: seq<ModelDisplay>)
      requires config.Some? ==> IsEnumeration(providerOrder, config.value.models.providers.Keys)
      requires config.Some? ==> IsEnumeration(aliasOrder, AliasKeys(config.value.agents.defaults.models))
      ensures config.None? ==> models == []
      ensures config.Some? ==> SortedByDisplayName(models)
      ensures config.Some? ==> multiset(models) == multiset(FullCatalog(config.value.models.providers, providerOrder, aliasOrder,
                                                                        ManagerModelDisplay.KnownProviders, ManagerModelDisplay.GetDisplayName))
    {
      if config.None? {
        return [];
      }
      var c := config.value;
      var collected := CollectAll(c.models.providers, providerOrder, aliasOrder,
                                  ManagerModelDisplay.KnownProviders, ManagerModelDisplay.GetDisplayName);
      models := SortByDisplayName(collected);
    }
  }
}
