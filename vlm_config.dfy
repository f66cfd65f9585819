/**
 * VLM configuration (openviking_cli/utils/config/vlm_config.py): the legacy
 * `backend` alias, migration of top-level credentials into the `providers`
 * table, provider matching, and the completeness check run after
 * construction.
 */
module VlmConfig {
  import opened Wrappers

  /** A value in a provider's settings or in the raw input document. */
  datatype Value = Null | Str(s: string) | Flag(b: bool) | Headers(h: map<string, string>)

  /** Python truthiness of a value. */
  predicate Truthy(v: Value) {
    match v
    case Null => false
    case Str(s) => s != ""
    case Flag(b) => b
    case Headers(h) => h != map[]
  }

  /** Python truthiness of an optional string field. */
  predicate IsSet(o: Option<string>) {
    o.Some? && o.value != ""
  }

  type ProviderConfig = map<string, Value>

  /** `dict.get(key)`: `None` for a missing key. */
  function Get(c: map<string, Value>, key: string): (r: Value)
    ensures key in c ==> r == c[key]
    ensures key !in c ==> r == Null
  {
    if key in c then c[key] else Null
  }

  /** A provider entry carries a usable key: its `api_key` is truthy. */
  predicate HasKey(c: ProviderConfig) {
    Truthy(Get(c, "api_key"))
  }

  /** One entry of the `providers` dictionary, which keeps insertion order. */
  datatype Provider = Provider(name: string, config: ProviderConfig)

  function Names(ps: seq<Provider>): (r: seq<string>)
    ensures |r| == |ps| && forall i :: 0 <= i < |ps| ==> r[i] == ps[i].name
  {
    seq(|ps|, i requires 0 <= i < |ps| => ps[i].name)
  }

  /** Dictionary keys are distinct. */
  predicate DistinctNames(ps: seq<Provider>) {
    forall i, j :: 0 <= i < j < |ps| ==> ps[i].name != ps[j].name
  }

  /** `providers.get(name)`. */
  function Find(ps: seq<Provider>, name: string): (r: Option<ProviderConfig>)
    ensures r.Some? <==> name in Names(ps)
    decreases |ps|
  {
    if ps == [] then None
    else if ps[0].name == name then Some(ps[0].config)
    else
      assert Names(ps) == [ps[0].name] + Names(ps[1..]);
      Find(ps[1..], name)
  }

  /** A lookup only finds what is listed under the name. */
  lemma {:induction false} FindListed(ps: seq<Provider>, name: string)
    requires Find(ps, name).Some?
    ensures exists i :: 0 <= i < |ps| && ps[i] == Provider(name, Find(ps, name).value)
    decreases |ps|
  {
    if ps[0].name != name {
      FindListed(ps[1..], name);
      var i :| 0 <= i < |ps[1..]| && ps[1..][i] == Provider(name, Find(ps[1..], name).value);
      assert ps[i + 1] == Provider(name, Find(ps, name).value);
    }
  }

  /** A lookup finds the first entry listed under the name. */
  lemma {:induction false} FindFirst(ps: seq<Provider>, i: int)
    requires 0 <= i < |ps| && forall j :: 0 <= j < i ==> ps[j].name != ps[i].name
    ensures Find(ps, ps[i].name) == Some(ps[i].config)
    decreases i
  {
    if i > 0 {
      assert ps[1..][i - 1] == ps[i];
      FindFirst(ps[1..], i - 1);
    }
  }

  /** With distinct names, the entry at `i` is what a lookup by its name finds. */
  lemma {:induction false} FindAt(ps: seq<Provider>, i: int)
    requires DistinctNames(ps) && 0 <= i < |ps|
    ensures Find(ps, ps[i].name) == Some(ps[i].config)
    decreases |ps|
  {
    if i > 0 {
      assert ps[0].name != ps[i].name;
      assert ps[1..][i - 1] == ps[i];
      FindAt(ps[1..], i - 1);
    }
  }

  /** `providers[name] = c`, for a name already present: the order is kept. */
  function Replace(ps: seq<Provider>, name: string, c: ProviderConfig): (r: seq<Provider>)
    ensures |r| == |ps| && Names(r) == Names(ps)
  {
    seq(|ps|, i requires 0 <= i < |ps| => if ps[i].name == name then Provider(name, c) else ps[i])
  }

  /** The raw input document given to the model before validation. */
  type RawData = map<string, Value>

  /**
   * `sync_provider_backend`: copy `backend` into `provider` when only the
   * legacy name is given.
   */
  function SyncProviderBackend(data: RawData): (r: RawData)
    ensures Get(data, "backend") != Null && Get(data, "provider") == Null ==> r == data["provider" := data["backend"]]
    ensures !(Get(data, "backend") != Null && Get(data, "provider") == Null) ==> r == data
  {
    var backend := Get(data, "backend");
    if backend != Null && Get(data, "provider") == Null then data["provider" := backend] else data
  }

  /**
   * After the alias step a provider is named exactly when either name was
   * given, a given `provider` always wins, and a second pass changes nothing.
   */
  lemma SyncProviderBackendProperties(data: RawData)
    ensures var r := SyncProviderBackend(data);
      && (Get(r, "provider") != Null <==> Get(data, "provider") != Null || Get(data, "backend") != Null)
      && (Get(data, "provider") != Null ==> r == data)
      && SyncProviderBackend(r) == r
      && r.Keys - {"provider"} == data.Keys - {"provider"}
  {
  }

  /** The configuration fields the checks read. */
  datatype Settings = Settings(
    model: Option<string>, apiKey: Option<string>, apiBase: Option<string>,
    provider: Option<string>, providers: seq<Provider>)

  /** A provider's settings after migration: keys it already has are kept. */
  function MigratedConfig(c: ProviderConfig, apiKey: string, apiBase: Option<string>): (r: ProviderConfig)
    ensures forall k :: k in c ==> k in r && r[k] == c[k]
    ensures "api_key" in r
    ensures "api_key" !in c ==> r["api_key"] == Str(apiKey)
    ensures IsSet(apiBase) && "api_base" !in c ==> "api_base" in r && r["api_base"] == Str(apiBase.value)
    ensures !IsSet(apiBase) ==> ("api_base" in r <==> "api_base" in c)
    ensures r.Keys <= c.Keys + {"api_key", "api_base"}
  {
    var withKey := if "api_key" in c then c else c["api_key" := Str(apiKey)];
    if IsSet(apiBase) && "api_base" !in withKey then withKey["api_base" := Str(apiBase.value)] else withKey
  }

  /**
   * `_migrate_legacy_config`: when both the top-level key and the provider
   * name are set, that provider's entry (created empty at the end if
   * missing) gains `api_key` and, if set, `api_base`, where it lacks them.
   */
  function Migrated(s: Settings): (r: Settings)
    ensures r.model == s.model && r.apiKey == s.apiKey && r.apiBase == s.apiBase && r.provider == s.provider
    ensures !(IsSet(s.apiKey) && IsSet(s.provider)) ==> r == s
  {
    if IsSet(s.apiKey) && IsSet(s.provider) then
      var name := s.provider.value;
      var ps := if Find(s.providers, name).None? then s.providers + [Provider(name, map[])] else s.providers;
      assert Names(ps)[|ps| - 1] == name || Find(s.providers, name).Some?;
      var c := Find(ps, name).value;
      s.(providers := Replace(ps, name, MigratedConfig(c, s.apiKey.value, s.apiBase)))
    else s
  }

  /** The table after migration is the old one, possibly with the named provider appended. */
  lemma MigratedShape(s: Settings)
    requires DistinctNames(s.providers)
    ensures var ps := Migrated(s).providers;
      && DistinctNames(ps)
      && |s.providers| <= |ps| <= |s.providers| + 1
      && Names(ps)[..|s.providers|] == Names(s.providers)
      && (|ps| == |s.providers| + 1 ==> ps[|s.providers|].name == s.provider.value)
      && (IsSet(s.apiKey) && IsSet(s.provider) ==>
            Find(ps, s.provider.value).Some? && "api_key" in Find(ps, s.provider.value).value)
  {
    if IsSet(s.apiKey) && IsSet(s.provider) {
      var name := s.provider.value;
      var ps := if Find(s.providers, name).None? then s.providers + [Provider(name, map[])] else s.providers;
      assert Names(ps)[..|s.providers|] == Names(s.providers);
      assert Names(ps)[|ps| - 1] == name || Find(s.providers, name).Some?;
      var c2 := MigratedConfig(Find(ps, name).value, s.apiKey.value, s.apiBase);
      var r := Replace(ps, name, c2);
      assert r == Migrated(s).providers;
      ReplaceFind(ps, name, c2);
      assert Names(r) == Names(ps);
      forall i, j | 0 <= i < j < |r| ensures r[i].name != r[j].name {
        assert Names(r)[i] == Names(ps)[i] && Names(r)[j] == Names(ps)[j];
        if j == |s.providers| {
          assert name !in Names(s.providers);
          assert Names(s.providers)[i] == s.providers[i].name;
        }
      }
    }
  }

  /** Migration never overwrites a setting a provider already has. */
  lemma MigrationNeverOverwrites(s: Settings)
    requires DistinctNames(s.providers)
    ensures var ps := Migrated(s).providers;
      && (forall i, k :: 0 <= i < |s.providers| && k in s.providers[i].config ==>
            i < |ps| && k in ps[i].config && ps[i].config[k] == s.providers[i].config[k])
      && (forall i :: 0 <= i < |s.providers| && !(IsSet(s.apiKey) && IsSet(s.provider) && s.providers[i].name == s.provider.value) ==>
            i < |ps| && ps[i] == s.providers[i])
  {
    MigratedShape(s);
    if IsSet(s.apiKey) && IsSet(s.provider) {
      var name := s.provider.value;
      var ps := if Find(s.providers, name).None? then s.providers + [Provider(name, map[])] else s.providers;
      var c2 := MigratedConfig(Find(ps, name).value, s.apiKey.value, s.apiBase);
      var r := Replace(ps, name, c2);
      assert r == Migrated(s).providers;
      forall i | 0 <= i < |s.providers|
        ensures r[i] == if s.providers[i].name == name then Provider(name, c2) else s.providers[i]
      {
        assert ps[i] == s.providers[i];
      }
      forall i | 0 <= i < |s.providers| && s.providers[i].name == name
        ensures Find(ps, name) == Some(s.providers[i].config)
      {
        FindAt(s.providers, i);
      }
    }
  }

  /** Running the migration twice is the same as running it once. */
  lemma MigrationIdempotent(s: Settings)
    ensures Migrated(Migrated(s)) == Migrated(s)
  {
    if IsSet(s.apiKey) && IsSet(s.provider) {
      var name := s.provider.value;
      var ps := if Find(s.providers, name).None? then s.providers + [Provider(name, map[])] else s.providers;
      if Find(s.providers, name).None? {
        assert Names(ps) == Names(s.providers) + [name];
      }
      var c := Find(ps, name).value;
      var c2 := MigratedConfig(c, s.apiKey.value, s.apiBase);
      var r := Replace(ps, name, c2);
      ReplaceFind(ps, name, c2);
      assert MigratedConfig(c2, s.apiKey.value, s.apiBase) == c2;
      assert Replace(r, name, c2) == r;
    }
  }

  /** After a replacement, the name finds the new settings. */
  lemma {:induction false} ReplaceFind(ps: seq<Provider>, name: string, c: ProviderConfig)
    requires Find(ps, name).Some?
    ensures Find(Replace(ps, name, c), name) == Some(c)
    decreases |ps|
  {
    var r := Replace(ps, name, c);
    if ps[0].name == name {
      assert r[0] == Provider(name, c);
    } else {
      assert Find(ps[1..], name) == Find(ps, name);
      ReplaceFind(ps[1..], name, c);
      assert r[1..] == Replace(ps[1..], name, c);
      assert r[0] == ps[0];
    }
  }

  /** The first provider, in insertion order, with a usable key. */
  function FirstKeyed(ps: seq<Provider>): (r: Option<Provider>)
    ensures r.None? <==> forall i :: 0 <= i < |ps| ==> !HasKey(ps[i].config)
    ensures r.Some? ==> HasKey(r.value.config)
    ensures r.Some? ==>
      exists i :: 0 <= i < |ps| && ps[i] == r.value && forall j :: 0 <= j < i ==> !HasKey(ps[j].config)
    decreases |ps|
  {
    if ps == [] then None
    else if HasKey(ps[0].config) then Some(ps[0])
    else
      var r := FirstKeyed(ps[1..]);
      assert forall i :: 0 < i < |ps| ==> ps[i] == ps[1..][i - 1];
      if r.Some? then
        ghost var i :| 0 <= i < |ps[1..]| && ps[1..][i] == r.value && forall j :: 0 <= j < i ==> !HasKey(ps[1..][j].config);
        assert ps[i + 1] == r.value;
        r
      else r
  }

  /**
   * `_match_provider`: the named provider when it has a usable key,
   * otherwise the first provider that has one; the result is the entry and
   * its name, or nothing.
   */
  function MatchProvider(s: Settings): (r: Option<Provider>)
    ensures r.Some? ==> HasKey(r.value.config) && Find(s.providers, r.value.name).Some?
    ensures r.None? <==> forall i :: 0 <= i < |s.providers| ==> !HasKey(s.providers[i].config)
    ensures IsSet(s.provider) && Find(s.providers, s.provider.value).Some? && HasKey(Find(s.providers, s.provider.value).value) ==>
      r == Some(Provider(s.provider.value, Find(s.providers, s.provider.value).value))
    ensures !(IsSet(s.provider) && Find(s.providers, s.provider.value).Some? && HasKey(Find(s.providers, s.provider.value).value)) ==>
      r == FirstKeyed(s.providers)
  {
    var named := if IsSet(s.provider) then Find(s.providers, s.provider.value) else None;
    if named.Some? && HasKey(named.value) then
      FindListed(s.providers, s.provider.value);
      Some(Provider(s.provider.value, named.value))
    else
      var r := FirstKeyed(s.providers);
      if r.Some? then
        ghost var i :| 0 <= i < |s.providers| && s.providers[i] == r.value;
        assert Names(s.providers)[i] == r.value.name;
        r
      else r
  }

  /** With distinct names, a match is the settings stored under the matched name. */
  lemma MatchIsStored(s: Settings)
    requires DistinctNames(s.providers) && MatchProvider(s).Some?
    ensures var m := MatchProvider(s).value; Find(s.providers, m.name) == Some(m.config)
  {
    var m := MatchProvider(s).value;
    var named := if IsSet(s.provider) then Find(s.providers, s.provider.value) else None;
    if !(named.Some? && HasKey(named.value)) {
      var i :| 0 <= i < |s.providers| && s.providers[i] == m;
      FindAt(s.providers, i);
    }
  }

  /** `_has_any_config`: a top-level field is set, or some provider has a usable key. */
  predicate HasAnyConfig(s: Settings)
    ensures !HasAnyConfig(s) ==> EffectiveApiKey(s).None? && MatchProvider(s).None?
  {
    IsSet(s.apiKey) || IsSet(s.model) || IsSet(s.apiBase)
    || exists i :: 0 <= i < |s.providers| && HasKey(s.providers[i].config)
  }

  /** `_get_effective_api_key`: the top-level key first, else the matched provider's. */
  function EffectiveApiKey(s: Settings): (r: Option<Value>)
    ensures r.Some? ==> Truthy(r.value)
    ensures IsSet(s.apiKey) ==> r == Some(Str(s.apiKey.value))
    ensures !IsSet(s.apiKey) && MatchProvider(s).Some? ==> r == Some(MatchProvider(s).value.config["api_key"])
  {
    if IsSet(s.apiKey) then Some(Str(s.apiKey.value))
    else
      var m := MatchProvider(s);
      if m.Some? && HasKey(m.value.config) then Some(m.value.config["api_key"]) else None
  }

  /** `is_available`. */
  predicate IsAvailable(s: Settings) {
    EffectiveApiKey(s).Some?
  }

  /** A key is available exactly when there is a top-level key or a provider with a usable one. */
  lemma AvailableIff(s: Settings)
    ensures IsAvailable(s) <==> IsSet(s.apiKey) || exists i :: 0 <= i < |s.providers| && HasKey(s.providers[i].config)
  {
  }

  /** Migration changes neither whether anything is configured nor the effective key. */
  lemma MigrationPreservesChecks(s: Settings)
    ensures HasAnyConfig(Migrated(s)) == HasAnyConfig(s)
    ensures EffectiveApiKey(Migrated(s)) == EffectiveApiKey(s)
  {
  }

  /**
   * After migration, a provider named alongside a top-level key is the one
   * matched, carrying that key, unless it already had a different usable one.
   */
  lemma MigratedProviderMatches(s: Settings)
    requires IsSet(s.apiKey) && IsSet(s.provider)
    requires var c := Find(s.providers, s.provider.value); c.None? || "api_key" !in c.value
    ensures var m := MatchProvider(Migrated(s));
      m.Some? && m.value.name == s.provider.value && m.value.config["api_key"] == Str(s.apiKey.value)
  {
    var name := s.provider.value;
    var ps := if Find(s.providers, name).None? then s.providers + [Provider(name, map[])] else s.providers;
    if Find(s.providers, name).None? {
      assert Names(ps) == Names(s.providers) + [name];
      assert forall j :: 0 <= j < |s.providers| ==> Names(s.providers)[j] == ps[j].name;
      FindFirst(ps, |s.providers|);
    }
    var c2 := MigratedConfig(Find(ps, name).value, s.apiKey.value, s.apiBase);
    var r := Replace(ps, name, c2);
    assert Migrated(s) == s.(providers := r);
    ReplaceFind(ps, name, c2);
    assert c2["api_key"] == Str(s.apiKey.value);
    assert HasKey(c2);
  }

  const ModelRequired := "VLM configuration requires 'model' to be set"
  const KeyRequired := "VLM configuration requires 'api_key' to be set"

  /** The checks of `validate_config` on already-migrated settings. */
  function CheckComplete(s: Settings): (r: Result<(), string>)
    ensures r.Success? <==> !HasAnyConfig(s) || (IsSet(s.model) && IsAvailable(s))
    ensures r.Failure? ==> r.error == (if !IsSet(s.model) then ModelRequired else KeyRequired)
  {
    if !HasAnyConfig(s) then Success(())
    else if !IsSet(s.model) then Failure(ModelRequired)
    else if EffectiveApiKey(s).None? then Failure(KeyRequired)
    else Success(())
  }

  /** A configuration with nothing set at all is valid. */
  lemma EmptyConfigIsValid(providers: seq<Provider>)
    requires forall i :: 0 <= i < |providers| ==> !HasKey(providers[i].config)
    ensures CheckComplete(Migrated(Settings(None, None, None, None, providers))).Success?
  {
  }

  /** Settings that pass the check and configure anything at all can be used. */
  lemma ValidConfigIsUsable(s: Settings)
    requires CheckComplete(Migrated(s)).Success? && HasAnyConfig(s)
    ensures IsSet(s.model) && IsAvailable(s)
  {
    MigrationPreservesChecks(s);
  }

  /** The credentials copied from a matched provider. */
  datatype Credentials = Credentials(apiKey: Value, apiBase: Value, extraHeaders: Value)

  /** The dictionary handed to the VLM factory. */
  datatype VlmConfigDict = VlmConfigDict(
    model: Option<string>, temperature: real, maxRetries: int, provider: Option<string>,
    thinking: bool, credentials: Option<Credentials>)

  /**
   * `_build_vlm_config_dict`: `provider` is always the matched name, and the
   * credentials appear only when a provider was matched.
   */
  function BuildVlmConfigDict(s: Settings, temperature: real, maxRetries: int, thinking: bool): (r: VlmConfigDict)
    ensures r.model == s.model && r.temperature == temperature && r.maxRetries == maxRetries && r.thinking == thinking
    ensures r.credentials.Some? <==> MatchProvider(s).Some?
    ensures r.provider.Some? <==> MatchProvider(s).Some?
    ensures MatchProvider(s).Some? ==>
      var m := MatchProvider(s).value;
      r.provider == Some(m.name) && Truthy(r.credentials.value.apiKey)
      && r.credentials.value.apiKey == Get(m.config, "api_key")
      && r.credentials.value.apiBase == Get(m.config, "api_base")
      && r.credentials.value.extraHeaders == Get(m.config, "extra_headers")
  {
    var m := MatchProvider(s);
    var credentials :=
      if m.Some? then Some(Credentials(Get(m.value.config, "api_key"), Get(m.value.config, "api_base"), Get(m.value.config, "extra_headers")))
      else None;
    VlmConfigDict(s.model, temperature, maxRetries, if m.Some? then Some(m.value.name) else None, thinking, credentials)
  }

  /** The configuration object, whose provider table the migration updates in place. */
  class VlmSettings {
    var model: Option<string>
    var apiKey: Option<string>
    var apiBase: Option<string>
    var provider: Option<string>
    var providers: seq<Provider>
    var temperature: real
    var maxRetries: int
    var thinking: bool

    /** Provider names are dictionary keys. */
    ghost predicate Valid()
      reads this
    {
      DistinctNames(providers)
    }

    function Snapshot(): Settings
      reads this
    {
      Settings(model, apiKey, apiBase, provider, providers)
    }

    /** The fields as given, with the defaults for temperature, retries and thinking. */
    constructor (model: Option<string>, apiKey: Option<string>, apiBase: Option<string>,
                 provider: Option<string>, providers: seq<Provider>)
      requires DistinctNames(providers)
      ensures Valid() && Snapshot() == Settings(model, apiKey, apiBase, provider, providers)
      ensures temperature == 0.0 && maxRetries == 2 && !thinking
    {
      this.model := model;
      this.apiKey := apiKey;
      this.apiBase := apiBase;
      this.provider := provider;
      this.providers := providers;
      temperature := 0.0;
      maxRetries := 2;
      thinking := false;
    }

    /** `_migrate_legacy_config`, updating the provider table in place. */
    method MigrateLegacyConfig()
      requires Valid()
      modifies this`providers
      ensures Valid()
      ensures Snapshot() == Migrated(old(Snapshot()))
    {
      MigratedShape(Snapshot());
      if IsSet(apiKey) && IsSet(provider) {
        var name := provider.value;
        if Find(providers, name).None? {
          providers := providers + [Provider(name, map[])];
        }
        var c := Find(providers, name).value;
        if "api_key" !in c {
          c := c["api_key" := Str(apiKey.value)];
        }
        if IsSet(apiBase) && "api_base" !in c {
          c := c["api_base" := Str(apiBase.value)];
        }
        providers := Replace(providers, name, c);
      }
    }

    /** `validate_config`: migrate, then require a model and a key when anything is configured. */
    method ValidateConfig() returns (r: Result<(), string>)
      requires Valid()
      modifies this`providers
      ensures Valid()
      ensures Snapshot() == Migrated(old(Snapshot()))
      ensures r == CheckComplete(Snapshot())
    {
      MigrateLegacyConfig();
      if HasAnyConfig(Snapshot()) {
        if !IsSet(model) {
          return Failure(ModelRequired);
        }
        if EffectiveApiKey(Snapshot()).None? {
          return Failure(KeyRequired);
        }
      }
      r := Success(());
    }

    /** `is_available`. */
    method IsAvailableNow() returns (available: bool)
      ensures available == IsAvailable(Snapshot())
    {
      available := EffectiveApiKey(Snapshot()).Some?;
    }
  }
}
