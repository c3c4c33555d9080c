/**
 * The backend-endpoint configuration kept in the app's persistent key-value
 * store: three keys (the chosen option, a manual URL, a municipality code),
 * the resolver `getApiUrl`, the weaker check `isApiConfigured`, the plain
 * readers, and the effect of each setter on the store as a function of the
 * store before it.
 */
module ApiConfig {
  import opened Wrappers
  import Municipalities

  /** The persistent key-value store (AsyncStorage), as a finite map. */
  type Store = map<string, string>

  const OptionKey := "@ebpls_config_option"
  const ManualApiKey := "@ebpls_manual_api"
  const MunicipalityKey := "@ebpls_selected_municipality"
  const ConfigKeys: set<string> := {OptionKey, ManualApiKey, MunicipalityKey}

  /** The two values of the option key that select a mode. */
  const ManualOption := "manual"
  const MunicipalityOption := "municipality"

  /** `AsyncStorage.getItem`: the stored string, or null when the key is absent. */
  function GetItem(s: Store, key: string): Option<string>
  {
    if key in s then Some(s[key]) else None
  }

  /** JavaScript truthiness of a value read from the store: null and "" are falsy. */
  predicate Truthy(v: Option<string>)
  {
    v.Some? && v.value != ""
  }

  /** The errors thrown by `getApiUrl` and `setMunicipality`. */
  datatype ApiError =
    | ConfigurationNotSet
    | ManualUrlNotConfigured
    | MunicipalityNotSelected
    | ApiUrlNotFound(municipality: string)
    | InvalidConfigurationOption
    | InvalidMunicipality(municipality: string)

  /** The manual URL and the municipality code are never stored together. */
  predicate ModesExclusive(s: Store)
  {
    !(ManualApiKey in s && MunicipalityKey in s)
  }

  /** `t` agrees with `s` on every key that is not one of the three config keys. */
  predicate SameOutsideConfig(s: Store, t: Store)
  {
    s - ConfigKeys == t - ConfigKeys
  }

  /**
   * `getApiUrl`: the backend URL selected by the stored configuration.
   * A URL it returns is never empty, and it is either the stored manual URL
   * (manual mode) or the table's URL for the stored code (municipality mode).
   */
  function GetApiUrl(s: Store): (r: Result<string, ApiError>)
    ensures r.Success? ==> r.value != ""
    ensures r.Success? ==>
      || (GetItem(s, OptionKey) == Some(ManualOption) && GetItem(s, ManualApiKey) == Some(r.value))
      || (GetItem(s, OptionKey) == Some(MunicipalityOption) && MunicipalityKey in s &&
          Municipalities.GetMunicipalityApiUrl(s[MunicipalityKey]) == Some(r.value))
  {
    var option := GetItem(s, OptionKey);
    if !Truthy(option) then Failure(ConfigurationNotSet)
    else if option.value == ManualOption then
      var manualApi := GetItem(s, ManualApiKey);
      if !Truthy(manualApi) then Failure(ManualUrlNotConfigured) else Success(manualApi.value)
    else if option.value == MunicipalityOption then
      var municipality := GetItem(s, MunicipalityKey);
      if !Truthy(municipality) then Failure(MunicipalityNotSelected)
      else
        var apiUrl := Municipalities.GetMunicipalityApiUrl(municipality.value);
        if !Truthy(apiUrl) then Failure(ApiUrlNotFound(municipality.value)) else Success(apiUrl.value)
    else Failure(InvalidConfigurationOption)
  }

  /**
   * `isApiConfigured`: a weaker check than `getApiUrl`. A store counts as
   * configured exactly when it resolves or holds, in municipality mode, a
   * non-empty code missing from the table.
   */
  function IsApiConfigured(s: Store): (b: bool)
    ensures GetApiUrl(s).Success? ==> b
    ensures b && GetApiUrl(s).Failure? ==>
      MunicipalityKey in s && GetApiUrl(s).error == ApiUrlNotFound(s[MunicipalityKey]) &&
      Municipalities.GetMunicipalityApiUrl(s[MunicipalityKey]).None?
    ensures GetApiUrl(s).Failure? && GetApiUrl(s).error.ApiUrlNotFound? ==> b
    ensures b <==> GetApiUrl(s).Success? || GetApiUrl(s).error.ApiUrlNotFound?
  {
    var option := GetItem(s, OptionKey);
    if !Truthy(option) then false
    else if option.value == ManualOption then Truthy(GetItem(s, ManualApiKey))
    else if option.value == MunicipalityOption then Truthy(GetItem(s, MunicipalityKey))
    else false
  }

  /**
   * `getConfigType`: the stored option as it is, or null. When it is null
   * nothing resolves; when the API counts as configured it names a mode.
   */
  function GetConfigType(s: Store): (r: Option<string>)
    ensures r.None? ==> GetApiUrl(s) == Failure(ConfigurationNotSet) && !IsApiConfigured(s)
    ensures IsApiConfigured(s) ==> r == Some(ManualOption) || r == Some(MunicipalityOption)
  {
    GetItem(s, OptionKey)
  }

  /** `getManualApiUrl`: in manual mode a resolved URL is exactly this value. */
  function GetManualApiUrl(s: Store): (r: Option<string>)
    ensures GetConfigType(s) == Some(ManualOption) && GetApiUrl(s).Success? ==>
      r == Some(GetApiUrl(s).value)
  {
    GetItem(s, ManualApiKey)
  }

  /** `getSelectedMunicipality`: in municipality mode a resolved URL is this code's table URL. */
  function GetSelectedMunicipality(s: Store): (r: Option<string>)
    ensures GetConfigType(s) == Some(MunicipalityOption) && GetApiUrl(s).Success? ==>
      r.Some? && Municipalities.GetMunicipalityApiUrl(r.value) == Some(GetApiUrl(s).value)
  {
    GetItem(s, MunicipalityKey)
  }

  /**
   * The five ways `getApiUrl` fails, each exactly characterised, and the
   * one way it succeeds.
   */
  lemma GetApiUrlOutcomes(s: Store)
    ensures var option := GetItem(s, OptionKey);
      && (GetApiUrl(s) == Failure(ConfigurationNotSet) <==> !Truthy(option))
      && (GetApiUrl(s) == Failure(ManualUrlNotConfigured) <==>
            option == Some(ManualOption) && !Truthy(GetItem(s, ManualApiKey)))
      && (GetApiUrl(s) == Failure(MunicipalityNotSelected) <==>
            option == Some(MunicipalityOption) && !Truthy(GetItem(s, MunicipalityKey)))
      && (GetApiUrl(s).Failure? && GetApiUrl(s).error.ApiUrlNotFound? <==>
            && option == Some(MunicipalityOption) && Truthy(GetItem(s, MunicipalityKey))
            && s[MunicipalityKey] !in Municipalities.AvailableMunicipalities())
      && (GetApiUrl(s) == Failure(InvalidConfigurationOption) <==>
            Truthy(option) && option.value != ManualOption && option.value != MunicipalityOption)
      && (GetApiUrl(s).Failure? ==> !GetApiUrl(s).error.InvalidMunicipality?)
      && (GetApiUrl(s).Success? <==>
            || (option == Some(ManualOption) && Truthy(GetItem(s, ManualApiKey)))
            || (&& option == Some(MunicipalityOption) && Truthy(GetItem(s, MunicipalityKey))
                && s[MunicipalityKey] in Municipalities.AvailableMunicipalities()))
  {
  }

  /** The three config keys are three different keys. */
  lemma ConfigKeysDistinct()
    ensures OptionKey != ManualApiKey && OptionKey != MunicipalityKey && ManualApiKey != MunicipalityKey
  {
  }

  /** Writing one of the config keys leaves every other key as it was. */
  lemma SetItemKeepsOthers(s: Store, key: string, value: string)
    requires key in ConfigKeys
    ensures SameOutsideConfig(s, s[key := value])
  {
    assert s[key := value] - ConfigKeys == s - ConfigKeys;
  }

  /** Removing one of the config keys leaves every other key as it was. */
  lemma RemoveItemKeepsOthers(s: Store, key: string)
    requires key in ConfigKeys
    ensures SameOutsideConfig(s, s - {key})
  {
    assert s - {key} - ConfigKeys == s - ConfigKeys;
  }

  /** A store is determined by its three config entries and everything else. */
  lemma {:induction false} SameConfigSameStore(a: Store, b: Store)
    requires SameOutsideConfig(a, b)
    requires GetItem(a, OptionKey) == GetItem(b, OptionKey)
    requires GetItem(a, ManualApiKey) == GetItem(b, ManualApiKey)
    requires GetItem(a, MunicipalityKey) == GetItem(b, MunicipalityKey)
    ensures a == b
  {
    forall k | k in ConfigKeys
      ensures GetItem(a, k) == GetItem(b, k)
    {
    }
    forall k
      ensures (k in a <==> k in b) && (k in a ==> a[k] == b[k])
    {
      if k !in ConfigKeys {
        assert GetItem(a - ConfigKeys, k) == GetItem(b - ConfigKeys, k);
      } else {
        assert GetItem(a, k) == GetItem(b, k);
      }
    }
  }

  /**
   * The store after `setManualApiUrl(url)`: manual mode with `url`, no
   * municipality, every other key as before; it resolves to `url` exactly
   * when `url` is not empty.
   */
  function StoreAfterSetManualApiUrl(s: Store, url: string): (t: Store)
    ensures GetConfigType(t) == Some(ManualOption)
    ensures GetManualApiUrl(t) == Some(url)
    ensures GetSelectedMunicipality(t) == None
    ensures GetApiUrl(t) == if url == "" then Failure(ManualUrlNotConfigured) else Success(url)
    ensures IsApiConfigured(t) == (url != "")
    ensures ModesExclusive(t) && SameOutsideConfig(s, t)
  {
    ConfigKeysDistinct();
    var s1 := s[OptionKey := ManualOption];
    var s2 := s1[ManualApiKey := url];
    SetItemKeepsOthers(s, OptionKey, ManualOption);
    SetItemKeepsOthers(s1, ManualApiKey, url);
    RemoveItemKeepsOthers(s2, MunicipalityKey);
    s2 - {MunicipalityKey}
  }

  /**
   * The store after `setMunicipality(municipality)`: an error and no store
   * when the code is not in the table; otherwise municipality mode with that
   * code, no manual URL, every other key as before, and it resolves to the
   * table's URL for the code.
   */
  function StoreAfterSetMunicipality(s: Store, municipality: string): (r: Result<Store, ApiError>)
    ensures r.Failure? <==> municipality !in Municipalities.AvailableMunicipalities()
    ensures r.Failure? ==> r.error == InvalidMunicipality(municipality)
    ensures r.Success? ==>
      && GetConfigType(r.value) == Some(MunicipalityOption)
      && GetSelectedMunicipality(r.value) == Some(municipality)
      && GetManualApiUrl(r.value) == None
      && GetApiUrl(r.value) == Success(Municipalities.GetMunicipalityApiUrl(municipality).value)
      && IsApiConfigured(r.value)
      && ModesExclusive(r.value) && SameOutsideConfig(s, r.value)
  {
    if !Truthy(Municipalities.GetMunicipalityApiUrl(municipality)) then
      Failure(InvalidMunicipality(municipality))
    else
      MunicipalityStoreReads(s, municipality);
      Success(MunicipalityStore(s, municipality))
  }

  /** The three writes of municipality mode with `code`, checked or not. */
  function MunicipalityStore(s: Store, code: string): Store
  {
    s[OptionKey := MunicipalityOption][MunicipalityKey := code] - {ManualApiKey}
  }

  /** What the readers see on a municipality-mode store. */
  lemma MunicipalityStoreReads(s: Store, code: string)
    ensures var t := MunicipalityStore(s, code);
      && GetItem(t, OptionKey) == Some(MunicipalityOption)
      && GetItem(t, MunicipalityKey) == Some(code)
      && GetItem(t, ManualApiKey) == None
      && ModesExclusive(t) && SameOutsideConfig(s, t)
  {
    ConfigKeysDistinct();
    var s1 := s[OptionKey := MunicipalityOption];
    var s2 := s1[MunicipalityKey := code];
    SetItemKeepsOthers(s, OptionKey, MunicipalityOption);
    SetItemKeepsOthers(s1, MunicipalityKey, code);
    RemoveItemKeepsOthers(s2, ManualApiKey);
  }

  /**
   * The store after `clearApiConfig()`: none of the three keys, every other
   * key as before; nothing is configured and nothing resolves.
   */
  function StoreAfterClearApiConfig(s: Store): (t: Store)
    ensures ConfigKeys !! t.Keys && SameOutsideConfig(s, t)
    ensures GetConfigType(t) == None
    ensures !IsApiConfigured(t)
    ensures GetApiUrl(t) == Failure(ConfigurationNotSet)
  {
    s - ConfigKeys
  }

  /** Clearing twice leaves the same store as clearing once. */
  lemma ClearIsIdempotent(s: Store)
    ensures StoreAfterClearApiConfig(StoreAfterClearApiConfig(s)) == StoreAfterClearApiConfig(s)
  {
  }

  /**
   * The invariant of every store the setters can produce: the two modes
   * exclude each other and a stored municipality code is a table key.
   */
  predicate Consistent(s: Store)
  {
    && ModesExclusive(s)
    && (MunicipalityKey in s ==> s[MunicipalityKey] in Municipalities.AvailableMunicipalities())
  }

  /** On a consistent store `isApiConfigured` holds exactly when `getApiUrl` resolves. */
  lemma ConsistentConfiguredIffResolves(s: Store)
    requires Consistent(s)
    ensures IsApiConfigured(s) <==> GetApiUrl(s).Success?
  {
  }

  /**
   * On an arbitrary store the equivalence fails: a stored code that is not
   * in the table counts as configured but does not resolve.
   */
  lemma UnknownMunicipalityConfiguredButUnresolved(code: string)
    requires code != "" && code !in Municipalities.AvailableMunicipalities()
    ensures var s := map[OptionKey := MunicipalityOption, MunicipalityKey := code];
      && !Consistent(s)
      && IsApiConfigured(s)
      && GetApiUrl(s) == Failure(ApiUrlNotFound(code))
  {
    ConfigKeysDistinct();
  }
}
