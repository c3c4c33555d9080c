/**
 * The persistent store as the app sees it: one object whose contents the
 * three exported setters rewrite in place, one `setItem`/`removeItem` at a
 * time, in the order the source issues them.
 */
module ConfigStore {
  import opened Wrappers
  import opened ApiConfig
  import Municipalities
  import Reachability

  class ApiConfigStore {
    /** Every key the app has stored, with its value. */
    var store: Store

    /** The store holds a configuration the setters can produce. */
    ghost predicate Valid()
      reads this
    {
      Consistent(store)
    }

    /** The store as it is found on the device; it may hold keys of the rest of the app. */
    constructor (initial: Store)
      ensures store == initial
      ensures ConfigKeys !! initial.Keys ==> Valid()
    {
      store := initial;
    }

    /** `setManualApiUrl(url)`: manual mode with `url`, and the municipality removed. */
    method SetManualApiUrl(url: string)
      modifies this
      ensures store == StoreAfterSetManualApiUrl(old(store), url)
      ensures store == Reachability.Step(old(store), Reachability.SetManualApiUrl(url))
      ensures Valid()
      ensures IsApiConfigured(store) <==> GetApiUrl(store).Success?
    {
      store := store[OptionKey := ManualOption];
      store := store[ManualApiKey := url];
      store := store - {MunicipalityKey};
      ConsistentConfiguredIffResolves(store);
    }

    /**
     * `setMunicipality(municipality)`: rejects a code that is not in the table
     * before writing anything; otherwise municipality mode with that code,
     * and the manual URL removed.
     */
    method SetMunicipality(municipality: string) returns (outcome: Outcome<ApiError>)
      modifies this
      ensures outcome.Fail? <==> municipality !in Municipalities.AvailableMunicipalities()
      ensures outcome.Fail? ==>
        outcome.error == InvalidMunicipality(municipality) && store == old(store)
      ensures outcome.Pass? ==> store == StoreAfterSetMunicipality(old(store), municipality).value
      ensures store == Reachability.Step(old(store), Reachability.SetMunicipality(municipality))
      ensures old(Valid()) ==> Valid()
      ensures old(Valid()) ==> (IsApiConfigured(store) <==> GetApiUrl(store).Success?)
    {
      if !Truthy(Municipalities.GetMunicipalityApiUrl(municipality)) {
        if Consistent(store) {
          ConsistentConfiguredIffResolves(store);
        }
        return Fail(InvalidMunicipality(municipality));
      }
      store := store[OptionKey := MunicipalityOption];
      store := store[MunicipalityKey := municipality];
      store := store - {ManualApiKey};
      outcome := Pass;
      ConsistentConfiguredIffResolves(store);
    }

    /** `clearApiConfig()`: removes the three config keys and nothing else. */
    method ClearApiConfig()
      modifies this
      ensures store == StoreAfterClearApiConfig(old(store))
      ensures store == Reachability.Step(old(store), Reachability.ClearApiConfig)
      ensures Valid()
      ensures !IsApiConfigured(store) && GetApiUrl(store).Failure?
    {
      store := store - {OptionKey};
      store := store - {ManualApiKey};
      store := store - {MunicipalityKey};
    }
  }

  /**
   * A session on a fresh device: choosing a municipality, then switching to
   * a manual URL, then clearing; what `getApiUrl` and `isApiConfigured`
   * report after each step follows from the contracts alone.
   */
  method ConfigureSession(code: string, url: string)
    requires code in Municipalities.AvailableMunicipalities() && url != ""
  {
    var device := new ApiConfigStore(map[]);
    var outcome := device.SetMunicipality(code);
    assert outcome == Pass;
    assert GetApiUrl(device.store) == Success(Municipalities.GetMunicipalityApiUrl(code).value);
    device.SetManualApiUrl(url);
    assert GetApiUrl(device.store) == Success(url);
    assert GetSelectedMunicipality(device.store) == None;
    var rejected := device.SetMunicipality("");
    assert rejected == Fail(InvalidMunicipality(""));
    assert GetApiUrl(device.store) == Success(url);
    device.ClearApiConfig();
    assert !IsApiConfigured(device.store) && GetConfigType(device.store) == None;
    assert device.store == map[];
  }
}
