# eBPLS mobile app: backend-endpoint configuration

The eBPLS (Electronic Business Permits and Licensing System) mobile app talks
to a remote backend. Which backend it talks to is kept on the device, in
the persistent key-value store (AsyncStorage), under three keys.
`app/utils/api.ts` reads that configuration and also offers setters for it.
The settings screen, `app/(tabs)/next.tsx`, does not call those setters: it
writes the same keys itself. The three keys are:

- `@ebpls_config_option`: the mode, `'manual'` or `'municipality'`;
- `@ebpls_manual_api`: a URL typed in by hand;
- `@ebpls_selected_municipality`: a municipality code.

A fixed table maps 40 municipality codes of Leyte to the base URL of that
municipality's backend. `setManualApiUrl` and `setMunicipality` each write
their own mode and remove the other mode's key. `setMunicipality` first
rejects a code that is not in the table. `clearApiConfig` removes all three
keys. `getApiUrl` resolves the stored configuration to a URL or to one of
five errors. `isApiConfigured` is a weaker check over the same keys.

This project models that component in Dafny and proves:

- what each setter leaves in the store;
- that the two modes exclude each other;
- that a rejected `setMunicipality` changes nothing;
- that no operation touches any other key;
- that the last setter wins;
- that on every store reachable through the setters of `app/utils/api.ts`, a
  stored code is a table key, and so `isApiConfigured` holds exactly when
  `getApiUrl` resolves.

That last result covers only those setters. A store written some other way
can break the equivalence, and the model shows how. The settings screen's
municipality save does this for one picker entry (see "## Findings").

Files:

- `wrappers.dfy`: `Option`, `Result` and `Outcome`.
- `municipalities.dfy` (module `Municipalities`): the table as an ordered
  list of entries, `getMunicipalityApiUrl` and `getAvailableMunicipalities`.
- `api_config.dfy` (module `ApiConfig`): the store as a `map<string,string>`,
  the readers `getApiUrl`, `isApiConfigured`, `getConfigType`,
  `getManualApiUrl` and `getSelectedMunicipality` as functions, and the effect
  of each setter as a function of the store before it.
- `reachability.dfy` (module `Reachability`): the setters as a transition
  system, and the invariant of every reachable store.
- `config_store.dfy` (module `ConfigStore`): the store as an object. Its
  methods rewrite the map one `setItem`/`removeItem` at a time, in the
  source's order, and are proved equal to the functions above.
  `ConfigureSession` is a usage example: a client session on a fresh device,
  whose outcomes follow from the methods' contracts alone.
- `settings_screen.dfy` (module `SettingsScreen`): the settings screen's
  municipality picker and its municipality save, which skips the table check.

JavaScript truthiness (`!x`) treats a missing key and an empty string alike.
`Truthy` models it.

## Model

| member | source | states |
|---|---|---|
| `Municipalities.Find` | app/utils/api.ts:8-49 | a code has an entry exactly when it is among the table's codes, and the value found is that entry's URL |
| `Municipalities.GetMunicipalityApiUrl` | app/utils/api.ts:213-215 | `getMunicipalityApiUrl(m)` is defined exactly when `m` is listed by `getAvailableMunicipalities()`; a URL it gives is non-empty, belongs to `m`'s entry, and `m` itself is non-empty |
| `Municipalities.TableEntriesNonEmpty` | app/utils/api.ts:8-49 | no code and no URL in the table is the empty string, so a table hit is always truthy |
| `Municipalities.AdjacentCodesAscend` | app/utils/api.ts:9-48 | each code of the table comes alphabetically strictly before the next one |
| `Municipalities.CodesDistinct` | app/utils/api.ts:8-49 | any two positions of the table hold different codes |
| `Municipalities.AllCodesDistinct` | app/utils/api.ts:8-49 | no code appears twice in the table |
| `Municipalities.AvailableMunicipalities` | app/utils/api.ts:221-223 | lists exactly 40 codes, pairwise distinct, each the code of the table entry at the same position |
| `ApiConfig.GetApiUrl` | app/utils/api.ts:56-85 | a returned URL is non-empty and is either the stored manual URL with the option `'manual'`, or the table URL of the stored code with the option `'municipality'` |
| `ApiConfig.GetApiUrlOutcomes` | app/utils/api.ts:60-85 | exact condition for each of the five errors (no option; manual without URL; municipality without code; code not in the table; any other option), the `setMunicipality` error never occurs, and success holds exactly in the two remaining cases |
| `ApiConfig.IsApiConfigured` | app/utils/api.ts:173-186 | a store counts as configured exactly when `getApiUrl` resolves it or fails with "API URL not found"; in that failing case the stored municipality code is not in the table |
| `ApiConfig.GetConfigType` | app/utils/api.ts:133-136 | when it is null, `getApiUrl` fails with "configuration not set" and nothing counts as configured; when the API counts as configured, it is `'manual'` or `'municipality'` |
| `ApiConfig.GetManualApiUrl` | app/utils/api.ts:160-162 | in manual mode, a URL that `getApiUrl` returns is exactly this stored value |
| `ApiConfig.GetSelectedMunicipality` | app/utils/api.ts:147-149 | in municipality mode, when `getApiUrl` resolves, a code is stored and the resolved URL is that code's table URL |
| `ApiConfig.StoreAfterSetManualApiUrl` | app/utils/api.ts:96-100 | after `setManualApiUrl(u)`: option `'manual'`, manual URL `u`, no municipality, other keys unchanged; `getApiUrl` gives `u` if `u` is non-empty and "manual URL not configured" if it is empty; `isApiConfigured` is `u != ""` |
| `ApiConfig.StoreAfterSetMunicipality` | app/utils/api.ts:112-120 | `setMunicipality(m)` fails with "invalid municipality" exactly when `m` is not a table code; otherwise the option is `'municipality'`, the code is `m`, there is no manual URL, other keys are unchanged, and `getApiUrl` returns `m`'s table URL |
| `ApiConfig.StoreAfterClearApiConfig` | app/utils/api.ts:196-200 | after `clearApiConfig()` none of the three keys is present, other keys are unchanged, `getConfigType` is null, `isApiConfigured` is false and `getApiUrl` fails with "configuration not set" |
| `ApiConfig.ClearIsIdempotent` | app/utils/api.ts:196-200 | clearing twice gives the same store as clearing once |
| `ApiConfig.ConsistentConfiguredIffResolves` | app/utils/api.ts:173-186 | on a store where the modes exclude each other and any stored code is a table key, `isApiConfigured` holds exactly when `getApiUrl` resolves |
| `ApiConfig.UnknownMunicipalityConfiguredButUnresolved` | app/utils/api.ts:78-80 | the two-key store `map[OptionKey := "municipality", MunicipalityKey := code]`, for a non-empty `code` missing from the table, counts as configured but fails with "API URL not found"; it is not consistent |
| `Reachability.StepPreservesOthers` | app/utils/api.ts:98-200 | no setter and no clear touches a key other than the three config keys |
| `Reachability.StepPreservesConsistent` | app/utils/api.ts:114-120 | every operation, including a rejected `setMunicipality`, keeps the store consistent |
| `Reachability.RunPreservesConsistent` | app/utils/api.ts:98-200 | any sequence of operations keeps a consistent store consistent and leaves the other keys alone |
| `Reachability.ReachableConfiguredIffResolves` | app/utils/api.ts:173-186 | on every store reached from one without config keys, modes exclude each other, any stored code is a table key, and `isApiConfigured` holds exactly when `getApiUrl` resolves |
| `Reachability.SetManualApiUrlOverrides` | app/utils/api.ts:98-100 | after any operation, `setManualApiUrl(u)` gives the same store as on its own |
| `Reachability.SetMunicipalityOverrides` | app/utils/api.ts:118-120 | after any operation, an accepted `setMunicipality(m)` gives the same store as on its own |
| `Reachability.ClearApiConfigOverrides` | app/utils/api.ts:198-200 | after any operation, `clearApiConfig()` gives the same store as on its own |
| `ConfigStore.ApiConfigStore.SetManualApiUrl` | app/utils/api.ts:96-100 | the three in-place writes leave exactly the store described by `StoreAfterSetManualApiUrl`; the store is consistent afterwards, so `isApiConfigured` holds exactly when `getApiUrl` resolves |
| `ConfigStore.ApiConfigStore.SetMunicipality` | app/utils/api.ts:112-120 | an unknown code is rejected with "invalid municipality" and the store is unchanged; otherwise the store becomes the one `StoreAfterSetMunicipality` describes; consistency is preserved, and on a consistent store `isApiConfigured` holds exactly when `getApiUrl` resolves |
| `ConfigStore.ApiConfigStore.ClearApiConfig` | app/utils/api.ts:196-200 | the three removals leave exactly the store described by `StoreAfterClearApiConfig`, which is consistent, not configured, and does not resolve |

## Left out

- AsyncStorage failures: the `catch` branches that log and rethrow, or that return null or false, are not modelled. The store is a map whose reads and writes always succeed.
- Console logging is not modelled.
- Each setter runs as one atomic step. The interleaving of other code between its awaited `setItem`/`removeItem` calls is concurrency and is not modelled.
- `Municipalities.GetMunicipalityApiUrl`: the table is a plain list of entries, and a lookup takes the first entry with the code. JavaScript object lookups also see inherited properties (`MUNICIPALITY_APIS['toString']` is truthy), so `setMunicipality('toString')` is accepted by the source. The model rejects it.
- `ApiConfig.GetConfigType`: the source casts the stored option to `'manual' | 'municipality' | null` without checking it. The model returns the stored string as it is, and proves it is one of the two modes only when the API counts as configured.
- The settings screen `app/(tabs)/next.tsx` is modelled only in its municipality picker and municipality save. Its manual save (lines 137-140) and reset (lines 209-212) write the three keys directly, not through the setters, and are not modelled. So the reachability results cover only stores written by the setters of `app/utils/api.ts`.
- `SettingsScreen.SaveMunicipality`: the extra `API_URL` key that each settings-screen save also writes is not modelled, and neither is the screen's own copy of the table. The save is modelled as completing even for a code without a table URL; the two keys `getApiUrl` reads are written before that point either way.
- `utils/api.ts` is not part of this model. It is a separate thin wrapper over one storage key, with a `''` default and no logic.
- `app/contexts/AuthContext.tsx` (React state and HTTP calls), `app/_layout.tsx` (navigation) and `app.config.js` (build settings) are not part of this model.
- The cascading address selection (region, province, municipality, barangay), the "same as" address mirroring and the edit-mode preloader are not part of this model. Their source is not among the modelled files.

## Findings

| source | as written | input that shows it | evidently intended | confidence | as-written member | corrected member |
|---|---|---|---|---|---|---|
| app/(tabs)/next.tsx:358 | the "Santa Fe" picker item has value `"stafe"`, which the settings screen stores as the municipality code with no table check | choose "Santa Fe" and save: `isApiConfigured` is true, so the app passes its configuration gate, yet every `getApiUrl` fails with "API URL not found" | the table's code `"santafe"` (app/utils/api.ts:43) | high; not executed | `SettingsScreen.SantaFePickerValueUnresolved` | `SettingsScreen.CorrectedPickerSaveResolves` |

The settings-screen members behind this row:

- `SettingsScreen.SaveMunicipality` (app/(tabs)/next.tsx:162-175): an empty selection writes nothing; any other code is stored as it is, with option `'municipality'`, no manual URL and other keys unchanged; the result is consistent exactly when the code is a table code, and then it equals the store `setMunicipality` leaves.
- `SettingsScreen.SantaFePickerValueUnresolved` (app/(tabs)/next.tsx:358): the "Santa Fe" picker entry stores `"stafe"`, which is not a table code (`"santafe"` is); saving it gives a store that counts as configured, but `getApiUrl` on it fails with "API URL not found".
- `SettingsScreen.CorrectedPickerIsTable` (app/(tabs)/next.tsx:324-363): with Santa Fe stored as `"santafe"`, the picker offers exactly the table's codes, in the table's order.
- `SettingsScreen.CorrectedPickerSaveResolves` (app/(tabs)/next.tsx:170-175): with the corrected picker, every choice saved equals the store `setMunicipality` leaves: consistent, configured, and resolving to that code's table URL.
