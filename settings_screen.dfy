/**
 * The app's settings screen, which writes the three config keys itself
 * rather than through the setters of the configuration module. Only its
 * municipality save is modelled here, because that is where it differs:
 * it stores whatever the municipality picker holds, with no table check.
 */
module SettingsScreen {
  import opened Wrappers
  import opened ApiConfig
  import Municipalities
  import Reachability

  /** The values of the municipality picker, in order, as written (the placeholder "" left out). */
  const PickerValues: seq<string> := [
    "abuyog", "alangalang", "albuera", "babatngon", "barugo",
    "bato", "baybay", "burauen", "calubian", "capoocan",
    "carigara", "dagami", "dulag", "hilongos", "hindang",
    "inopacan", "isabel", "jaro", "javier", "julita",
    "kananga", "lapaz", "leyte", "macarthur", "mahaplag",
    "matagob", "matalom", "mayorga", "merida", "palo",
    "palompon", "pastrana", "sanisidro", "sanmiguel", "stafe",
    "tabango", "tanauan", "tolosa", "tunga", "villaba"
  ]

  /** The position of the "Santa Fe" item in the picker. */
  const SantaFeIndex := 34

  /** The picker as evidently intended: Santa Fe stored under its table code. */
  const CorrectedPickerValues: seq<string> := PickerValues[SantaFeIndex := "santafe"]

  /**
   * The store after the screen saves a municipality. An empty selection is
   * refused and nothing is written; any other code is stored as it is, with
   * the option and the manual URL removed, and no check against the table.
   * The result is consistent exactly when the code is a table code, and then
   * it is the store `setMunicipality` leaves.
   */
  function SaveMunicipality(s: Store, code: string): (t: Store)
    ensures code == "" ==> t == s
    ensures code != "" ==>
      && GetConfigType(t) == Some(MunicipalityOption)
      && GetSelectedMunicipality(t) == Some(code)
      && GetManualApiUrl(t) == None
      && SameOutsideConfig(s, t)
      && (Consistent(t) <==> code in Municipalities.AvailableMunicipalities())
    ensures code in Municipalities.AvailableMunicipalities() ==>
      t == Reachability.Step(s, Reachability.SetMunicipality(code))
  {
    if code == "" then
      s
    else
      var t := MunicipalityStore(s, code);
      MunicipalityStoreReads(s, code);
      if code in Municipalities.AvailableMunicipalities() then
        SameConfigSameStore(t, Reachability.Step(s, Reachability.SetMunicipality(code)));
        t
      else
        t
  }

  /**
   * As written, choosing "Santa Fe" stores "stafe", which is not a table code
   * ("santafe" is): the app then counts as configured, yet every `getApiUrl`
   * fails with "API URL not found".
   */
  lemma SantaFePickerValueUnresolved(s: Store)
    ensures PickerValues[SantaFeIndex] == "stafe"
    ensures "stafe" !in Municipalities.AvailableMunicipalities()
    ensures "santafe" in Municipalities.AvailableMunicipalities()
    ensures var t := SaveMunicipality(s, PickerValues[SantaFeIndex]);
      && !Consistent(t)
      && IsApiConfigured(t)
      && GetApiUrl(t) == Failure(ApiUrlNotFound("stafe"))
  {
    assert Municipalities.Entries[SantaFeIndex].0 == "santafe";
  }

  /** With Santa Fe corrected, the picker offers exactly the table's codes, in the table's order. */
  lemma {:induction false} CorrectedPickerIsTable()
    ensures CorrectedPickerValues == Municipalities.AvailableMunicipalities()
  {
    var codes := Municipalities.AvailableMunicipalities();
    forall i | 0 <= i < |codes|
      ensures CorrectedPickerValues[i] == codes[i]
    {
      assert codes[i] == Municipalities.Entries[i].0;
    }
  }

  /**
   * With the corrected picker, every choice the screen saves is the store
   * `setMunicipality` would leave: consistent, configured, and resolving to
   * the chosen code's table URL.
   */
  lemma CorrectedPickerSaveResolves(s: Store, i: nat)
    requires i < |CorrectedPickerValues|
    ensures var code := CorrectedPickerValues[i];
      var t := SaveMunicipality(s, code);
      && t == Reachability.Step(s, Reachability.SetMunicipality(code))
      && Consistent(t)
      && IsApiConfigured(t)
      && GetApiUrl(t) == Success(Municipalities.GetMunicipalityApiUrl(code).value)
  {
    CorrectedPickerIsTable();
    var code := CorrectedPickerValues[i];
    assert code in Municipalities.AvailableMunicipalities();
  }
}
