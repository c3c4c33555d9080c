/**
 * The exported configuration operations as a transition system over the
 * store, and what holds of every store they can reach.
 */
module Reachability {
  import opened Wrappers
  import opened ApiConfig
  import Municipalities

  /** One call of an exported operation that writes the store. */
  datatype Op =
    | SetManualApiUrl(url: string)
    | SetMunicipality(municipality: string)
    | ClearApiConfig

  /** The store after one operation; a rejected `setMunicipality` leaves it as it was. */
  function Step(s: Store, op: Op): Store
  {
    match op
    case SetManualApiUrl(url) => StoreAfterSetManualApiUrl(s, url)
    case SetMunicipality(m) =>
      (match StoreAfterSetMunicipality(s, m)
       case Success(t) => t
       case Failure(_) => s)
    case ClearApiConfig => StoreAfterClearApiConfig(s)
  }

  /** The store after a sequence of operations, first to last. */
  function Run(s: Store, ops: seq<Op>): Store
    decreases |ops|
  {
    if ops == [] then s else Run(Step(s, ops[0]), ops[1..])
  }

  /** No operation touches a key other than the three config keys. */
  lemma StepPreservesOthers(s: Store, op: Op)
    ensures SameOutsideConfig(s, Step(s, op))
  {
  }

  /** Every operation keeps the store consistent. */
  lemma StepPreservesConsistent(s: Store, op: Op)
    requires Consistent(s)
    ensures Consistent(Step(s, op))
  {
  }

  /** A run of operations keeps the store consistent and leaves foreign keys alone. */
  lemma {:induction false} RunPreservesConsistent(s: Store, ops: seq<Op>)
    requires Consistent(s)
    ensures Consistent(Run(s, ops)) && SameOutsideConfig(s, Run(s, ops))
    decreases |ops|
  {
    if ops != [] {
      StepPreservesConsistent(s, ops[0]);
      StepPreservesOthers(s, ops[0]);
      RunPreservesConsistent(Step(s, ops[0]), ops[1..]);
    }
  }

  /**
   * Starting from a store that holds none of the three config keys (a fresh
   * install, or one whose other keys belong to the rest of the app), every
   * reachable store stores only table codes, so `isApiConfigured` holds
   * exactly when `getApiUrl` resolves.
   */
  lemma ReachableConfiguredIffResolves(s0: Store, ops: seq<Op>)
    requires ConfigKeys !! s0.Keys
    ensures var s := Run(s0, ops);
      && (MunicipalityKey in s ==> s[MunicipalityKey] in Municipalities.AvailableMunicipalities())
      && ModesExclusive(s)
      && (IsApiConfigured(s) <==> GetApiUrl(s).Success?)
  {
    RunPreservesConsistent(s0, ops);
    ConsistentConfiguredIffResolves(Run(s0, ops));
  }

  /**
   * The two setters overwrite whatever mode came before: after any operation,
   * `setManualApiUrl(url)` gives the store it gives on its own.
   */
  lemma SetManualApiUrlOverrides(s: Store, op: Op, url: string)
    ensures Step(Step(s, op), SetManualApiUrl(url)) == Step(s, SetManualApiUrl(url))
  {
    StepPreservesOthers(s, op);
    SameConfigSameStore(Step(Step(s, op), SetManualApiUrl(url)), Step(s, SetManualApiUrl(url)));
  }

  /** After any operation, an accepted `setMunicipality(m)` gives the store it gives on its own. */
  lemma SetMunicipalityOverrides(s: Store, op: Op, m: string)
    requires m in Municipalities.AvailableMunicipalities()
    ensures Step(Step(s, op), SetMunicipality(m)) == Step(s, SetMunicipality(m))
  {
    StepPreservesOthers(s, op);
    SameConfigSameStore(Step(Step(s, op), SetMunicipality(m)), Step(s, SetMunicipality(m)));
  }

  /** After any operation, `clearApiConfig()` gives the store it gives on its own. */
  lemma ClearApiConfigOverrides(s: Store, op: Op)
    ensures Step(Step(s, op), ClearApiConfig) == Step(s, ClearApiConfig)
  {
    StepPreservesOthers(s, op);
  }
}
