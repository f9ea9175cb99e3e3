/** The process-wide feature-gate registry of the operator: every gate is
    declared once at start-up under a unique key, and gates that are not
    static may later be switched on by key. */
module FeatureGates {

  /** One gate. The Go registry stores pointers to gates; here the registry
      stores gate values and every reader looks a gate up by its key. */
  datatype FeatureGate = FeatureGate(key: string, enabled: bool, isStatic: bool, description: string)
  {
    /** The accessors hand back the stored fields as they are. */
    function Key(): (k: string) ensures k == key { key }
    function Enabled(): (on: bool) ensures on == enabled { enabled }
    function Description(): (d: string) ensures d == description { description }
  }

  // Keys of the declared gates, named after the package variables that hold them.
  const StoreUpgrade: string := "StoreUpgrade"
  const StoreDynamicConfig: string := "StoreDynamicConfig"
  const AutoDataRebalance: string := "AutoDataRebalance"
  const WaitDrainedNodeToBeOffline: string := "WaitDrainedNodeToBeOffline"
  const EnableGalaxyClusterMode: string := "EnableGalaxyCluster"
  const EnforceQoSGuaranteed: string := "EnforceQoSGuaranteed"
  const ResetTrustIpsBeforeStart: string := "ResetTrustIpsBeforeStart"
  const EnableXStoreWithHeadlessService: string := "EnableXStoreWithHeadlessService"

  // Their descriptions.
  const StoreUpgradeDescription: string := "Enable store upgrading."
  const StoreDynamicConfigDescription: string := "Enable dynamic config updating on stores."
  const AutoDataRebalanceDescription: string := "Rebalance data automatically when scaling."
  const WaitDrainedNodeToBeOfflineDescription: string := "Enable waiting until drained nodes are marked offline when no CDC nodes found."
  const EnableGalaxyClusterModeDescription: string := "Enable cluster mode on galaxy store engine."
  const EnforceQoSGuaranteedDescription: string := "Enforce pod's QoS to Guaranteed."
  const ResetTrustIpsBeforeStartDescription: string := "Reset trust ips in CNs to avoid security problems."
  const EnableXStoreWithHeadlessServiceDescription: string := "Use headless services for pods in xstore."

  /** The gates the operator declares at start-up, in declaration order. */
  const Declarations: seq<FeatureGate> := [
    FeatureGate(StoreUpgrade, false, true, StoreUpgradeDescription),
    FeatureGate(StoreDynamicConfig, false, true, StoreDynamicConfigDescription),
    FeatureGate(AutoDataRebalance, true, true, AutoDataRebalanceDescription),
    FeatureGate(WaitDrainedNodeToBeOffline, true, true, WaitDrainedNodeToBeOfflineDescription),
    FeatureGate(EnableGalaxyClusterMode, false, true, EnableGalaxyClusterModeDescription),
    FeatureGate(EnforceQoSGuaranteed, false, false, EnforceQoSGuaranteedDescription),
    FeatureGate(ResetTrustIpsBeforeStart, false, true, ResetTrustIpsBeforeStartDescription),
    FeatureGate(EnableXStoreWithHeadlessService, true, false, EnableXStoreWithHeadlessServiceDescription)
  ]

  /** No two gates share a key. */
  predicate DistinctKeys(gates: seq<FeatureGate>)
  {
    forall i, j :: 0 <= i < j < |gates| ==> gates[i].key != gates[j].key
  }

  /** Every entry is filed under its own key. */
  predicate WellKeyed(store: map<string, FeatureGate>)
  {
    forall k {:trigger store[k]} :: k in store ==> store[k].key == k
  }

  /** The store after enabling the gates named in `keys`, one key after the
      other: a key that names a known gate that is not static switches it on;
      any other key is ignored. */
  function EnabledBy(store: map<string, FeatureGate>, keys: seq<string>): (r: map<string, FeatureGate>)
    ensures r.Keys == store.Keys
    // only the enabled bit of a gate can change, and only from off to on
    ensures forall k :: k in store ==>
              r[k] == store[k].(enabled := r[k].enabled) && (store[k].enabled ==> r[k].enabled)
    // a static gate never changes
    ensures forall k :: k in store && store[k].isStatic ==> r[k] == store[k]
    // a gate that is not named stays as it was
    ensures forall k :: k in store && k !in keys ==> r[k] == store[k]
    // every named gate that is not static ends up enabled
    ensures forall k :: k in store && k in keys && !store[k].isStatic ==> r[k].enabled
    decreases |keys|
  {
    if keys == [] then store
    else
      var done := EnabledBy(store, keys[..|keys| - 1]);
      var key := keys[|keys| - 1];
      assert forall k :: k in keys <==> k in keys[..|keys| - 1] || k == key;
      if key in done && !done[key].isStatic then done[key := done[key].(enabled := true)] else done
  }

  /** Enabling the same list twice is the same as enabling it once. */
  lemma EnableTwiceIsOnce(store: map<string, FeatureGate>, keys: seq<string>)
    ensures EnabledBy(EnabledBy(store, keys), keys) == EnabledBy(store, keys)
  {
  }

  /** The registry: the Go package variable `featureGateStore`. */
  class Registry {
    var store: map<string, FeatureGate>

    ghost predicate Valid()
      reads this
    {
      WellKeyed(store)
    }

    /** Package initialisation: the gates of `Declarations` are declared one
        after the other. */
    constructor ()
      ensures Valid()
      ensures forall i :: 0 <= i < |Declarations| ==> Declarations[i].key in store && store[Declarations[i].key] == Declarations[i]
      ensures store.Keys == set i | 0 <= i < |Declarations| :: Declarations[i].key
    {
      store := map[];
      new;
      DeclarationsHaveDistinctKeys();
      for n := 0 to |Declarations|
        invariant Valid()
        invariant store.Keys == set i | 0 <= i < n :: Declarations[i].key
        invariant forall i :: 0 <= i < n ==> store[Declarations[i].key] == Declarations[i]
      {
        var d := Declarations[n];
        var gate := DeclareFeatureGate(d.key, d.enabled, d.isStatic, d.description);
      }
    }

    /** Whether the gate filed under `key` is on. */
    function IsEnabled(key: string): (on: bool)
      reads this
      requires key in store
      ensures on <==> store[key].enabled
    {
      store[key].Enabled()
    }

    /** Adds a gate under a key that is not yet taken; declaring a key twice
        makes the Go program panic, so no caller may do it. */
    method DeclareFeatureGate(key: string, enabled: bool, isStatic: bool, description: string) returns (g: FeatureGate)
      requires key !in store
      modifies this
      ensures old(Valid()) ==> Valid()
      ensures g.Key() == key && g.Enabled() == enabled && g.isStatic == isStatic && g.Description() == description
      ensures store == old(store)[key := g]
    {
      g := FeatureGate(key, enabled, isStatic, description);
      store := store[key := g];
    }

    /** Switches on every listed gate that is known and not static. */
    method EnableFeatureGates(featureGates: seq<string>)
      requires Valid()
      modifies this
      ensures Valid()
      ensures store == EnabledBy(old(store), featureGates)
    {
      for i := 0 to |featureGates|
        invariant Valid()
        invariant store == EnabledBy(old(store), featureGates[..i])
      {
        assert featureGates[..i + 1][..i] == featureGates[..i];
        var key := featureGates[i];
        if key in store && !store[key].isStatic {
          store := store[key := store[key].(enabled := true)];
        }
      }
      assert featureGates[..|featureGates|] == featureGates;
    }
  }

  /** The declared gates have pairwise distinct keys, so start-up never panics. */
  lemma DeclarationsHaveDistinctKeys()
    ensures DistinctKeys(Declarations)
  {
  }

  /** The headless-service gate is declared on and can still be switched at run time. */
  lemma HeadlessServiceGateDefault()
    ensures exists g :: g in Declarations && g.key == EnableXStoreWithHeadlessService && g.enabled && !g.isStatic
  {
  }
}
