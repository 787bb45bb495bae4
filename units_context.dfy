/**
 * The unit-system preference: its validate-or-default initialisation from
 * local storage, the state cell that `setUnitSystem` overwrites, and the
 * effect that writes the current system back to storage after each change.
 */
module UnitsContext {
  import opened Wrappers
  import opened Units

  /** The local-storage key under which the preference is kept. */
  const StorageKey: string := "unitSystem"

  /** `localStorage.getItem(key)`: `null` (here `None`) when nothing is stored. */
  function GetItem(store: map<string, string>, key: string): (r: Option<string>)
    ensures r.Some? <==> key in store
    ensures r.Some? ==> r.value == store[key]
  {
    if key in store then Some(store[key]) else None
  }

  /**
   * The lazy initialiser of the state cell: a stored value that is non-empty
   * and one of the three tags is taken as it is; a missing, empty or unknown
   * value gives metric.
   */
  function InitialUnitSystem(stored: Option<string>): (u: UnitSystem)
    ensures forall v :: stored == Some(Tag(v)) ==> u == v
    ensures (forall v :: stored != Some(Tag(v))) ==> u == Metric
  {
    if stored.Some? && stored.value != "" && stored.value in ["metric", "imperial", "standard"] then
      FromTag(stored.value).value
    else
      Metric
  }

  /** Re-initialising from a store that holds a system's tag gives back that system. */
  lemma ReloadRoundTrip(store: map<string, string>, u: UnitSystem)
    requires StorageKey in store && store[StorageKey] == Tag(u)
    ensures InitialUnitSystem(GetItem(store, StorageKey)) == u
  {
  }

  /** The provider's state: the current system and the local storage it writes to. */
  class UnitsProvider {
    var unitSystem: UnitSystem
    var store: map<string, string>

    /** The storage holds the tag of the current system. */
    ghost predicate Persisted()
      reads this
    {
      StorageKey in store && store[StorageKey] == Tag(unitSystem)
    }

    /**
     * Mounting: the initialiser reads the stored preference, then the effect
     * runs once and writes the chosen system back under the same key.
     */
    constructor (initialStore: map<string, string>)
      ensures unitSystem == InitialUnitSystem(GetItem(initialStore, StorageKey))
      ensures store == initialStore[StorageKey := Tag(unitSystem)]
      ensures Persisted()
    {
      unitSystem := InitialUnitSystem(GetItem(initialStore, StorageKey));
      store := initialStore[StorageKey := Tag(InitialUnitSystem(GetItem(initialStore, StorageKey)))];
    }

    /** `setUnitSystem`: overwrites the state cell and nothing else. */
    method SetUnitSystem(system: UnitSystem)
      modifies this`unitSystem
      ensures unitSystem == system
      ensures store == old(store)
    {
      unitSystem := system;
    }

    /** The effect on `[unitSystem]`: stores the current tag, other keys untouched. */
    method PersistEffect()
      modifies this`store
      ensures store == old(store)[StorageKey := Tag(unitSystem)]
      ensures Persisted()
      ensures InitialUnitSystem(GetItem(store, StorageKey)) == unitSystem
    {
      store := store[StorageKey := Tag(unitSystem)];
    }

    /**
     * A change as the user sees it: the state cell is set, the component
     * re-renders and the effect persists the new value, so that reloading
     * from storage reproduces it.
     */
    method ChangeUnitSystem(system: UnitSystem)
      modifies this
      ensures unitSystem == system
      ensures store == old(store)[StorageKey := Tag(system)]
      ensures InitialUnitSystem(GetItem(store, StorageKey)) == system
    {
      SetUnitSystem(system);
      PersistEffect();
    }

    /** `labels`: the label-table row of the current system, which its wind label identifies. */
    function CurrentLabels(): (l: UnitLabels)
      reads this
      ensures l == Labels(unitSystem)
      ensures SystemOfWindLabel(l.windSpeed) == Some(unitSystem)
    {
      Labels(unitSystem)
    }
  }
}
