/** The settings page (pages/Settings.tsx): edits a working copy of the settings and writes
    the whole copy on save. */
module SettingsPage {
  import opened Types
  import opened Storage

  /** The boolean settings `toggle` is applied to. */
  datatype Flag = AutoSpicyA | ShowGarlicGinger | CloudSync

  function Get(config: Settings, key: Flag): bool {
    match key
    case AutoSpicyA => config.autoSpicyA
    case ShowGarlicGinger => config.showGarlicGinger
    case CloudSync => config.cloudSync
  }

  /** `toggle(key)`: negates that flag and keeps every other field. */
  function Toggle(config: Settings, key: Flag): (r: Settings)
    ensures Get(r, key) == !Get(config, key)
    ensures forall k :: k != key ==> Get(r, k) == Get(config, k)
    ensures r.peopleCount == config.peopleCount
  {
    match key
    case AutoSpicyA => config.(autoSpicyA := !config.autoSpicyA)
    case ShowGarlicGinger => config.(showGarlicGinger := !config.showGarlicGinger)
    case CloudSync => config.(cloudSync := !config.cloudSync)
  }

  lemma ToggleTwiceRestores(config: Settings, key: Flag)
    ensures Toggle(Toggle(config, key), key) == config
  {
  }

  /** Toggling two flags gives the same settings in either order. */
  lemma TogglesCommute(config: Settings, k1: Flag, k2: Flag)
    ensures Toggle(Toggle(config, k1), k2) == Toggle(Toggle(config, k2), k1)
  {
  }

  /** The people-count buttons: set the count and keep every flag. */
  function SelectPeopleCount(config: Settings, pc: PeopleCount): (r: Settings)
    ensures r.peopleCount == pc
    ensures forall k :: Get(r, k) == Get(config, k)
  {
    config.(peopleCount := pc)
  }

  class SettingsPageState {
    var store: Store
    var config: Settings

    /** The working copy starts as the stored settings. */
    constructor(store: Store)
      ensures this.store == store && config == store.settings
    {
      this.store := store;
      config := store.settings;
    }

    method ToggleFlag(key: Flag)
      modifies this
      ensures config == Toggle(old(config), key) && store == old(store)
    {
      config := Toggle(config, key);
    }

    method ChoosePeopleCount(pc: PeopleCount)
      modifies this
      ensures config == SelectPeopleCount(old(config), pc) && store == old(store)
    {
      config := SelectPeopleCount(config, pc);
    }

    /** `handleSave`: the only write, and it persists the whole working copy. */
    method HandleSave()
      modifies store
      ensures store.settings == config
      ensures store.recipes == old(store.recipes) && store.currentPlan == old(store.currentPlan)
    {
      store.SaveSettings(config);
    }
  }
}
