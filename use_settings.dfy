/**
 * The settings hook of src/renderer/src/hooks/useSettings.tsx: the same
 * load-once, persist-on-change, replace-wholesale lifecycle as the
 * preset hook, for the settings record under its own key.
 */
module UseSettings {
  import opened Wrappers
  import opened Records
  import opened Storage

  /** Warn five minutes before the end; no warning or finish video. */
  const DEFAULT_SETTINGS: Settings := Settings(5, None, None)

  const STORAGE_KEY: string := "settings"

  /** The store holds no value of another shape under the settings key. */
  predicate StoresSettings(items: map<string, Stored>)
  {
    STORAGE_KEY in items ==> !items[STORAGE_KEY].DurationList?
  }

  /** The lazy initial state: the stored record when the key holds a non-empty value, else the defaults. */
  function LoadSettings(items: map<string, Stored>): (r: Settings)
    requires StoresSettings(items)
    ensures STORAGE_KEY in items && items[STORAGE_KEY].SettingsRecord? ==> r == items[STORAGE_KEY].settings
    ensures STORAGE_KEY !in items || items[STORAGE_KEY] == EmptyText ==>
      r.warningMinutes == 5 && r.warningVideoPath.None? && r.finishVideoPath.None?
  {
    if STORAGE_KEY in items && items[STORAGE_KEY].SettingsRecord? then items[STORAGE_KEY].settings
    else DEFAULT_SETTINGS
  }

  /** What the persist effect writes is what the next load reads. */
  lemma ReloadReadsWrittenSettings(items: map<string, Stored>, s: Settings)
    ensures StoresSettings(items[STORAGE_KEY := SettingsRecord(s)])
    ensures LoadSettings(items[STORAGE_KEY := SettingsRecord(s)]) == s
  {
  }

  /** The hook's state, bound to the store it persists to. */
  class SettingsHook {
    const storage: LocalStorage
    var settings: Settings

    /** The store maps the key to exactly the current settings. */
    ghost predicate Valid()
      reads this, storage
    {
      STORAGE_KEY in storage.items && storage.items[STORAGE_KEY] == SettingsRecord(settings)
    }

    /** First render: the lazy load, then the persist effect. */
    constructor (storage: LocalStorage)
      requires StoresSettings(storage.items)
      modifies storage
      ensures this.storage == storage && Valid()
      ensures settings == LoadSettings(old(storage.items))
      ensures storage.items == old(storage.items)[STORAGE_KEY := SettingsRecord(settings)]
    {
      this.storage := storage;
      settings := LoadSettings(storage.items);
      new;
      Persist();
    }

    /** The `useEffect` on the settings: writes them back under the key. */
    method Persist()
      modifies storage
      ensures Valid()
      ensures storage.items == old(storage.items)[STORAGE_KEY := SettingsRecord(settings)]
    {
      storage.SetItem(STORAGE_KEY, SettingsRecord(settings));
    }

    /** `updateSettings(newSettings)`: replaces the settings wholesale, then persists them. */
    method UpdateSettings(newSettings: Settings)
      requires Valid()
      modifies this, storage
      ensures Valid() && settings == newSettings
      ensures storage.items == old(storage.items)[STORAGE_KEY := SettingsRecord(newSettings)]
      ensures LoadSettings(storage.items) == newSettings
    {
      settings := newSettings;
      Persist();
      ReloadReadsWrittenSettings(old(storage.items), newSettings);
    }
  }
}
