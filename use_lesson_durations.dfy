/**
 * The preset-list hook of src/renderer/src/hooks/useLessonDurations.tsx:
 * load once from the store (or fall back to the four defaults), write the
 * list back under its key after every change, and replace it wholesale.
 */
module UseLessonDurations {
  import opened Records
  import opened Storage

  const DEFAULT_DURATIONS: seq<LessonDuration> := [
    LessonDuration("duration1", "1コマ (50分)", 50, Blue),
    LessonDuration("duration2", "2コマ (100分)", 100, Green),
    LessonDuration("duration3", "3コマ (150分)", 150, Orange),
    LessonDuration("duration4", "4コマ (200分)", 200, Red)
  ]

  const STORAGE_KEY: string := "lessonDurations"

  /** The four defaults, with distinct ids, in ascending order of minutes. */
  lemma DefaultDurationsShape()
    ensures |DEFAULT_DURATIONS| == 4 && UniqueIds(DEFAULT_DURATIONS)
    ensures Ids(DEFAULT_DURATIONS) == ["duration1", "duration2", "duration3", "duration4"]
    ensures forall i :: 0 <= i < 4 ==> DEFAULT_DURATIONS[i].minutes == 50 * (i + 1)
  {
  }

  /** The store holds no value of another shape under the preset key. */
  predicate StoresDurations(items: map<string, Stored>)
  {
    STORAGE_KEY in items ==> !items[STORAGE_KEY].SettingsRecord?
  }

  /** The lazy initial state: the stored list when the key holds a non-empty value, else the defaults. */
  function LoadDurations(items: map<string, Stored>): (r: seq<LessonDuration>)
    requires StoresDurations(items)
    ensures STORAGE_KEY in items && items[STORAGE_KEY].DurationList? ==> r == items[STORAGE_KEY].durations
    ensures STORAGE_KEY !in items || items[STORAGE_KEY] == EmptyText ==> r == DEFAULT_DURATIONS
  {
    if STORAGE_KEY in items && items[STORAGE_KEY].DurationList? then items[STORAGE_KEY].durations
    else DEFAULT_DURATIONS
  }

  /** What the persist effect writes is what the next load reads, an empty list included. */
  lemma ReloadReadsWrittenList(items: map<string, Stored>, ds: seq<LessonDuration>)
    ensures StoresDurations(items[STORAGE_KEY := DurationList(ds)])
    ensures LoadDurations(items[STORAGE_KEY := DurationList(ds)]) == ds
  {
  }

  /** The hook's state, bound to the store it persists to. */
  class LessonDurationsHook {
    const storage: LocalStorage
    var lessonDurations: seq<LessonDuration>

    /** The store maps the key to exactly the current list. */
    ghost predicate Valid()
      reads this, storage
    {
      STORAGE_KEY in storage.items && storage.items[STORAGE_KEY] == DurationList(lessonDurations)
    }

    /** First render: the lazy load, then the persist effect. */
    constructor (storage: LocalStorage)
      requires StoresDurations(storage.items)
      modifies storage
      ensures this.storage == storage && Valid()
      ensures lessonDurations == LoadDurations(old(storage.items))
      ensures storage.items == old(storage.items)[STORAGE_KEY := DurationList(lessonDurations)]
    {
      this.storage := storage;
      lessonDurations := LoadDurations(storage.items);
      new;
      Persist();
    }

    /** The `useEffect` on the list: writes it back under the key. */
    method Persist()
      modifies storage
      ensures Valid()
      ensures storage.items == old(storage.items)[STORAGE_KEY := DurationList(lessonDurations)]
    {
      storage.SetItem(STORAGE_KEY, DurationList(lessonDurations));
    }

    /** `updateLessonDurations(newDurations)`: replaces the list, then persists it. */
    method UpdateLessonDurations(newDurations: seq<LessonDuration>)
      requires Valid()
      modifies this, storage
      ensures Valid() && lessonDurations == newDurations
      ensures storage.items == old(storage.items)[STORAGE_KEY := DurationList(newDurations)]
      ensures newDurations == old(lessonDurations) ==> storage.items == old(storage.items)
    {
      lessonDurations := newDurations;
      Persist();
    }

    /** `resetToDefaults()`: the list, and so the stored value, become the defaults. */
    method ResetToDefaults()
      requires Valid()
      modifies this, storage
      ensures Valid() && lessonDurations == DEFAULT_DURATIONS
      ensures storage.items == old(storage.items)[STORAGE_KEY := DurationList(DEFAULT_DURATIONS)]
    {
      lessonDurations := DEFAULT_DURATIONS;
      Persist();
    }
  }
}
