/**
 * The two persisted record types of the timer: a lesson-duration preset
 * (src/renderer/src/hooks/useLessonDurations.tsx, repeated in
 * src/renderer/src/components/settingsModal.tsx) and the settings record
 * (src/renderer/src/hooks/useSettings.tsx).
 */
module Records {
  import opened Wrappers

  /** The four palette keys a preset may carry. */
  datatype Color = Blue | Green | Orange | Red

  /** A lesson-duration preset (`labelText` is the source's `label`, a Dafny keyword). */
  datatype LessonDuration = LessonDuration(id: string, labelText: string, minutes: int, color: Color)

  /** The user settings; `None` is the source's `null` video path. */
  datatype Settings = Settings(
    warningMinutes: int,
    warningVideoPath: Option<string>,
    finishVideoPath: Option<string>)

  /** The ids of a preset list, in list order. */
  function Ids(ds: seq<LessonDuration>): (r: seq<string>)
    ensures |r| == |ds|
    ensures forall i :: 0 <= i < |ds| ==> r[i] == ds[i].id
  {
    if ds == [] then [] else [ds[0].id] + Ids(ds[1..])
  }

  /** No two presets of the list share an id. */
  predicate UniqueIds(ds: seq<LessonDuration>)
  {
    forall i, j :: 0 <= i < j < |ds| ==> ds[i].id != ds[j].id
  }

  /** Some preset of the list has the given id. */
  predicate HasId(ds: seq<LessonDuration>, id: string)
  {
    exists i :: 0 <= i < |ds| && ds[i].id == id
  }
}
