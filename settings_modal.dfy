/**
 * The list and record operations of the settings dialog,
 * src/renderer/src/components/settingsModal.tsx. Each handler computes a
 * fresh preset list or settings record and hands it to its setter; the
 * random ids the dialog draws are inputs here.
 */
module SettingsModal {
  import opened Wrappers
  import opened Records

  /** The dialog's own state: the preset list being edited and the settings being edited. */
  datatype Editor = Editor(durations: seq<LessonDuration>, settings: Settings)

  /** The initial presets with their ids replaced, position by position, by freshly drawn ones. */
  function WithFreshIds(initial: seq<LessonDuration>, freshIds: seq<string>): (r: seq<LessonDuration>)
    requires |freshIds| == |initial|
    ensures |r| == |initial| && Ids(r) == freshIds
    ensures forall i :: 0 <= i < |r| ==> r[i] == initial[i].(id := freshIds[i])
  {
    if initial == [] then [] else [initial[0].(id := freshIds[0])] + WithFreshIds(initial[1..], freshIds[1..])
  }

  /** A dialog opened on the given presets and settings, with one fresh id per preset. */
  function Opened(initialDurations: seq<LessonDuration>, initialSettings: Settings, freshIds: seq<string>): (e: Editor)
    requires |freshIds| == |initialDurations|
    ensures e.settings == initialSettings
    ensures |e.durations| == |initialDurations| && Ids(e.durations) == freshIds
    ensures forall i :: 0 <= i < |e.durations| ==>
      e.durations[i].labelText == initialDurations[i].labelText &&
      e.durations[i].minutes == initialDurations[i].minutes &&
      e.durations[i].color == initialDurations[i].color
  {
    Editor(WithFreshIds(initialDurations, freshIds), initialSettings)
  }

  /** `handleAddDuration`: one blank entry with a fresh id after all earlier ones. */
  function AddDuration(ds: seq<LessonDuration>, freshId: string): (r: seq<LessonDuration>)
    requires !HasId(ds, freshId)
    ensures |r| == |ds| + 1 && r[..|ds|] == ds
    ensures r[|ds|].id == freshId && r[|ds|].labelText == "" && r[|ds|].minutes == 0 && r[|ds|].color == Blue
    ensures UniqueIds(ds) ==> UniqueIds(r)
  {
    ds + [LessonDuration(freshId, "", 0, Blue)]
  }

  /** `a` is `b` with some of its elements left out, the rest in their order. */
  predicate SubsequenceOf<T(==)>(a: seq<T>, b: seq<T>)
    decreases |b|
  {
    if a == [] then true
    else if b == [] then false
    else (a[0] == b[0] && SubsequenceOf(a[1..], b[1..])) || SubsequenceOf(a, b[1..])
  }

  /**
   * `handleRemoveDuration(id)`: every entry with that id is dropped, every
   * other entry is kept as often as it occurred.
   */
  function RemoveDuration(ds: seq<LessonDuration>, id: string): (r: seq<LessonDuration>)
    ensures forall d: LessonDuration :: d.id == id ==> multiset(r)[d] == 0
    ensures forall d: LessonDuration :: d.id != id ==> multiset(r)[d] == multiset(ds)[d]
  {
    if ds == [] then []
    else
      var rest := RemoveDuration(ds[1..], id);
      assert ds == [ds[0]] + ds[1..];
      if ds[0].id == id then rest else [ds[0]] + rest
  }

  /** The entries that survive a removal keep their relative order. */
  lemma {:induction false} RemoveKeepsOrder(ds: seq<LessonDuration>, id: string)
    ensures SubsequenceOf(RemoveDuration(ds, id), ds)
  {
    if ds != [] {
      RemoveKeepsOrder(ds[1..], id);
      var rest := RemoveDuration(ds[1..], id);
      if ds[0].id != id {
        assert ([ds[0]] + rest)[1..] == rest;
      } else if rest != [] {
        assert SubsequenceOf(rest, ds[1..]);
      }
    }
  }

  /** A removal keeps the ids unique. */
  lemma RemoveKeepsUniqueIds(ds: seq<LessonDuration>, id: string)
    requires UniqueIds(ds)
    ensures UniqueIds(RemoveDuration(ds, id))
  {
    var r := RemoveDuration(ds, id);
    RemoveKeepsOrder(ds, id);
    SubsequenceKeepsUniqueIds(r, ds);
  }

  /** A subsequence of a list with unique ids has unique ids. */
  lemma {:induction false} SubsequenceKeepsUniqueIds(a: seq<LessonDuration>, b: seq<LessonDuration>)
    requires UniqueIds(b) && SubsequenceOf(a, b)
    ensures UniqueIds(a)
    ensures forall i :: 0 <= i < |a| ==> a[i] in b
    decreases |b|
  {
    if a != [] {
      assert UniqueIds(b[1..]) by {
        forall i, j | 0 <= i < j < |b[1..]| ensures b[1..][i].id != b[1..][j].id {
          assert b[1..][i] == b[i + 1] && b[1..][j] == b[j + 1];
        }
      }
      if a[0] == b[0] && SubsequenceOf(a[1..], b[1..]) {
        SubsequenceKeepsUniqueIds(a[1..], b[1..]);
        forall k | 0 < k < |a| ensures a[k].id != a[0].id {
          assert a[k] == a[1..][k - 1];
          var m :| 0 <= m < |b[1..]| && b[1..][m] == a[k];
          assert b[m + 1] == a[k];
        }
      } else {
        SubsequenceKeepsUniqueIds(a, b[1..]);
      }
      forall i | 0 <= i < |a| ensures a[i] in b {
        if a[0] == b[0] && SubsequenceOf(a[1..], b[1..]) {
          if i > 0 { assert a[i] == a[1..][i - 1]; }
        }
      }
    }
  }

  /** Removing an id no entry carries leaves the list as it was. */
  lemma {:induction false} RemoveAbsentId(ds: seq<LessonDuration>, id: string)
    requires !HasId(ds, id)
    ensures RemoveDuration(ds, id) == ds
  {
    if ds != [] {
      assert !HasId(ds[1..], id) by {
        forall i | 0 <= i < |ds[1..]| ensures ds[1..][i].id != id {
          assert ds[1..][i] == ds[i + 1];
        }
      }
      RemoveAbsentId(ds[1..], id);
    }
  }

  /** With unique ids, removing a present id drops exactly one entry. */
  lemma {:induction false} RemovePresentUniqueId(ds: seq<LessonDuration>, id: string)
    requires UniqueIds(ds) && HasId(ds, id)
    ensures |RemoveDuration(ds, id)| == |ds| - 1
  {
    if ds[0].id == id {
      assert !HasId(ds[1..], id) by {
        forall i | 0 <= i < |ds[1..]| ensures ds[1..][i].id != id {
          assert ds[1..][i] == ds[i + 1];
        }
      }
      RemoveAbsentId(ds[1..], id);
    } else {
      var k :| 0 <= k < |ds| && ds[k].id == id;
      assert ds[1..][k - 1].id == id;
      RemovePresentUniqueId(ds[1..], id);
    }
  }

  /** One field of a preset and its new value. */
  datatype DurationEdit =
    | SetId(newId: string)
    | SetLabel(newLabel: string)
    | SetMinutes(newMinutes: int)
    | SetColor(newColor: Color)

  /** `{ ...d, [field]: value }`: the named field takes the value, the others stay. */
  function Edited(d: LessonDuration, edit: DurationEdit): (r: LessonDuration)
    ensures r.id == (if edit.SetId? then edit.newId else d.id)
    ensures r.labelText == (if edit.SetLabel? then edit.newLabel else d.labelText)
    ensures r.minutes == (if edit.SetMinutes? then edit.newMinutes else d.minutes)
    ensures r.color == (if edit.SetColor? then edit.newColor else d.color)
  {
    match edit
    case SetId(v) => d.(id := v)
    case SetLabel(v) => d.(labelText := v)
    case SetMinutes(v) => d.(minutes := v)
    case SetColor(v) => d.(color := v)
  }

  /**
   * `handleDurationChange(id, field, value)`: same length and order; only
   * the entries with that id change, and only in the edited field.
   */
  function ChangeDuration(ds: seq<LessonDuration>, id: string, edit: DurationEdit): (r: seq<LessonDuration>)
    ensures |r| == |ds|
    ensures forall i :: 0 <= i < |ds| && ds[i].id != id ==> r[i] == ds[i]
    ensures forall i :: 0 <= i < |ds| && ds[i].id == id ==> r[i] == Edited(ds[i], edit)
    ensures !edit.SetId? ==> Ids(r) == Ids(ds)
  {
    if ds == [] then []
    else [if ds[0].id == id then Edited(ds[0], edit) else ds[0]] + ChangeDuration(ds[1..], id, edit)
  }

  /** A change that is not to an id keeps the ids unique. */
  lemma ChangeKeepsUniqueIds(ds: seq<LessonDuration>, id: string, edit: DurationEdit)
    requires UniqueIds(ds) && !edit.SetId?
    ensures UniqueIds(ChangeDuration(ds, id, edit))
  {
    var r := ChangeDuration(ds, id, edit);
    forall i, j | 0 <= i < j < |r| ensures r[i].id != r[j].id {
      assert r[i].id == Ids(r)[i] == Ids(ds)[i];
      assert r[j].id == Ids(r)[j] == Ids(ds)[j];
    }
  }

  /** A field of `Settings` named by a change request. */
  datatype SettingsField = WarningMinutesField | WarningVideoPathField | FinishVideoPathField

  /**
   * `handleSettingsChange(field, value)`: only a change to the warning
   * minutes is applied; a request for any other field changes nothing.
   */
  function SettingsChanged(s: Settings, field: SettingsField, value: int): (r: Settings)
    ensures r.warningVideoPath == s.warningVideoPath && r.finishVideoPath == s.finishVideoPath
    ensures r.warningMinutes == (if field == WarningMinutesField then value else s.warningMinutes)
  {
    if field == WarningMinutesField then s.(warningMinutes := value) else s
  }

  /** `pat` occurs in `s` starting at index `i`. */
  predicate OccursAt(s: string, pat: string, i: int)
  {
    0 <= i && i + |pat| <= |s| && s[i..i + |pat|] == pat
  }

  /** The first index at or after `from` where `pat` occurs in `s`. */
  function IndexOfFrom(s: string, pat: string, from: nat): (r: Option<nat>)
    requires from <= |s|
    ensures r.Some? ==> from <= r.value && OccursAt(s, pat, r.value)
    ensures forall j :: from <= j && (r.None? || j < r.value) ==> !OccursAt(s, pat, j)
    decreases |s| - from
  {
    if OccursAt(s, pat, from) then Some(from)
    else if from == |s| then None
    else IndexOfFrom(s, pat, from + 1)
  }

  /** `s.indexOf(pat)`: the first occurrence, if any. */
  function IndexOf(s: string, pat: string): (r: Option<nat>)
    ensures r.Some? ==> OccursAt(s, pat, r.value)
    ensures forall j :: (r.None? || j < r.value) ==> !OccursAt(s, pat, j)
  {
    IndexOfFrom(s, pat, 0)
  }

  /** `s.replace(pat, rep)` with a string pattern: only the first occurrence is replaced. */
  function ReplaceFirst(s: string, pat: string, rep: string): (r: string)
    ensures IndexOf(s, pat).None? ==> r == s
    ensures IndexOf(s, pat).Some? ==>
      var i := IndexOf(s, pat).value;
      r == s[..i] + rep + s[i + |pat|..]
  {
    match IndexOf(s, pat)
    case None => s
    case Some(i) => s[..i] + rep + s[i + |pat|..]
  }

  /** The `file://` to `safe-file://` rewrite of a picked video path. */
  function SafeFilePath(p: string): (r: string)
    ensures IndexOf(p, "file://").None? ==> r == p
    ensures IndexOf(p, "file://").Some? ==>
      var i := IndexOf(p, "file://").value;
      |r| == |p| + 5 && r[..i] == p[..i] && OccursAt(r, "safe-file://", i) && r[i + 12..] == p[i + 7..]
  {
    ReplaceFirst(p, "file://", "safe-file://")
  }

  /** A `file://` URL becomes the same URL under the `safe-file://` scheme. */
  lemma SafeFilePathOfFileUrl(rest: string)
    ensures SafeFilePath("file://" + rest) == "safe-file://" + rest
  {
    assert OccursAt("file://" + rest, "file://", 0);
  }

  /** A path without `file://` in it is stored as it is. */
  lemma SafeFilePathOfPlainPath(p: string)
    requires forall j :: !OccursAt(p, "file://", j)
    ensures SafeFilePath(p) == p
  {
  }

  /** Only the first `file://` is rewritten: the rest of the path is kept even when it holds another. */
  lemma SafeFilePathRewritesOnlyFirst(rest: string)
    ensures SafeFilePath("file://" + "file://" + rest) == "safe-file://" + "file://" + rest
  {
    SafeFilePathOfFileUrl("file://" + rest);
    assert "file://" + "file://" + rest == "file://" + ("file://" + rest);
  }

  /** Which of the two videos a file pick is for. */
  datatype VideoTarget = WarningVideo | FinishVideo

  /**
   * `handleFileOpen(target)` once `uploadVideo` has answered `picked`: no
   * path or an empty path changes nothing; otherwise the rewritten path is
   * stored in the target's field and nothing else changes.
   */
  function FileOpened(s: Settings, target: VideoTarget, picked: Option<string>): (r: Settings)
    ensures picked.None? || picked == Some("") ==> r == s
    ensures picked.Some? && picked.value != "" ==>
      r.warningMinutes == s.warningMinutes &&
      r.warningVideoPath == (if target == WarningVideo then Some(SafeFilePath(picked.value)) else s.warningVideoPath) &&
      r.finishVideoPath == (if target == FinishVideo then Some(SafeFilePath(picked.value)) else s.finishVideoPath)
  {
    if picked.None? || picked.value == "" then s
    else
      var safeFilePath := Some(SafeFilePath(picked.value));
      s.(finishVideoPath := if target == FinishVideo then safeFilePath else s.finishVideoPath,
         warningVideoPath := if target == WarningVideo then safeFilePath else s.warningVideoPath)
  }

  /** What the dialog hands to its parent. */
  datatype ModalEffect =
    | SaveDurations(durations: seq<LessonDuration>)
    | SaveSettings(settings: Settings)
    | Close

  /** `handleSave`: the current presets, then the current settings, then closing. */
  function Saved(e: Editor): (r: seq<ModalEffect>)
    ensures |r| == 3 && r[2] == Close
    ensures r[0].SaveDurations? && r[0].durations == e.durations
    ensures r[1].SaveSettings? && r[1].settings == e.settings
  {
    [SaveDurations(e.durations), SaveSettings(e.settings), Close]
  }

  /** The cancel button: closing without saving anything. */
  function Cancelled(e: Editor): (r: seq<ModalEffect>)
    ensures r == [Close]
    ensures forall i :: 0 <= i < |r| ==> !r[i].SaveDurations? && !r[i].SaveSettings?
  {
    [Close]
  }

  /**
   * Opening the dialog and saving at once hands back the same presets up to
   * their ids, and the very same list only when every drawn id equals the
   * one it replaced.
   */
  lemma SaveWithoutEditsChangesOnlyIds(initial: seq<LessonDuration>, settings: Settings, freshIds: seq<string>)
    requires |freshIds| == |initial|
    ensures var saved := Saved(Opened(initial, settings, freshIds))[0].durations;
      |saved| == |initial| &&
      (forall i :: 0 <= i < |saved| ==> saved[i].(id := initial[i].id) == initial[i]) &&
      (saved == initial <==> freshIds == Ids(initial))
  {
    var saved := Saved(Opened(initial, settings, freshIds))[0].durations;
    if freshIds == Ids(initial) {
      assert forall i :: 0 <= i < |saved| ==> saved[i] == initial[i];
    }
  }
}
