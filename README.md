# Lesson timer: a Dafny model of its countdown, settings and window logic

This project models the logic at the core of a small Electron lesson timer.

- **Countdown session.** The `App` component starts a countdown of a chosen number of minutes. A once-a-second interval recomputes the remaining seconds from the wall clock. The tick raises a warning (and asks for full screen) when more than 0 and at most 300 seconds remain and no warning is showing yet. It shows the finish screen (and asks for full screen again) when no whole second remains. Stopping returns to the idle layout.
- **Display.** The remaining-time panel splits the seconds into minutes and seconds.
- **Settings editor.** The settings dialog edits a list of lesson-duration presets, keyed by id, and a settings record.
- **Persistence.** Two hooks load the presets and the settings from `localStorage` once and write them back on every change.
- **Host.** The preload bridge and the main process resize, place and full-screen the window, and import a chosen video file.

Modules follow the source files:

| module | source file |
|---|---|
| `App` (app.dfy) | src/renderer/src/App.tsx |
| `TimerDisplay` (timer_display.dfy) | src/renderer/src/components/TimerDisplay.tsx |
| `SettingsModal` (settings_modal.dfy) | src/renderer/src/components/settingsModal.tsx |
| `UseLessonDurations` (use_lesson_durations.dfy) | src/renderer/src/hooks/useLessonDurations.tsx |
| `UseSettings` (use_settings.dfy) | src/renderer/src/hooks/useSettings.tsx |
| `Preload` (preload.dfy) | src/preload/index.ts |
| `MainProcess` (main_process.dfy) | src/main/index.ts |
| `Records` (records.dfy), `Storage` (storage.dfy), `Wrappers` (wrappers.dfy) | the shared `LessonDuration` and `Settings` types, `localStorage`, `Option` |

Inputs the model takes instead of calling out:

- The wall clock is `now`, in epoch milliseconds.
- The confirmation dialog's answer is `confirmed`.
- The ids `Math.random` would draw are `freshIds` and `freshId`.
- The open-file dialog's outcome is an `OpenDialogResult`.
- `app.getPath("userData")` is `userData`.
- The primary display's work area is a `WorkArea`.

`setInterval`/`clearInterval` become the `ticking` flag. Each `window.api` call is appended to the `calls` log of `App.Timer`. Each IPC invocation is appended to the `invocations` log of `Preload.Api`.

Each stateful source file has two parts:

- Pure step functions on values (`App.Started`, `App.Ticked`, `App.Stopped`, …). The lemmas are about these.
- A class whose methods update fields in the source's order.
  - The methods of `App.Timer` are proved to produce exactly the state and the host calls of their step functions.
  - The methods of `MainProcess.BrowserWindow`, `Preload.Api`, `UseLessonDurations.LessonDurationsHook` and `UseSettings.SettingsHook` have no step functions. Their contracts state each new field directly, and state which fields stay unchanged.

`App.OneMinuteLesson` works through a one-minute session using only the class contracts:

1. Start at 0 ms: 60 s remain.
2. Tick at 55 000 ms: 5 s remain, the warning shows, and full screen is requested.
3. Tick at 60 000 ms: the finish screen shows and the warning is cleared. Clearing it rebuilds the interval.
4. Tick at 61 000 ms: the rebuilt interval finishes once more, requests full screen a third time, and stops.
5. Stop: the idle layout is requested.

Some behaviours of the code are easy to mistake; the model follows the code:

- **Warning threshold.** It is the literal 300 seconds. It does not come from the `warningMinutes` setting, and nothing dismisses the warning automatically.
- **Unvalidated minutes.** `startTimer` takes any integer number of minutes. A negative value gives a negative remaining time, which the first tick raises to 0 (`App.NegativeStartThenTickGrows`). So "remaining time never increases" holds only from the first tick on, or after a non-negative start (`App.RemainingNeverIncreases`, `App.FirstTickNotAboveStart`).
- **Rebuilt interval.** The interval effect depends on `showWarning`. A finish clears the warning while the end time is still set, so a finish that clears a showing warning builds a new interval. The model's finish leaves the interval running exactly when the warning was showing. With the clock not set back, the rebuilt interval's first tick finishes again and stops it. So the finish branch, with its full-screen request, runs twice in a session that warned (`App.FinishEndsTicking`, `App.SessionWarnsAtMostOnce`). With the clock set back after the finish, the rebuilt interval can raise the warning a second time (`App.ClockSetBackWarnsAgain`).
- **No silent stop.** Every stop goes through `confirmToStopTimer` and its dialog. There is no acknowledgement that stops without asking.
- **Ids on save.** Opening the settings dialog replaces every preset id with a freshly drawn one. Saving without edits therefore hands back the same presets with new ids. The result equals the original only if every drawn id equals the id it replaced (`SettingsModal.SaveWithoutEditsChangesOnlyIds`).
- **Uploaded paths.** The `upload-video` handler returns a plain file-system path. Plain paths contain no `file://`, so the dialog's `safe-file://` rewrite leaves them unchanged (`SettingsModal.SafeFilePathOfPlainPath`).

## Model

| member | source | states |
|---|---|---|
| `App.Started` | src/renderer/src/App.tsx:55-62 | end time is now + minutes·60000, remaining is minutes·60 (unclamped), warning cleared, interval running, exactly one request `resize(400,145,bottom-right)`, the message flags untouched |
| `App.Stopped` | src/renderer/src/App.tsx:64-73 | no end time, remaining 0, warning, finish and message hidden, message input shown, interval stopped, exactly one request `resize(900,670,centred)` |
| `App.ConfirmedStop` | src/renderer/src/App.tsx:75-79 | a declined confirmation changes nothing and requests nothing; an accepted one is exactly `Stopped` |
| `App.RemainingAt` | src/renderer/src/App.tsx:105-107 | the seconds shown are never negative, are 0 exactly when less than one second is left, and otherwise are the whole seconds left |
| `App.RemainingAtAntitone` | src/renderer/src/App.tsx:106-107 | for a fixed end time a later clock reading never shows more seconds |
| `App.Ticked` | src/renderer/src/App.tsx:104-118 | remaining = max(0, floor((end − now)/1000)); the warning branch fires iff 0 < remaining ≤ 300 and no warning shows; the finish branch fires iff remaining is 0; each of the two makes one full-screen request, the plain branch none; finishing sets the finish screen and clears the warning, and leaves the interval running iff a warning was showing (its effect is rebuilt), stopping it otherwise; end time and message state untouched |
| `App.Ticks` | src/renderer/src/App.tsx:102-122 | a run of ticks is never longer than the clock readings given, and a run that begins with the interval cleared delivers no tick |
| `App.TicksFollowClock` | src/renderer/src/App.tsx:104-113 | every tick of a run keeps the end time, shows the time left at its own clock reading, and finishes iff no whole second is left |
| `App.ExpiredRunOnlyFinishes` | src/renderer/src/App.tsx:105-113 | once the time is up at the first reading and the clock is not set back, every tick of the run finishes |
| `App.RemainingNeverIncreases` | src/renderer/src/App.tsx:105-107 | with non-decreasing clock readings, the remaining time is non-negative and never grows from one tick to a later one |
| `App.WarningAtMostOnce` | src/renderer/src/App.tsx:102-122 | while the clock is not set back, a run raises the warning at most once, and never while it already shows, the rebuilt interval included |
| `App.FinishEndsTicking` | src/renderer/src/App.tsx:102-122 | while the clock is not set back, every finish is one of the last two ticks and is followed only by another finish; a run that stops before the clock readings run out ends with a finish |
| `App.FinishesFollowWarnings` | src/renderer/src/App.tsx:109-122 | whatever the clock readings, a run finishes at most once more than the warnings it raises or starts with, since only a cleared warning rebuilds the interval |
| `App.SessionWarnsAtMostOnce` | src/renderer/src/App.tsx:55-122 | after `startTimer`, with the clock not set back, the warning fires at most once and the finish at most once more than the warning |
| `App.ClockSetBackWarnsAgain` | src/renderer/src/App.tsx:102-122 | a ten-minute lesson read at 400 s, 600 s and 500 s warns, finishes and then warns again in the rebuilt interval |
| `App.FirstTickNotAboveStart` | src/renderer/src/App.tsx:56-58 | after a start with non-negative minutes, a tick at a later time shows no more than minutes·60 |
| `App.NegativeStartThenTickGrows` | src/renderer/src/App.tsx:56-58 | starting with −1 minute shows −60 s, and a tick at the same instant shows 0 and finishes |
| `App.IsJsWhitespace` | src/renderer/src/App.tsx:82 | the code points `trim` removes: ECMAScript's WhiteSpace and LineTerminator characters (tab, LF, VT, FF, CR, space, NBSP, the Unicode space separators, LS, PS, BOM) |
| `App.TrimStart` | src/renderer/src/App.tsx:82 | the result is a suffix of the text, does not start with white space, and only white space was removed |
| `App.TrimEnd` | src/renderer/src/App.tsx:82 | the result is a prefix of the text, does not end with white space, and only white space was removed |
| `App.Trim` | src/renderer/src/App.tsx:82 | the trimmed text is empty iff every character is JavaScript white space |
| `App.MessageConfirmed` | src/renderer/src/App.tsx:81-86 | a message with a non-white-space character is shown and its input hidden; a blank one changes nothing |
| `App.MessageEdited` | src/renderer/src/App.tsx:88-91 | the input is shown and the message hidden; nothing else changes |
| `App.Timer.constructor` | src/renderer/src/App.tsx:46-53 | the initial state: no end time, 0 s, input shown, every other flag off, no host calls |
| `App.Timer.Start` | src/renderer/src/App.tsx:55-62 | the new state and logged calls are exactly those of `Started` |
| `App.Timer.Tick` | src/renderer/src/App.tsx:104-118 | the new state and logged calls are exactly those of `Ticked` |
| `App.Timer.Stop` | src/renderer/src/App.tsx:64-73 | the new state and logged calls are exactly those of `Stopped` |
| `App.Timer.ConfirmStop` | src/renderer/src/App.tsx:75-79 | the new state and logged calls are exactly those of `ConfirmedStop` |
| `App.Timer.TypeMessage` | src/renderer/src/App.tsx:242 | only the message text changes, to the typed text |
| `App.Timer.ConfirmMessage` | src/renderer/src/App.tsx:81-86 | the new state is exactly `MessageConfirmed` of the old one, no host call |
| `App.Timer.EditMessage` | src/renderer/src/App.tsx:88-91 | the new state is exactly `MessageEdited` of the old one, no host call |
| `TimerDisplay.JsRemainder60` | src/renderer/src/components/TimerDisplay.tsx:53 | JavaScript's `% 60`: has the dividend's sign, magnitude below 60, and differs from the dividend by a multiple of 60 |
| `TimerDisplay.JsRemainder60OfNegative` | src/renderer/src/components/TimerDisplay.tsx:53 | on a negative time the printed seconds are 0 for a whole number of minutes and otherwise the floor remainder minus 60 |
| `TimerDisplay.Split` | src/renderer/src/components/TimerDisplay.tsx:53 | for every time the minutes are the floor of time/60; for a non-negative time the minutes are non-negative, the seconds in [0, 60), and 60·minutes + seconds is the time |
| `TimerDisplay.SplitUnique` | src/renderer/src/components/TimerDisplay.tsx:53 | for a non-negative time the split is the only pair with seconds in [0, 60) adding back up to it |
| `TimerDisplay.SplitAddsUpIff` | src/renderer/src/components/TimerDisplay.tsx:53 | the printed pair adds back up to the time iff the time is non-negative or a whole number of minutes |
| `TimerDisplay.Render` | src/renderer/src/components/TimerDisplay.tsx:50-60 | the text is red iff the time is running out, the warning line (with the warning minutes) is shown iff it is, and the clock is the split |
| `SettingsModal.WithFreshIds` | src/renderer/src/components/settingsModal.tsx:57-62 | same length; each entry is the initial one at the same position with only its id replaced by the drawn one |
| `SettingsModal.Opened` | src/renderer/src/components/settingsModal.tsx:57-63 | the editor starts from the given settings and from the given presets with the same label, minutes and colour at every position and the drawn ids |
| `SettingsModal.AddDuration` | src/renderer/src/components/settingsModal.tsx:65-75 | exactly one entry `{"", 0, blue}` with the fresh id is appended, earlier entries unchanged, unique ids stay unique |
| `SettingsModal.RemoveDuration` | src/renderer/src/components/settingsModal.tsx:77-79 | no entry with the id remains; every other entry occurs exactly as often as before |
| `SettingsModal.RemoveKeepsOrder` | src/renderer/src/components/settingsModal.tsx:77-79 | the surviving entries keep their relative order |
| `SettingsModal.RemoveKeepsUniqueIds` | src/renderer/src/components/settingsModal.tsx:77-79 | a removal keeps ids unique |
| `SettingsModal.RemoveAbsentId` | src/renderer/src/components/settingsModal.tsx:77-79 | removing an id no entry carries leaves the list unchanged |
| `SettingsModal.RemovePresentUniqueId` | src/renderer/src/components/settingsModal.tsx:77-79 | with unique ids, removing a present id drops exactly one entry |
| `SettingsModal.Edited` | src/renderer/src/components/settingsModal.tsx:84 | the edited field takes the new value; the other three fields are untouched |
| `SettingsModal.ChangeDuration` | src/renderer/src/components/settingsModal.tsx:81-88 | same length and order; entries with another id unchanged; entries with the id changed only in the edited field; ids unchanged unless the id is edited |
| `SettingsModal.ChangeKeepsUniqueIds` | src/renderer/src/components/settingsModal.tsx:81-88 | a change to anything but an id keeps ids unique |
| `SettingsModal.SettingsChanged` | src/renderer/src/components/settingsModal.tsx:90-100 | only `warningMinutes` can change, and only for a request naming it; both video paths are untouched |
| `SettingsModal.IndexOf` | src/renderer/src/components/settingsModal.tsx:109 | the result is an occurrence of the pattern with none before it, or there is no occurrence at all |
| `SettingsModal.ReplaceFirst` | src/renderer/src/components/settingsModal.tsx:109 | with no occurrence the text is unchanged; otherwise only the first occurrence is replaced |
| `SettingsModal.SafeFilePath` | src/renderer/src/components/settingsModal.tsx:109 | a path without `file://` is unchanged; otherwise its first `file://` becomes `safe-file://` with the text before and after it kept |
| `SettingsModal.SafeFilePathOfFileUrl` | src/renderer/src/components/settingsModal.tsx:109 | `file://` + rest becomes `safe-file://` + rest |
| `SettingsModal.SafeFilePathOfPlainPath` | src/renderer/src/components/settingsModal.tsx:109 | a path without `file://` is stored as it is |
| `SettingsModal.SafeFilePathRewritesOnlyFirst` | src/renderer/src/components/settingsModal.tsx:109 | a second `file://` is left in place |
| `SettingsModal.FileOpened` | src/renderer/src/components/settingsModal.tsx:102-118 | no path or an empty path leaves the settings unchanged; otherwise the rewritten path goes to the target video only, the other video and `warningMinutes` untouched |
| `SettingsModal.Saved` | src/renderer/src/components/settingsModal.tsx:124-128 | the current presets are passed first, then the current settings, then the dialog closes |
| `SettingsModal.Cancelled` | src/renderer/src/components/settingsModal.tsx:269 | cancel closes the dialog, as its one and only effect; nothing is saved |
| `SettingsModal.SaveWithoutEditsChangesOnlyIds` | src/renderer/src/components/settingsModal.tsx:57-62 | open then save without edits: the same presets up to ids, and the same list iff every drawn id equals the one it replaced |
| `Storage.LocalStorage.SetItem` | src/renderer/src/hooks/useLessonDurations.tsx:28 | the key's value is replaced wholesale; every other key is untouched |
| `UseLessonDurations.DefaultDurationsShape` | src/renderer/src/hooks/useLessonDurations.tsx:10-15 | four defaults with ids `duration1`..`duration4`, distinct, of 50, 100, 150 and 200 minutes in order |
| `UseLessonDurations.LoadDurations` | src/renderer/src/hooks/useLessonDurations.tsx:20-25 | the stored list when `lessonDurations` holds a non-empty value, the defaults when the key is absent or empty |
| `UseLessonDurations.ReloadReadsWrittenList` | src/renderer/src/hooks/useLessonDurations.tsx:22-28 | loading after the persist write returns exactly the written list, an empty list included |
| `UseLessonDurations.LessonDurationsHook.constructor` | src/renderer/src/hooks/useLessonDurations.tsx:20-29 | the state is the loaded list and the store then maps the key to exactly it |
| `UseLessonDurations.LessonDurationsHook.Persist` | src/renderer/src/hooks/useLessonDurations.tsx:27-29 | the store maps the key to exactly the current list; other keys untouched |
| `UseLessonDurations.LessonDurationsHook.UpdateLessonDurations` | src/renderer/src/hooks/useLessonDurations.tsx:31-36 | the list is replaced wholesale and persisted; updating with the current list leaves the store unchanged |
| `UseLessonDurations.LessonDurationsHook.ResetToDefaults` | src/renderer/src/hooks/useLessonDurations.tsx:38-40 | the list, and the stored value, become the defaults |
| `UseSettings.LoadSettings` | src/renderer/src/hooks/useSettings.tsx:18-21 | the stored record when `settings` holds a non-empty value; with the key absent or empty, 5 warning minutes and no videos |
| `UseSettings.ReloadReadsWrittenSettings` | src/renderer/src/hooks/useSettings.tsx:18-25 | loading after the persist write returns exactly the written settings |
| `UseSettings.SettingsHook.constructor` | src/renderer/src/hooks/useSettings.tsx:18-25 | the state is the loaded settings and the store then maps the key to exactly them |
| `UseSettings.SettingsHook.Persist` | src/renderer/src/hooks/useSettings.tsx:23-25 | the store maps the key to exactly the current settings; other keys untouched |
| `UseSettings.SettingsHook.UpdateSettings` | src/renderer/src/hooks/useSettings.tsx:27-29 | the settings are replaced wholesale and persisted, and a reload returns them |
| `Preload.Api.constructor` | src/preload/index.ts:5-19 | the `api` object bound to the main window, with no invocation sent yet |
| `Preload.Api.ResizeWindow` | src/preload/index.ts:6-9 | logs full-screen-off strictly before the resize; the window ends windowed at the requested size, bottom-right unless `false` was passed (omitted means bottom-right), else centred |
| `Preload.Api.SetFullScreen` | src/preload/index.ts:10-12 | forwards exactly the flag; size and position untouched |
| `Preload.Api.UploadVideo` | src/preload/index.ts:13-15 | returns the main process's answer unchanged: nothing on cancel or no file, else the imported path |
| `Preload.Api.Perform` | src/preload/index.ts:6-12 | a timer resize request logs full-screen-off then the resize and leaves the window windowed at that size and placed as asked; a full-screen request logs one invocation and sets exactly that flag, size and position kept |
| `MainProcess.JsRound` | src/main/index.ts:26-27 | `Math.round`: the nearest integer, with halves rounded up |
| `MainProcess.CenterCoord` | src/main/index.ts:26-27 | the margin before the window is at most one unit larger than the margin after it |
| `MainProcess.CenterCoordIsRounded` | src/main/index.ts:26-27 | the integer formula equals `Math.round(origin + (extent − size)/2)` over the reals |
| `MainProcess.BottomRightCoord` | src/main/index.ts:40-41 | the window's far edge coincides with the work area's |
| `MainProcess.BrowserWindow.constructor` | src/main/index.ts:49-51 | a windowed window of the given size at the position the host chose |
| `MainProcess.BrowserWindow.SetSize` | src/main/index.ts:80 | only the size changes |
| `MainProcess.BrowserWindow.SetPosition` | src/main/index.ts:30 | only the position changes |
| `MainProcess.BrowserWindow.SetFullScreen` | src/main/index.ts:87 | only the full-screen flag changes |
| `MainProcess.CenterWindow` | src/main/index.ts:18-31 | the window is centred at its current size; size and full screen untouched |
| `MainProcess.PositionWindowBottomRight` | src/main/index.ts:32-45 | the window's right and bottom edges coincide with the work area's; size and full screen untouched |
| `MainProcess.HandleResizeWindow` | src/main/index.ts:78-84 | the size is set first; the window is then anchored bottom-right iff asked, else centred, using the new size |
| `MainProcess.HandleSetFullScreen` | src/main/index.ts:86-88 | full screen becomes the flag; size and position untouched |
| `MainProcess.Basename` | src/main/index.ts:100 | the longest slash-free suffix of the path |
| `MainProcess.BasenameAfterSeparator` | src/main/index.ts:100-105 | the basename of `prefix/name`, for a slash-free name, is the name |
| `MainProcess.Join3` | src/main/index.ts:101-105 | the function is the definition of a join without normalising; its contract locates the three segments and the two `/` separators between them |
| `MainProcess.BasenameOfJoin3` | src/main/index.ts:100-105 | the last segment of `a/b/c` is its basename |
| `MainProcess.HandleUploadVideo` | src/main/index.ts:90-120 | null iff cancelled or no path; otherwise `userData/videos/<basename>`, whose basename is that of the chosen file |

## Left out

- Rendering, styling and animation: every JSX/MUI tree, the tab state of the settings dialog, CSS keyframes, `Fade`/`Slide`.
- `Celebration.tsx` and `AnalogClock.tsx`: presentation only, with random confetti and floating-point trigonometry.
- `Warning.tsx`: presentation only. Its time split is the same formula as `TimerDisplay.Split`.
- `App.Started`: does not model JavaScript's `Date` range. If `now + minutes·60000` exceeds 8.64e15 ms in magnitude (about 1.44e11 minutes), the end time is an Invalid Date and `getTime()` is NaN. Every tick then shows 0 and takes neither branch, so that interval never finishes. In the model the end time is an unbounded integer, and `App.Ticked` finishes once remaining is 0.
- `TimerSelect.tsx`: it only calls `startTimer` with a preset or an unvalidated number. `App.Started` therefore takes any integer. Fractional minutes are floating point and are not modelled.
- JavaScript numbers are modelled as unbounded integers. NaN, fractions, `Number(...)` conversions of text and the 2^53 limit are not modelled.
- React effect re-subscription is modelled only where it changes what ticks: the interval rebuilt after a finish that clears a showing warning. The rebuilds after `startTimer` and after a warning only shift the tick phase, and are not modelled.
- `App.Timer.Tick`: React's stale-closure and scheduling timing are not modelled. The interval body sees the current state and runs only while `ticking` holds.
- Random ids are inputs. `SettingsModal.AddDuration` assumes the drawn id is not already in the list.
- `JSON.parse`/`JSON.stringify`: typed values are stored directly. What a load returns for corrupt JSON, or for a value of the other record's shape, is not modelled. `UseLessonDurations.LoadDurations` and `UseSettings.LoadSettings` require that the key does not hold the other record type.
- React's bail-out when a setter receives an identical value is not modelled. The persist write then stores the same value, so the store ends the same either way.
- The prop wiring between files is not modelled: the modal's `onSaveDurations`/`onSaveSettings` against the `onSave` that `App` passes, and the `isTimeRunningOut` and `onClickEnd` props that are never passed. Each file's logic is modelled as written.
- `TimerDisplay.Render` takes the warning minutes as an argument instead of reading the settings hook.
- Electron plumbing is trusted, not modelled: window options other than the size, the CSP header, the `safe-file` protocol, the native dialog, `fs.mkdirSync`/`copyFileSync`, `shell.openExternal`, app lifecycle events and the `ping` channel.
- IPC is modelled as ordered synchronous calls. Concurrent `async` invocations are not interleaved.
- `setAlwaysOnTop` is left out because its channel has no handler in the main process.
- `MainProcess.BrowserWindow.SetSize`: Electron's native behaviour is taken as plain field updates, including while the window is in full screen.
- `MainProcess.Join3`: does not model `path.join`'s normalisation (duplicate separators, `.` and `..` segments), because on a POSIX host a user-data directory and a file name from the dialog need none.
- `MainProcess.Basename`: does not model stripping of trailing separators or Windows `\` separators, because a POSIX host is assumed. On Windows the dialog returns `C:\…` paths, and `path.basename`/`path.join` use `\`. The main process does branch on `process.platform` elsewhere.
