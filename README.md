# Grind Tracker checklist engine in Dafny

Grind Tracker is a small Flet app: a daily checklist with three fixed day
plans (short day, long day, holiday). Ticks are remembered per task label,
they survive mode switches and restarts, and a progress bar shows the share
of the displayed tasks that are ticked. This project models the state engine
inside `main()` in `main.py`:

- `catalog.dfy`, module `Catalog`: the three ordered task lists and the choice
  of list by mode name. `"Short"` and `"Long"` pick their own lists. Any
  other string picks the holiday list.
- `checklist.dfy`, module `Checklist`: the completion store `saved_tasks` as a
  `map<string, bool>`, and the displayed checklist as a sequence of
  `Entry(task, checked)` pairs. `View` is the list that `set_mode` builds
  from a plan and the store.
- `progress.dfy`, module `ProgressBar`: the progress value as a `real`, equal
  to ticked entries divided by all entries, and 0 for an empty list.
  `ComputeProgress` is the counting loop of `update_progress`.
- `tracker.dfy`, module `Tracker`: `ClientStorage` is the client storage
  object, reduced to its two keys `task_states` and `last_mode`. `App` is
  the running app. Its fields are the store, the displayed list and the
  progress value. Its methods are the startup code, `update_progress`,
  `save_data`, `checkbox_changed` and `set_mode`. `App.Valid()` is the
  invariant that all of them keep:
  - the store matches what storage would load;
  - the displayed list is the shown plan's view of the store;
  - the progress value is computed from the displayed list;
  - the stored last mode is the shown one, or, when nothing is shown, one
    that startup would not replay.

  `SwitchAndBack`, `Restart` and `ScrimsAcrossModes` are client methods.
  Each one proves a property of a sequence of calls.

Three behaviours of the code are worth stating:
- `set_mode` persists its argument as given, known mode or not. There is no
  enumerated mode type in storage.
- Startup replays the stored mode only when it is a non-empty string
  (Python truthiness), not just when it is present (`Restored`).
- `checkbox_changed` writes the value the checkbox now shows. There is no
  separate "get then set" API.

Restart property. A restart reproduces the store, the displayed list and the
progress value, except when the shown mode is the empty string. Startup does
not replay `""`, but `set_mode("")` would show the holiday plan
(`EmptyModeNotRestored`). The app's buttons only ever pass `"Short"`,
`"Long"` and `"Holiday"`, so this case cannot come from the user interface.

## Model

| member | source | states |
|---|---|---|
| Catalog.ModeOf | main.py:80-88 | Mode lookup is total: the result is Short exactly for "Short", Long exactly for "Long", and Holiday for every other string |
| Catalog.SelectTasks | main.py:80-88 | The list set_mode uses is the short-day list for "Short", the long-day list for "Long", and the holiday list for any other mode string, unknown ones included |
| Catalog.PlansWellFormed | main.py:19-40 | Every plan is non-empty and lists each of its labels once |
| Catalog.ScrimsShared | main.py:19-40 | "Esports Scrims (9:00 PM)" is the last entry (index 3) of both the short-day and the long-day plan, and the holiday plan does not contain it |
| Checklist.ViewShowsPlan | main.py:91-101 | About View (the build loop, main.py:91-101) and Lookup (`saved_tasks.get(task, False)`, main.py:93): the displayed list has exactly one entry per label of the plan, in the plan's order, and each entry is ticked exactly when the store holds true for its label (missing means unticked) |
| Checklist.SetThenGet | main.py:72 | After writing V for label L, reading L gives V, every other label reads as before, and the store's keys grow by L only |
| Checklist.ToggleInView | main.py:70-73 | Ticking displayed entry i and recording that value under its label keeps the displayed list equal to the plan's view of the updated store |
| Checklist.UnlistedWriteInvisible | main.py:93 | Writing a label that a plan does not list leaves that plan's view unchanged |
| Checklist.ScrimsCarryAcrossModes | main.py:93 | A tick of the shared scrims label shows up in both the short-day and the long-day view, and the holiday view does not change |
| ProgressBar.CheckedCountBounds | main.py:60-64 | About CheckedCount (the counting loop, main.py:60-64): the ticked count is at most the list length, equals it exactly when all entries are ticked, and is 0 exactly when none is |
| ProgressBar.ProgressRange | main.py:54-67 | About Progress (the ratio with its empty-list case, main.py:56-66): progress lies in [0,1]. For a non-empty list it is 1 exactly when every entry is ticked and 0 exactly when none is |
| ProgressBar.ProgressOfPair | main.py:56-66 | The empty list gives 0, two ticked entries give 1, and one ticked entry of two gives 0.5 |
| ProgressBar.ComputeProgress | main.py:54-67 | The loop returns 0 for an empty list and otherwise the ticked count divided by the length, which is the value Progress defines and lies in [0,1] |
| Tracker.Restored | main.py:175-177 | Startup replays the stored last mode exactly when it is present and non-empty, and then replays that same string |
| Tracker.EmptyModeNotRestored | main.py:175-177 | A stored empty mode is not replayed, although set_mode would show a non-empty list for it |
| Tracker.App.constructor | main.py:14-16 | Startup loads the stored map, or an empty map when none is stored (Hydrate, main.py:14-16). It replays set_mode only for a truthy stored mode, otherwise the list is empty and progress is 0. Storage is left unchanged and the invariant holds |
| Tracker.App.UpdateProgress | main.py:54-67 | The progress value becomes Progress of the displayed list, which lies in [0,1] |
| Tracker.App.SaveData | main.py:49-52 | The persisted task_states becomes the in-memory store, and progress is recomputed |
| Tracker.App.CheckboxChanged | main.py:70-73 | Only the clicked entry changes on screen. The store changes at that entry's label only, and the persisted task_states equals the store. Mode and last_mode are unchanged, progress is recomputed, and the invariant is kept |
| Tracker.App.SetMode | main.py:75-106 | The list is rebuilt as the plan's view of the store, with nothing left over from the previous mode. The store and persisted task_states are unchanged, last_mode becomes exactly the given string, and progress is recomputed |
| Tracker.SwitchAndBack | main.py:75-105 | From mode M1 on screen, switching to M2 and back to M1 with no clicks in between shows the list exactly as left, ticks made in M1 included, with the same progress; the store and task_states are unchanged |
| Tracker.Restart | main.py:175-177 | Starting again on the same storage reproduces the store, the shown mode, the displayed list and the progress value (the shown mode must not be the empty string) |
| Tracker.ScrimsAcrossModes | main.py:70-101 | Ticking the scrims entry on the short-day plan and switching to the long-day plan shows that entry ticked there |

## Left out

- `run_timer` and `start_coding_timer` (the 25-minute focus timer). They start a background thread that sleeps and then shows a snack bar. That is concurrency, wall-clock time and UI, and the code has no guard against overlapping timers to state.
- Flet UI construction, buttons, layout, the status-text strings and `page.update()`. These are presentation only.
- Client storage as real I/O. It is an object with two optional fields. JSON serialisation, storage failures and stored values of other types are not modelled; a stored `task_states` is taken to be a map from label to bool.
- The `isinstance(control, ft.Checkbox)` test in `update_progress`. Every displayed control is a checkbox, so the displayed list holds label and value pairs directly.
- Float arithmetic of the progress bar value. Progress is an exact `real`.
- The event object of checkbox clicks. A click is identified by the index of the displayed checkbox and the value it now shows. Flet updating the checkbox's own value is folded into `CheckboxChanged`.
- Tracker.Restart: requires that the shown mode is not the empty string, because the code does not replay a stored `""` (see EmptyModeNotRestored).
