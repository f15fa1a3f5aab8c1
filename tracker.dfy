/** The state engine inside main.py's main(): the completion store, the
    displayed checklist, the progress value and the two keys kept in the
    client's durable storage, with the handlers that change them. */
module Tracker {
  import opened Catalog
  import opened Checklist
  import opened ProgressBar

  datatype Option<T> = None | Some(value: T)

  /** The client's durable key-value storage, reduced to the two keys the
      application uses: "task_states" and "last_mode". An absent key is None. */
  class ClientStorage {
    var taskStates: Option<TaskStates>
    var lastMode: Option<string>

    constructor (taskStates: Option<TaskStates>, lastMode: Option<string>)
      ensures this.taskStates == taskStates && this.lastMode == lastMode
    {
      this.taskStates := taskStates;
      this.lastMode := lastMode;
    }
  }

  /** The completion store loaded at startup: the stored map, or an empty one
      when nothing is stored. */
  function Hydrate(stored: Option<TaskStates>): TaskStates {
    match stored
    case None => map[]
    case Some(saved) => saved
  }

  /** The mode startup replays: the stored mode when it is present and
      non-empty (Python's truthiness of a string), otherwise none. */
  function Restored(stored: Option<string>): (mode: Option<string>)
    ensures mode.Some? <==> stored.Some? && stored.value != ""
    ensures mode.Some? ==> mode == stored
  {
    if stored.Some? && stored.value != "" then stored else None
  }

  /** A mode stored as the empty string is not replayed at startup, although
      set_mode would have shown the (non-empty) holiday plan for it. */
  lemma EmptyModeNotRestored(saved: TaskStates)
    ensures Restored(Some("")) == None
    ensures View(SelectTasks(""), saved) != []
  {
    PlansWellFormed("");
  }

  class App {
    /** The page's client storage; it outlives the App across restarts. */
    const storage: ClientStorage
    /** saved_tasks: completion per label. */
    var savedTasks: TaskStates
    /** task_list.controls: the displayed checkboxes, in order. */
    var taskList: seq<Entry>
    /** progress_bar.value. */
    var progress: real
    /** The mode whose plan is displayed; None before the first set_mode. */
    ghost var shown: Option<string>

    /** The in-memory store is what the storage would hydrate to. */
    ghost predicate StorageAgrees()
      reads this, storage
    {
      Hydrate(storage.taskStates) == savedTasks
    }

    /** The engine's invariant: the store agrees with storage, the displayed
        list is the shown plan's view of the store, the progress value is
        computed from that list, and the persisted last mode is the one whose
        plan is shown (or one that startup would not replay). */
    ghost predicate Valid()
      reads this, storage
    {
      && StorageAgrees()
      && (shown.Some? ==> storage.lastMode == shown)
      && (shown.None? ==> Restored(storage.lastMode).None?)
      && taskList == (if shown.Some? then View(SelectTasks(shown.value), savedTasks) else [])
      && progress == Progress(taskList)
    }

    /** Application start: load the completion store (empty when nothing is
        stored) and replay set_mode for a stored, non-empty last mode. */
    constructor (storage: ClientStorage)
      modifies storage
      ensures Valid() && this.storage == storage
      ensures savedTasks == Hydrate(old(storage.taskStates))
      ensures shown == Restored(old(storage.lastMode))
      ensures shown.None? ==> taskList == [] && progress == 0.0
      ensures shown.Some? ==> taskList == View(SelectTasks(shown.value), savedTasks)
      ensures storage.taskStates == old(storage.taskStates)
      ensures storage.lastMode == old(storage.lastMode)
    {
      this.storage := storage;
      savedTasks := Hydrate(storage.taskStates);
      taskList := [];
      progress := 0.0;
      shown := None;
      new;
      var lastMode := storage.lastMode;
      if lastMode.Some? && lastMode.value != "" {
        SetMode(lastMode.value);
      }
    }

    /** update_progress: recompute the bar from the displayed list. */
    method UpdateProgress()
      modifies this`progress
      ensures progress == Progress(taskList)
      ensures 0.0 <= progress <= 1.0
    {
      progress := ComputeProgress(taskList);
    }

    /** save_data: write the whole store to "task_states", then update the
        progress value. */
    method SaveData()
      modifies storage`taskStates, this`progress
      ensures storage.taskStates == Some(savedTasks)
      ensures progress == Progress(taskList)
    {
      storage.taskStates := Some(savedTasks);
      UpdateProgress();
    }

    /** A click on displayed checkbox `index` that leaves it at `value`: the
        checkbox shows the new value, checkbox_changed records it under the
        checkbox's label and save_data persists the store. */
    method CheckboxChanged(index: nat, value: bool)
      requires Valid()
      requires index < |taskList|
      modifies this, storage`taskStates
      ensures Valid()
      ensures taskList == old(taskList)[index := Entry(old(taskList[index].task), value)]
      ensures savedTasks == old(savedTasks)[old(taskList[index].task) := value]
      ensures storage.taskStates == Some(savedTasks)
      ensures shown == old(shown) && storage.lastMode == old(storage.lastMode)
      ensures progress == Progress(taskList)
    {
      var task := taskList[index].task;
      taskList := taskList[index := Entry(task, value)];
      savedTasks := savedTasks[task := value];
      SaveData();
      PlansWellFormed(shown.value);
      ToggleInView(SelectTasks(shown.value), old(savedTasks), index, value);
    }

    /** set_mode: clear the list, append one checkbox per label of the chosen
        plan as the store records it, persist the mode as given, and update
        the progress value. The store itself is only read. */
    method SetMode(mode: string)
      requires StorageAgrees()
      modifies this, storage`lastMode
      ensures Valid()
      ensures shown == Some(mode)
      ensures taskList == View(SelectTasks(mode), savedTasks)
      ensures savedTasks == old(savedTasks)
      ensures storage.taskStates == old(storage.taskStates)
      ensures storage.lastMode == Some(mode)
      ensures progress == Progress(taskList)
    {
      taskList := [];
      var currentTasks := SelectTasks(mode);
      for k := 0 to |currentTasks|
        invariant savedTasks == old(savedTasks)
        invariant taskList == View(currentTasks[..k], savedTasks)
      {
        var task := currentTasks[k];
        var isChecked := if task in savedTasks then savedTasks[task] else false;
        taskList := taskList + [Entry(task, isChecked)];
      }
      assert currentTasks[..|currentTasks|] == currentTasks;
      storage.lastMode := Some(mode);
      shown := Some(mode);
      UpdateProgress();
    }
  }

  /** Leaving the shown mode `first` for `second` and coming back with no
      clicks in between shows the list exactly as it was left, ticks made
      before leaving included, with the same progress value. */
  method SwitchAndBack(app: App, first: string, second: string)
    requires app.Valid()
    requires app.shown == Some(first)
    modifies app, app.storage`lastMode
    ensures app.Valid() && app.shown == Some(first)
    ensures app.taskList == old(app.taskList)
    ensures app.progress == old(app.progress)
    ensures app.savedTasks == old(app.savedTasks)
    ensures app.storage.taskStates == old(app.storage.taskStates)
    ensures app.storage.lastMode == Some(first)
  {
    app.SetMode(second);
    app.SetMode(first);
  }

  /** Closing the application and starting it again on the same storage
      reproduces the store, the displayed list and the progress value, unless
      the shown mode was the empty string, which startup does not replay
      (see EmptyModeNotRestored). */
  method Restart(app: App) returns (reopened: App)
    requires app.Valid()
    requires app.shown != Some("")
    modifies app.storage
    ensures reopened.Valid() && reopened.storage == app.storage
    ensures reopened.savedTasks == app.savedTasks
    ensures reopened.shown == app.shown
    ensures reopened.taskList == app.taskList
    ensures reopened.progress == app.progress
    ensures app.storage.taskStates == old(app.storage.taskStates)
    ensures app.storage.lastMode == old(app.storage.lastMode)
  {
    reopened := new App(app.storage);
  }

  /** Ticking the evening scrims entry on the short-day plan and then
      switching to the long-day plan shows that entry ticked there too. */
  method ScrimsAcrossModes(app: App, value: bool)
    requires app.Valid()
    requires app.shown == Some("Short")
    modifies app, app.storage
    ensures app.Valid() && app.shown == Some("Long")
    ensures app.taskList[3] == Entry(EveningScrims, value)
    ensures app.storage.taskStates == Some(app.savedTasks)
  {
    ScrimsShared();
    app.CheckboxChanged(3, value);
    app.SetMode("Long");
    ScrimsCarryAcrossModes(old(app.savedTasks), value);
  }
}
