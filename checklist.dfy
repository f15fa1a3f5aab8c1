/** The completion store (main.py's saved_tasks) and the displayed checklist
    that set_mode builds from it. */
module Checklist {
  import opened Catalog

  /** One displayed checkbox: its label and whether it is ticked. */
  datatype Entry = Entry(task: string, checked: bool)

  /** Completion per label; labels are global keys, not scoped by mode. */
  type TaskStates = map<string, bool>

  /** The completion recorded for a task, false when none is recorded. */
  function Lookup(saved: TaskStates, task: string): bool {
    if task in saved then saved[task] else false
  }

  /** The checklist set_mode shows for the given labels: one entry per label,
      in order, ticked as the store says (unticked when the store is silent). */
  function View(labels: seq<string>, saved: TaskStates): seq<Entry> {
    seq(|labels|, i requires 0 <= i < |labels| => Entry(labels[i], Lookup(saved, labels[i])))
  }

  /** The labels of a displayed checklist, in display order. */
  function Labels(entries: seq<Entry>): seq<string> {
    seq(|entries|, i requires 0 <= i < |entries| => entries[i].task)
  }

  /** The displayed checklist has exactly the plan's labels, in the plan's
      order, and each entry is ticked exactly when the store records true. */
  lemma ViewShowsPlan(labels: seq<string>, saved: TaskStates)
    ensures Labels(View(labels, saved)) == labels
    ensures |View(labels, saved)| == |labels|
    ensures forall i :: 0 <= i < |labels| ==>
      View(labels, saved)[i].checked == (labels[i] in saved && saved[labels[i]])
  {
  }

  /** Writing one label (checkbox_changed) is read back at once and leaves
      every other label as it was; no label is ever removed. */
  lemma SetThenGet(saved: TaskStates, task: string, value: bool, other: string)
    ensures Lookup(saved[task := value], task) == value
    ensures other != task ==> Lookup(saved[task := value], other) == Lookup(saved, other)
    ensures saved[task := value].Keys == saved.Keys + {task}
  {
  }

  /** Ticking entry i of a displayed plan on screen and recording the same
      value in the store keep the screen equal to the view of the new store,
      because a plan lists each label once. */
  lemma {:induction false} ToggleInView(labels: seq<string>, saved: TaskStates, i: nat, value: bool)
    requires Distinct(labels)
    requires i < |labels|
    ensures View(labels, saved)[i := Entry(labels[i], value)] == View(labels, saved[labels[i] := value])
  {
    var before, after := View(labels, saved)[i := Entry(labels[i], value)], View(labels, saved[labels[i] := value]);
    forall k | 0 <= k < |labels| ensures before[k] == after[k] {
      if k != i {
        assert labels[k] != labels[i];
      }
    }
  }

  /** A write to a label that a plan does not list leaves that plan's view
      unchanged. */
  lemma UnlistedWriteInvisible(labels: seq<string>, saved: TaskStates, task: string, value: bool)
    requires task !in labels
    ensures View(labels, saved[task := value]) == View(labels, saved)
  {
    assert forall k :: 0 <= k < |labels| ==> labels[k] != task;
  }

  /** Completion is shared across modes: ticking the evening scrims entry
      while the short-day plan is shown makes it ticked in the long-day plan
      too, and leaves the holiday plan untouched. */
  lemma ScrimsCarryAcrossModes(saved: TaskStates, value: bool)
    ensures View(SelectTasks("Long"), saved[EveningScrims := value])[3] == Entry(EveningScrims, value)
    ensures View(SelectTasks("Short"), saved[EveningScrims := value])[3] == Entry(EveningScrims, value)
    ensures View(SelectTasks("Holiday"), saved[EveningScrims := value]) == View(SelectTasks("Holiday"), saved)
  {
    ScrimsShared();
    UnlistedWriteInvisible(HolidayTasks, saved, EveningScrims, value);
  }
}
