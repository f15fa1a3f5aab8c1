/** The three fixed day plans of the tracker and the choice between them by
    mode name (main.py, the task lists and the branch at the top of set_mode). */
module Catalog {

  /** The day plans the application knows about. */
  datatype Mode = Short | Long | Holiday

  const ShortDayTasks: seq<string> := [
    "Power Workout (3:30 PM)",
    "Deep Coding Session (4:30 PM)",
    "Review Japanese (Night)",
    "Esports Scrims (9:00 PM)"
  ]

  const LongDayTasks: seq<string> := [
    "Recharge & Snack (5:30 PM)",
    "Quick Study / Review (6:30 PM)",
    "Light Stretch (7:30 PM)",
    "Esports Scrims (9:00 PM)"
  ]

  const HolidayTasks: seq<string> := [
    "Heavy Workout (8:00 AM)",
    "Deep Coding (10:00 AM - 12:00 PM)",
    "Japanese Writing (12:00 PM)",
    "Afternoon Gaming (2:00 PM)",
    "Farm Help / Review (4:00 PM)",
    "Esports Scrims (8:30 PM)"
  ]

  /** The label that the short-day and the long-day plan have in common. */
  const EveningScrims: string := "Esports Scrims (9:00 PM)"

  /** Which plan a mode name selects: only the exact names "Short" and "Long"
      pick their own plan; every other string, known or not, falls through to
      the holiday plan. */
  function ModeOf(name: string): (m: Mode)
    ensures m == Short <==> name == "Short"
    ensures m == Long <==> name == "Long"
    ensures m == Holiday <==> name != "Short" && name != "Long"
  {
    if name == "Short" then Short
    else if name == "Long" then Long
    else Holiday
  }

  function TasksFor(m: Mode): seq<string> {
    match m
    case Short => ShortDayTasks
    case Long => LongDayTasks
    case Holiday => HolidayTasks
  }

  /** The ordered labels that set_mode displays for a mode name. */
  function SelectTasks(name: string): (labels: seq<string>)
    ensures name == "Short" ==> labels == ShortDayTasks
    ensures name == "Long" ==> labels == LongDayTasks
    ensures name != "Short" && name != "Long" ==> labels == HolidayTasks
  {
    TasksFor(ModeOf(name))
  }

  /** No label occurs twice in a sequence. */
  predicate Distinct(labels: seq<string>) {
    forall i, j :: 0 <= i < j < |labels| ==> labels[i] != labels[j]
  }

  /** Every plan lists each of its labels once and is never empty. */
  lemma PlansWellFormed(name: string)
    ensures Distinct(SelectTasks(name))
    ensures |SelectTasks(name)| > 0
  {
    var labels := SelectTasks(name);
    forall i, j | 0 <= i < j < |labels| ensures labels[i] != labels[j] {
      // Labels of one plan already differ in their first character.
      assert labels[i][0] != labels[j][0];
    }
  }

  /** Labels are global keys: the evening scrims label is the last entry of
      both the short-day and the long-day plan, and the holiday plan does not
      contain it (its scrims entry has a different time). */
  lemma ScrimsShared()
    ensures ShortDayTasks[3] == EveningScrims && LongDayTasks[3] == EveningScrims
    ensures EveningScrims in SelectTasks("Short") && EveningScrims in SelectTasks("Long")
    ensures EveningScrims !in SelectTasks("Holiday")
  {
    forall i | 0 <= i < |HolidayTasks| ensures HolidayTasks[i] != EveningScrims {
      // Only the holiday scrims entry starts with 'E', and its hour differs.
      assert HolidayTasks[i][0] != EveningScrims[0] || HolidayTasks[i][16] != EveningScrims[16];
    }
  }
}
