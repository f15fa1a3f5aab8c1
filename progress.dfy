/** The progress bar value: the share of displayed checkboxes that are ticked
    (main.py, update_progress). */
module ProgressBar {
  import opened Checklist

  /** How many entries are ticked, counted from the front as update_progress's
      loop does. */
  function CheckedCount(entries: seq<Entry>): nat {
    if entries == [] then 0
    else CheckedCount(entries[..|entries| - 1]) + (if entries[|entries| - 1].checked then 1 else 0)
  }

  /** Ticked entries over all entries; 0 for an empty checklist. */
  function Progress(entries: seq<Entry>): real {
    if |entries| == 0 then 0.0 else CheckedCount(entries) as real / |entries| as real
  }

  /** The count lies between 0 and the length, reaches the length exactly
      when every entry is ticked, and is 0 exactly when none is. */
  lemma {:induction false} CheckedCountBounds(entries: seq<Entry>)
    ensures CheckedCount(entries) <= |entries|
    ensures CheckedCount(entries) == |entries| <==> forall i :: 0 <= i < |entries| ==> entries[i].checked
    ensures CheckedCount(entries) == 0 <==> forall i :: 0 <= i < |entries| ==> !entries[i].checked
  {
    if entries != [] {
      var init := entries[..|entries| - 1];
      CheckedCountBounds(init);
      assert forall i :: 0 <= i < |init| ==> init[i] == entries[i];
    }
  }

  /** A count no larger than a positive total gives a ratio in [0, 1] that
      is 1 exactly for a full count and 0 exactly for a zero count. */
  lemma RatioFacts(c: real, n: real)
    requires 0.0 <= c <= n && n > 0.0
    ensures 0.0 <= c / n <= 1.0
    ensures c / n == 1.0 <==> c == n
    ensures c / n == 0.0 <==> c == 0.0
  {
    var p := c / n;
    assert p * n == c;
    assert p + (n - c) / n == n / n;
    assert 0.0 <= (n - c) / n;
    if p == 1.0 { assert c == 1.0 * n; }
    if c == n { assert p == n / n; }
    if p == 0.0 { assert c == 0.0 * n; }
  }

  /** The progress value lies in [0, 1]; for a non-empty checklist it is 1
      exactly when every entry is ticked and 0 exactly when none is. */
  lemma ProgressRange(entries: seq<Entry>)
    ensures 0.0 <= Progress(entries) <= 1.0
    ensures |entries| > 0 ==>
      (Progress(entries) == 1.0 <==> forall i :: 0 <= i < |entries| ==> entries[i].checked)
    ensures |entries| > 0 ==>
      (Progress(entries) == 0.0 <==> forall i :: 0 <= i < |entries| ==> !entries[i].checked)
  {
    CheckedCountBounds(entries);
    if |entries| > 0 {
      RatioFacts(CheckedCount(entries) as real, |entries| as real);
    }
  }

  /** Two-entry checklists: both ticked gives 1, one ticked gives one half. */
  lemma ProgressOfPair(a: string, b: string)
    ensures Progress([Entry(a, true), Entry(b, true)]) == 1.0
    ensures Progress([Entry(a, true), Entry(b, false)]) == 0.5
    ensures Progress([Entry(a, false), Entry(b, true)]) == 0.5
    ensures Progress([]) == 0.0
  {
    assert [Entry(a, true), Entry(b, true)][..1] == [Entry(a, true)];
    assert [Entry(a, true), Entry(b, false)][..1] == [Entry(a, true)];
    assert [Entry(a, false), Entry(b, true)][..1] == [Entry(a, false)];
    assert [Entry(a, true)][..0] == [] && [Entry(a, false)][..0] == [];
    assert CheckedCount([Entry(a, true)]) == 1;
    assert CheckedCount([Entry(a, true), Entry(b, true)]) == 2;
    assert CheckedCount([Entry(a, false), Entry(b, true)]) == 1;
  }

  /** update_progress's computation: 0 for an empty checklist, otherwise the
      ticked entries are counted one by one and divided by the total. */
  method ComputeProgress(entries: seq<Entry>) returns (p: real)
    ensures p == Progress(entries)
    ensures 0.0 <= p <= 1.0
  {
    ProgressRange(entries);
    if |entries| == 0 {
      return 0.0;
    }
    var total := |entries|;
    var checked := 0;
    for k := 0 to total
      invariant checked == CheckedCount(entries[..k])
    {
      assert entries[..k + 1][..k] == entries[..k];
      if entries[k].checked {
        checked := checked + 1;
      }
    }
    assert entries[..total] == entries;
    p := if total > 0 then checked as real / total as real else 0.0;
  }
}
