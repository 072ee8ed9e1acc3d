/**
 * The Quick Clean tab's selection in `main.py`: the set of selected paths
 * (`current_result["selected"]`), the category and item check boxes that
 * change it, the summary line with the Clean button, and the paths the
 * Clean button deletes.
 *
 * The items of a category are the result items tagged with it; the
 * streaming analysis that fills `category_map` is not part of this model.
 */
module CleanSelection {
  import opened Base
  import QuickClean

  /** The analysed items and the selected paths. */
  datatype Selection = Selection(items: seq<QuickClean.Item>, selected: set<string>)

  /** Whether an item's path is selected. */
  predicate IsPicked(selected: set<string>, i: QuickClean.Item)
  {
    i.path in selected
  }

  /** `[i for i in current_result["items"] if i.path in current_result["selected"]]`. */
  function PickedItems(s: Selection): seq<QuickClean.Item>
  {
    Filter(s.items, i => IsPicked(s.selected, i))
  }

  /** The selected size of `update_summary`. */
  function SelectedSize(s: Selection): nat
  {
    SumBy(PickedItems(s), QuickClean.ItemSize)
  }

  /** The state `update_summary` leaves: the count shown and whether Clean is disabled. */
  datatype Summary = Summary(count: nat, selectedSize: nat, cleanDisabled: bool)

  /**
   * `update_summary`: the count is the number of selected paths and the Clean
   * button is disabled exactly when the selected items add up to nothing.
   */
  function UpdateSummary(s: Selection): (r: Summary)
    ensures r.count == |s.selected|
    ensures r.selectedSize == SumBy(PickedItems(s), QuickClean.ItemSize)
    ensures r.cleanDisabled <==> r.selectedSize == 0
    ensures r.cleanDisabled <==>
      forall k :: 0 <= k < |s.items| && s.items[k].path in s.selected ==> s.items[k].size == 0
    ensures r.selectedSize <= SumBy(s.items, QuickClean.ItemSize)
  {
    FilteredSumAtMost(s.items, i => IsPicked(s.selected, i));
    PickedSumZeroIff(s);
    var total := SelectedSize(s);
    Summary(|s.selected|, total, total == 0)
  }

  /** A sum over a filtered sequence is at most the sum over the whole. */
  lemma {:induction false} FilteredSumAtMost(xs: seq<QuickClean.Item>, p: QuickClean.Item -> bool)
    ensures SumBy(Filter(xs, p), QuickClean.ItemSize) <= SumBy(xs, QuickClean.ItemSize)
    decreases |xs|
  {
    if |xs| > 0 {
      FilteredSumAtMost(xs[1..], p);
      if p(xs[0]) {
        assert ([xs[0]] + Filter(xs[1..], p))[1..] == Filter(xs[1..], p);
      }
    }
  }

  /** A sum of sizes is zero exactly when every size is zero. */
  lemma {:induction false} ZeroSumIffAllZero(xs: seq<QuickClean.Item>)
    ensures SumBy(xs, QuickClean.ItemSize) == 0 <==> forall k :: 0 <= k < |xs| ==> xs[k].size == 0
  {
    if |xs| > 0 {
      ZeroSumIffAllZero(xs[1..]);
      assert forall k :: 1 <= k < |xs| ==> xs[k] == xs[1..][k - 1];
    }
  }

  /** The selected items add up to nothing exactly when every selected item has size 0. */
  lemma PickedSumZeroIff(s: Selection)
    ensures SelectedSize(s) == 0 <==>
      forall k :: 0 <= k < |s.items| && s.items[k].path in s.selected ==> s.items[k].size == 0
  {
    var picked := PickedItems(s);
    ZeroSumIffAllZero(picked);
    if SelectedSize(s) == 0 {
      forall k | 0 <= k < |s.items| && s.items[k].path in s.selected
        ensures s.items[k].size == 0
      {
        assert IsPicked(s.selected, s.items[k]);
        var j :| 0 <= j < |picked| && picked[j] == s.items[k];
      }
    }
  }

  /** Every item has a positive size, as the gatherers guarantee. */
  ghost predicate AllSized(items: seq<QuickClean.Item>)
  {
    forall i :: 0 <= i < |items| ==> items[i].size > 0
  }

  /** A sum of positive sizes is zero exactly when there is nothing to sum. */
  lemma {:induction false} PositiveSumIsZeroOnlyWhenEmpty(xs: seq<QuickClean.Item>)
    requires AllSized(xs)
    ensures SumBy(xs, QuickClean.ItemSize) == 0 <==> xs == []
  {
    if |xs| > 0 {
      assert QuickClean.ItemSize(xs[0]) > 0;
    }
  }

  /**
   * With gathered items, Clean is disabled exactly when no item is
   * selected: the summary agrees with what the Clean button would delete.
   */
  lemma CleanDisabledIffNothingPicked(s: Selection)
    requires AllSized(s.items)
    ensures UpdateSummary(s).cleanDisabled <==> CleanTargets(s) == []
  {
    var picked := PickedItems(s);
    assert AllSized(picked) by {
      forall k | 0 <= k < |picked| ensures picked[k].size > 0 {
        assert picked[k] in s.items;
      }
    }
    PositiveSumIsZeroOnlyWhenEmpty(picked);
    PathsOfEmpty(picked);
  }

  /** The paths of the items, in order. */
  function PathsOf(items: seq<QuickClean.Item>): (ps: seq<string>)
    ensures |ps| == |items|
    ensures forall k :: 0 <= k < |items| ==> ps[k] == items[k].path
  {
    if |items| == 0 then [] else [items[0].path] + PathsOf(items[1..])
  }

  lemma PathsOfEmpty(items: seq<QuickClean.Item>)
    ensures PathsOf(items) == [] <==> items == []
  {
  }

  /**
   * `clean_files`: the paths of the selected items in result order; when
   * there are none the handler returns without deleting anything.
   */
  function CleanTargets(s: Selection): (ps: seq<string>)
    ensures forall p :: p in ps <==> exists k :: 0 <= k < |s.items| && s.items[k].path == p && p in s.selected
  {
    var picked := PickedItems(s);
    forall p | p in PathsOf(picked)
      ensures exists k :: 0 <= k < |s.items| && s.items[k].path == p && p in s.selected
    {
      var j :| 0 <= j < |picked| && PathsOf(picked)[j] == p;
      assert picked[j] in s.items;
    }
    forall k | 0 <= k < |s.items| && s.items[k].path in s.selected
      ensures s.items[k].path in PathsOf(picked)
    {
      assert IsPicked(s.selected, s.items[k]);
      var j :| 0 <= j < |picked| && picked[j] == s.items[k];
      assert PathsOf(picked)[j] == s.items[k].path;
    }
    PathsOf(picked)
  }

  // ---------------------------------------------------------------------------
  // Check boxes
  // ---------------------------------------------------------------------------

  /** The paths of the items tagged `cat`. */
  function CategoryPaths(items: seq<QuickClean.Item>, cat: string): (ps: set<string>)
    ensures forall p :: p in ps <==> exists k :: 0 <= k < |items| && items[k].category == cat && items[k].path == p
  {
    set k | 0 <= k < |items| && items[k].category == cat :: items[k].path
  }

  /**
   * The value a category check box is drawn with: the category has items
   * and every one of them is selected.
   */
  predicate CategoryChecked(s: Selection, cat: string)
  {
    && (exists k :: 0 <= k < |s.items| && s.items[k].category == cat)
    && forall k :: 0 <= k < |s.items| && s.items[k].category == cat ==> s.items[k].path in s.selected
  }

  /** Ticking a category adds its items' paths; clearing it discards them. */
  function ToggleCategory(s: Selection, cat: string, checked: bool): (t: Selection)
    ensures t.items == s.items
    ensures checked ==> CategoryPaths(s.items, cat) <= t.selected
    ensures !checked ==> t.selected !! CategoryPaths(s.items, cat)
    ensures forall p :: p !in CategoryPaths(s.items, cat) ==> (p in t.selected <==> p in s.selected)
  {
    var ps := CategoryPaths(s.items, cat);
    Selection(s.items, if checked then s.selected + ps else s.selected - ps)
  }

  /** A path whose check box is ticked is added, one that is cleared is discarded. */
  function ToggleItem(s: Selection, path: string, checked: bool): (t: Selection)
    ensures t.items == s.items
    ensures path in t.selected <==> checked
    ensures forall p :: p != path ==> (p in t.selected <==> p in s.selected)
  {
    Selection(s.items, if checked then s.selected + {path} else s.selected - {path})
  }

  /** After ticking a category that has items, its box is drawn checked. */
  lemma TickedCategoryIsChecked(s: Selection, cat: string)
    requires exists k :: 0 <= k < |s.items| && s.items[k].category == cat
    ensures CategoryChecked(ToggleCategory(s, cat, true), cat)
  {
  }

  /** After clearing a category, none of its items is selected and its box is drawn unchecked. */
  lemma ClearedCategoryIsUnchecked(s: Selection, cat: string)
    ensures !CategoryChecked(ToggleCategory(s, cat, false), cat)
    ensures forall k :: 0 <= k < |s.items| && s.items[k].category == cat ==>
      s.items[k].path !in ToggleCategory(s, cat, false).selected
  {
  }

  /** An empty category is never drawn checked. */
  lemma EmptyCategoryIsUnchecked(s: Selection, cat: string)
    requires forall k :: 0 <= k < |s.items| ==> s.items[k].category != cat
    ensures !CategoryChecked(s, cat)
  {
  }

  /**
   * Clearing a category undoes ticking it: what is left is the earlier
   * selection without the category's paths.
   */
  lemma TickThenClear(s: Selection, cat: string)
    ensures ToggleCategory(ToggleCategory(s, cat, true), cat, false).selected
      == s.selected - CategoryPaths(s.items, cat)
  {
  }

  /**
   * Toggling one category leaves the check box of a category whose paths
   * it does not share as it was.
   */
  lemma OtherCategoryKeepsItsBox(s: Selection, cat: string, other: string, checked: bool)
    requires CategoryPaths(s.items, cat) !! CategoryPaths(s.items, other)
    ensures CategoryChecked(ToggleCategory(s, cat, checked), other) <==> CategoryChecked(s, other)
  {
    var t := ToggleCategory(s, cat, checked);
    forall k | 0 <= k < |s.items| && s.items[k].category == other
      ensures s.items[k].path in t.selected <==> s.items[k].path in s.selected
    {
      assert s.items[k].path in CategoryPaths(s.items, other);
    }
  }

  /** Ticking every item of a category one by one draws the category checked. */
  lemma {:induction false} TickingEachItemChecksCategory(s: Selection, cat: string, ks: seq<nat>)
    requires exists k :: 0 <= k < |s.items| && s.items[k].category == cat
    requires forall j :: 0 <= j < |ks| ==> ks[j] < |s.items|
    requires forall k :: 0 <= k < |s.items| && s.items[k].category == cat ==> k in ks
    ensures CategoryChecked(TickAll(s, ks), cat)
  {
    TickAllSelects(s, ks);
  }

  /** Ticking the items at the given positions, in order. */
  function TickAll(s: Selection, ks: seq<nat>): (t: Selection)
    requires forall j :: 0 <= j < |ks| ==> ks[j] < |s.items|
    ensures t.items == s.items
    decreases |ks|
  {
    if |ks| == 0 then s else TickAll(ToggleItem(s, s.items[ks[0]].path, true), ks[1..])
  }

  /** Ticking items keeps what was selected and adds each ticked item's path. */
  lemma {:induction false} TickAllSelects(s: Selection, ks: seq<nat>)
    requires forall j :: 0 <= j < |ks| ==> ks[j] < |s.items|
    ensures s.selected <= TickAll(s, ks).selected
    ensures forall j :: 0 <= j < |ks| ==> s.items[ks[j]].path in TickAll(s, ks).selected
    decreases |ks|
  {
    if |ks| > 0 {
      var s1 := ToggleItem(s, s.items[ks[0]].path, true);
      TickAllSelects(s1, ks[1..]);
      forall j | 0 <= j < |ks|
        ensures s.items[ks[j]].path in TickAll(s, ks).selected
      {
        if j > 0 {
          assert ks[1..][j - 1] == ks[j];
        }
      }
    }
  }
}
