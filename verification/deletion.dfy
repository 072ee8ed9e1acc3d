/**
 * The delete gate and the deletion executor, in the two forms the code
 * has them: the dialog-based manager of `deletion.py` and the inline
 * handlers of `main.py` (`check_delete_button_state`,
 * `simple_delete_selected_handler`, `perform_deletion`). Both read the
 * selection off the result rows and classify each selected path with
 * `get_safety_info`; one red path blocks the whole batch.
 */
module Deletion {
  import opened Base
  import Strings
  import PosixPath
  import Rules
  import Safety
  import DirCache
  import Scanner
  import RuleFacts

  // ---------------------------------------------------------------------------
  // Selection
  // ---------------------------------------------------------------------------

  /**
   * A row counts as selected when it has trailing controls, the first of
   * them is a Checkbox, the box is checked, and the row carries `data`.
   */
  predicate IsSelected(r: Scanner.Row)
  {
    && HasBox(r)
    && r.trailing.value[0].checked
    && r.data.Some?
  }

  /** The first trailing control of the row is a Checkbox. */
  predicate HasBox(r: Scanner.Row)
  {
    r.trailing.Some? && |r.trailing.value| > 0 && r.trailing.value[0].Checkbox?
  }

  /** The `data` of the selected rows, in row order. */
  function SelectedPaths(rows: seq<Scanner.Row>): (ps: seq<string>)
    ensures |ps| <= |rows|
    ensures forall p :: p in ps <==> exists i :: 0 <= i < |rows| && IsSelected(rows[i]) && rows[i].data.value == p
  {
    if |rows| == 0 then []
    else
      var rest := SelectedPaths(rows[1..]);
      assert forall i :: 1 <= i < |rows| ==> rows[i] == rows[1..][i - 1];
      if IsSelected(rows[0]) then [rows[0].data.value] + rest else rest
  }

  /**
   * The user ticks or unticks the box of row `i`. A row whose first trailing
   * control is not a Checkbox has no box to click.
   */
  function SetChecked(rows: seq<Scanner.Row>, i: nat, value: bool): (r: seq<Scanner.Row>)
    requires i < |rows|
    ensures |r| == |rows|
    ensures forall j :: 0 <= j < |rows| && j != i ==> r[j] == rows[j]
    ensures HasBox(rows[i]) ==>
      && HasBox(r[i])
      && r[i].trailing.value[0] == Scanner.Checkbox(value)
      && r[i].trailing.value[1..] == rows[i].trailing.value[1..]
      && r[i].(trailing := rows[i].trailing) == rows[i]
    ensures !HasBox(rows[i]) ==> r == rows
  {
    var row := rows[i];
    if HasBox(row) then
      rows[i := row.(trailing := Some(row.trailing.value[0 := Scanner.Checkbox(value)]))]
    else rows
  }

  /** Ticking a row with a box and `data` adds its path to the selection and keeps every other selected path. */
  lemma TickSelects(rows: seq<Scanner.Row>, i: nat)
    requires i < |rows| && HasBox(rows[i]) && rows[i].data.Some?
    ensures forall p :: p in SelectedPaths(SetChecked(rows, i, true)) <==>
      p in SelectedPaths(rows) || p == rows[i].data.value
  {
    var r := SetChecked(rows, i, true);
    assert IsSelected(r[i]);
    forall p | p in SelectedPaths(rows) ensures p in SelectedPaths(r) {
      var j :| 0 <= j < |rows| && IsSelected(rows[j]) && rows[j].data.value == p;
      if j == i {
        assert IsSelected(r[i]) && r[i].data.value == p;
      } else {
        assert IsSelected(r[j]) && r[j].data.value == p;
      }
    }
    forall p | p in SelectedPaths(r) && p != rows[i].data.value ensures p in SelectedPaths(rows) {
      var j :| 0 <= j < |r| && IsSelected(r[j]) && r[j].data.value == p;
      assert j != i;
      assert IsSelected(rows[j]) && rows[j].data.value == p;
    }
  }

  /**
   * Unticking a row with a box and `data` removes its path from the
   * selection, when no other ticked row carries the same path, and keeps
   * every other selected path.
   */
  lemma UntickDeselects(rows: seq<Scanner.Row>, i: nat)
    requires i < |rows| && HasBox(rows[i]) && rows[i].data.Some?
    requires forall j :: 0 <= j < |rows| && j != i && IsSelected(rows[j]) ==> rows[j].data.value != rows[i].data.value
    ensures forall p :: p in SelectedPaths(SetChecked(rows, i, false)) <==>
      p in SelectedPaths(rows) && p != rows[i].data.value
  {
    var r := SetChecked(rows, i, false);
    assert !IsSelected(r[i]);
    forall p | p in SelectedPaths(rows) && p != rows[i].data.value ensures p in SelectedPaths(r) {
      var j :| 0 <= j < |rows| && IsSelected(rows[j]) && rows[j].data.value == p;
      assert j != i;
      assert IsSelected(r[j]) && r[j].data.value == p;
    }
    forall p | p in SelectedPaths(r) ensures p in SelectedPaths(rows) && p != rows[i].data.value {
      var j :| 0 <= j < |r| && IsSelected(r[j]) && r[j].data.value == p;
      assert j != i;
      assert IsSelected(rows[j]) && rows[j].data.value == p;
    }
  }

  /** A selected path together with the level `get_safety_info` gives it. */
  datatype Selected = Selected(path: string, level: Rules.Level)

  /** How the gate learns a path's level. */
  type Classifier = string -> Rules.Level

  /** `get_safety_info(path)["safety"]` for the given home directory and verdict cache. */
  function SafetyLevels(home: string, verdicts: Safety.VerdictCache): Classifier
  {
    p => Safety.GetSafetyInfo(home, verdicts, p).level
  }

  /** Every path with its level, in order. */
  function Classify(levelOf: Classifier, ps: seq<string>): (r: seq<Selected>)
    ensures |r| == |ps|
    ensures forall i :: 0 <= i < |ps| ==> r[i] == Selected(ps[i], levelOf(ps[i]))
  {
    if |ps| == 0 then []
    else [Selected(ps[0], levelOf(ps[0]))] + Classify(levelOf, ps[1..])
  }

  /** The paths of the red items, in order (`unsafe_items`). */
  function RedPaths(items: seq<Selected>): (ps: seq<string>)
    ensures |ps| <= |items|
    ensures forall p :: p in ps <==> exists i :: 0 <= i < |items| && items[i].level == Rules.Red && items[i].path == p
  {
    if |items| == 0 then []
    else
      var rest := RedPaths(items[1..]);
      assert forall i :: 1 <= i < |items| ==> items[i] == items[1..][i - 1];
      if items[0].level == Rules.Red then [items[0].path] + rest else rest
  }

  /** Some item is red. */
  predicate AnyRed(items: seq<Selected>)
  {
    exists i :: 0 <= i < |items| && items[i].level == Rules.Red
  }

  /** There are no red paths exactly when no item is red. */
  lemma {:induction false} NoRedPaths(items: seq<Selected>)
    ensures RedPaths(items) == [] <==> !AnyRed(items)
  {
    if |items| > 0 {
      NoRedPaths(items[1..]);
      assert forall i :: 1 <= i < |items| ==> items[i] == items[1..][i - 1];
    }
  }

  // ---------------------------------------------------------------------------
  // The gate
  // ---------------------------------------------------------------------------

  /** The three ways a click on "Delete" can end. */
  datatype Gate = NothingSelected | Rejected(unsafe: seq<string>) | Confirm(items: seq<Selected>)

  /**
   * `delete_selected_items` and `simple_delete_selected_handler`: nothing
   * selected ends there; any red selected path rejects the batch and names
   * every red path; otherwise every selected item goes to confirmation, in
   * row order.
   */
  function GateDecision(levelOf: Classifier, rows: seq<Scanner.Row>): (g: Gate)
    ensures var items := Classify(levelOf, SelectedPaths(rows));
      && (g.NothingSelected? <==> SelectedPaths(rows) == [])
      && (g.Rejected? <==> SelectedPaths(rows) != [] && AnyRed(items))
      && (g.Rejected? ==> g.unsafe == RedPaths(items) && g.unsafe != [])
      && (g.Confirm? ==> g.items == items && forall i :: 0 <= i < |g.items| ==> g.items[i].level != Rules.Red)
  {
    var items := Classify(levelOf, SelectedPaths(rows));
    if items == [] then NothingSelected
    else
      var unsafe := RedPaths(items);
      NoRedPaths(items);
      assert SelectedPaths(rows) != [];
      if unsafe != [] then
        Rejected(unsafe)
      else Confirm(items)
  }

  /**
   * A selection holding only the login keychain is not blocked: the path
   * classifies orange because the rule for everything under `~/Library`
   * precedes its red rule, so the gate goes straight to confirmation.
   */
  lemma LoginKeychainPassesGate(user: string, verdicts: Safety.VerdictCache, rows: seq<Scanner.Row>, p: string, rest: string)
    requires RuleFacts.IsUserName(user)
    requires SelectedPaths(rows) == [p]
    requires PosixPath.NormalizePath(RuleFacts.Home(user), p) == RuleFacts.Home(user) + "/Library/Keychains/login.keychain" + rest
    requires PosixPath.NormalizePath(RuleFacts.Home(user), p) !in verdicts
    ensures GateDecision(SafetyLevels(RuleFacts.Home(user), verdicts), rows).Confirm?
  {
    LoginKeychainNotRed(user, verdicts, p, rest);
    SingleSafeSelectionConfirms(SafetyLevels(RuleFacts.Home(user), verdicts), rows);
  }

  /** The login keychain is not classified red. */
  lemma LoginKeychainNotRed(user: string, verdicts: Safety.VerdictCache, p: string, rest: string)
    requires RuleFacts.IsUserName(user)
    requires PosixPath.NormalizePath(RuleFacts.Home(user), p) == RuleFacts.Home(user) + "/Library/Keychains/login.keychain" + rest
    requires PosixPath.NormalizePath(RuleFacts.Home(user), p) !in verdicts
    ensures SafetyLevels(RuleFacts.Home(user), verdicts)(p) != Rules.Red
  {
    RuleFacts.LoginKeychainIsOrange(user, verdicts, p, rest);
  }

  /** One selected path that is not red leads to the confirmation. */
  lemma SingleSafeSelectionConfirms(levelOf: Classifier, rows: seq<Scanner.Row>)
    requires |SelectedPaths(rows)| == 1 && levelOf(SelectedPaths(rows)[0]) != Rules.Red
    ensures GateDecision(levelOf, rows).Confirm?
  {
    NoRedPaths(Classify(levelOf, SelectedPaths(rows)));
  }

  /**
   * `check_delete_button_state`: scans the rows, stops at the first selected
   * red path, and reports whether the delete button is enabled (something
   * selected, nothing red) and whether it is visible (something selected).
   */
  method DeleteButtonState(levelOf: Classifier, rows: seq<Scanner.Row>)
    returns (enabled: bool, visible: bool)
    ensures enabled <==> GateDecision(levelOf, rows).Confirm?
    ensures visible <==> !GateDecision(levelOf, rows).NothingSelected?
  {
    var hasSelection := false;
    var hasUnsafe := false;
    var i := 0;
    while i < |rows|
      invariant 0 <= i <= |rows|
      invariant hasSelection <==> SelectedPaths(rows[..i]) != []
      invariant !hasUnsafe ==> RedPaths(Classify(levelOf, SelectedPaths(rows[..i]))) == []
      invariant hasUnsafe ==> RedPaths(Classify(levelOf, SelectedPaths(rows))) != [] && hasSelection
    {
      SelectedPrefix(levelOf, rows, i);
      if IsSelected(rows[i]) {
        hasSelection := true;
        if levelOf(rows[i].data.value) == Rules.Red {
          hasUnsafe := true;
          RedAppears(levelOf, rows, i);
          break;
        }
      }
      i := i + 1;
    }
    if !hasUnsafe {
      assert rows[..i] == rows;
    }
    enabled := hasSelection && !hasUnsafe;
    visible := hasSelection;
    if hasUnsafe {
      assert SelectedPaths(rows) != [] by {
        RedAppears(levelOf, rows, i);
      }
    }
  }

  /** The selection of one more row extends the selection of the rows before it. */
  lemma SelectedPrefix(levelOf: Classifier, rows: seq<Scanner.Row>, i: nat)
    requires i < |rows|
    ensures SelectedPaths(rows[..i + 1]) ==
      SelectedPaths(rows[..i]) + (if IsSelected(rows[i]) then [rows[i].data.value] else [])
    ensures RedPaths(Classify(levelOf, SelectedPaths(rows[..i + 1]))) ==
      RedPaths(Classify(levelOf, SelectedPaths(rows[..i]))) +
      RedPaths(Classify(levelOf, if IsSelected(rows[i]) then [rows[i].data.value] else []))
  {
    assert rows[..i + 1] == rows[..i] + [rows[i]];
    SelectedAppend(rows[..i], [rows[i]]);
    var tail := if IsSelected(rows[i]) then [rows[i].data.value] else [];
    assert SelectedPaths([rows[i]]) == tail by {
      assert [rows[i]][1..] == [];
    }
    ClassifyAppend(levelOf, SelectedPaths(rows[..i]), tail);
    RedAppend(Classify(levelOf, SelectedPaths(rows[..i])), Classify(levelOf, tail));
  }

  /** A selected red row makes the whole selection contain a red path. */
  lemma RedAppears(levelOf: Classifier, rows: seq<Scanner.Row>, i: nat)
    requires i < |rows| && IsSelected(rows[i])
    requires levelOf(rows[i].data.value) == Rules.Red
    ensures RedPaths(Classify(levelOf, SelectedPaths(rows))) != []
    ensures SelectedPaths(rows) != []
  {
    var p := rows[i].data.value;
    assert p in SelectedPaths(rows);
    var ps := SelectedPaths(rows);
    var k :| 0 <= k < |ps| && ps[k] == p;
    var items := Classify(levelOf, ps);
    assert items[k].level == Rules.Red && items[k].path == p;
    assert p in RedPaths(items);
  }

  /** Selection distributes over concatenated rows. */
  lemma {:induction false} SelectedAppend(a: seq<Scanner.Row>, b: seq<Scanner.Row>)
    ensures SelectedPaths(a + b) == SelectedPaths(a) + SelectedPaths(b)
  {
    if |a| == 0 {
      assert a + b == b;
    } else {
      assert (a + b)[1..] == a[1..] + b;
      SelectedAppend(a[1..], b);
    }
  }

  /** Classification distributes over concatenated paths. */
  lemma ClassifyAppend(levelOf: Classifier, a: seq<string>, b: seq<string>)
    ensures Classify(levelOf, a + b) == Classify(levelOf, a) + Classify(levelOf, b)
  {
  }

  /** The red paths distribute over concatenated items. */
  lemma {:induction false} RedAppend(a: seq<Selected>, b: seq<Selected>)
    ensures RedPaths(a + b) == RedPaths(a) + RedPaths(b)
  {
    if |a| == 0 {
      assert a + b == b;
    } else {
      assert (a + b)[1..] == a[1..] + b;
      RedAppend(a[1..], b);
    }
  }

  // ---------------------------------------------------------------------------
  // What the user is told
  // ---------------------------------------------------------------------------

  /** The names shown for rejected paths: their basenames joined by ", ". */
  function UnsafeNames(unsafe: seq<string>): string
  {
    Strings.JoinWith(", ", BasenamesOf(unsafe))
  }

  /** `[os.path.basename(p) for p in ps]`. */
  function BasenamesOf(ps: seq<string>): (r: seq<string>)
    ensures |r| == |ps|
    ensures forall i :: 0 <= i < |ps| ==> r[i] == PosixPath.Basename(ps[i])
  {
    if |ps| == 0 then [] else [PosixPath.Basename(ps[0])] + BasenamesOf(ps[1..])
  }

  /** A dialog of `deletion.py`: title and text. */
  datatype Dialog = Dialog(title: string, text: string)

  /** The dialog `deletion.py` opens for each gate outcome. */
  function GateDialog(g: Gate): Dialog
  {
    match g
    case NothingSelected => Dialog("No items selected", "Please select items to delete.")
    case Rejected(unsafe) => Dialog("Unsafe items selected", "Cannot delete items marked as unsafe (red): " + UnsafeNames(unsafe))
    case Confirm(items) =>
      Dialog("Confirm Deletion", "Are you sure you want to delete " + Strings.Decimal(|items|)
        + " selected item(s)? This action cannot be undone.")
  }

  /** The text `main.py` shows for each gate outcome (status line, or the inline confirmation). */
  function GateMessage(g: Gate): string
  {
    match g
    case NothingSelected => "No items selected for deletion."
    case Rejected(unsafe) => "Cannot delete unsafe items (red): " + UnsafeNames(unsafe)
    case Confirm(items) =>
      if |items| == 1 then "Delete '" + PosixPath.Basename(items[0].path) + "'?"
      else "Delete " + Strings.Decimal(|items|) + " selected items?"
  }

  // ---------------------------------------------------------------------------
  // Deleting
  // ---------------------------------------------------------------------------

  /**
   * What removing each path would do (`shutil.rmtree` or `os.remove`): a
   * path in the map fails with that message, any other path is removed.
   */
  type Failures = map<string, string>

  /** One result line: a tick and the name, or a cross, the name and the error. */
  function ResultLine(path: string, failures: Failures): string
  {
    if path in failures then "✗ Failed to delete " + PosixPath.Basename(path) + ": " + failures[path]
    else "✓ Deleted: " + PosixPath.Basename(path)
  }

  /** The outcome of attempting a batch: one line per item, and the paths removed and not removed. */
  datatype Attempt = Attempt(lines: seq<string>, deleted: seq<string>, failed: seq<string>)

  /** The result lines of a batch, one per item in order. */
  function ResultLines(items: seq<Selected>, failures: Failures): (lines: seq<string>)
    ensures |lines| == |items|
    ensures forall i :: 0 <= i < |items| ==> lines[i] == ResultLine(items[i].path, failures)
  {
    if |items| == 0 then [] else [ResultLine(items[0].path, failures)] + ResultLines(items[1..], failures)
  }

  /** The paths removed and the paths that failed, each in item order. */
  function Outcomes(items: seq<Selected>, failures: Failures): (r: (seq<string>, seq<string>))
    ensures |r.0| + |r.1| == |items|
  {
    if |items| == 0 then ([], [])
    else
      var rest := Outcomes(items[1..], failures);
      var p := items[0].path;
      if p in failures then (rest.0, [p] + rest.1) else ([p] + rest.0, rest.1)
  }

  /**
   * The deletion loop: every item is attempted on its own, a failure is
   * recorded and the loop goes on with the next item.
   */
  function AttemptAll(items: seq<Selected>, failures: Failures): (r: Attempt)
    ensures |r.lines| == |items|
    ensures |r.deleted| + |r.failed| == |items|
    ensures forall i :: 0 <= i < |items| ==> r.lines[i] == ResultLine(items[i].path, failures)
  {
    var outcomes := Outcomes(items, failures);
    Attempt(ResultLines(items, failures), outcomes.0, outcomes.1)
  }

  /** The paths of the items, in order. */
  function PathsOf(items: seq<Selected>): (ps: seq<string>)
    ensures |ps| == |items|
    ensures forall i :: 0 <= i < |items| ==> ps[i] == items[i].path
  {
    if |items| == 0 then [] else [items[0].path] + PathsOf(items[1..])
  }

  /**
   * A failure does not stop the batch: every item whose removal succeeds is
   * among the deleted paths, every item whose removal fails among the
   * failed ones, and nothing else is in either list.
   */
  lemma AttemptSortsItems(items: seq<Selected>, failures: Failures)
    ensures var r := AttemptAll(items, failures);
      && (forall p :: p in r.deleted <==> p !in failures && p in PathsOf(items))
      && (forall p :: p in r.failed <==> p in failures && p in PathsOf(items))
      && ((forall i :: 0 <= i < |items| ==> items[i].path !in failures) ==> r.failed == [])
  {
    DeletedAreTheSucceeding(items, failures);
    FailedAreTheFailing(items, failures);
    if forall i :: 0 <= i < |items| ==> items[i].path !in failures {
      NoFailureFailsNothing(items, failures);
    }
  }

  /** The removed paths are the items' paths that do not fail. */
  lemma {:induction false} DeletedAreTheSucceeding(items: seq<Selected>, failures: Failures)
    ensures forall p :: p in Outcomes(items, failures).0 <==> p !in failures && p in PathsOf(items)
  {
    if |items| > 0 {
      DeletedAreTheSucceeding(items[1..], failures);
      assert PathsOf(items) == [items[0].path] + PathsOf(items[1..]);
    }
  }

  /** The failed paths are the items' paths that fail. */
  lemma {:induction false} FailedAreTheFailing(items: seq<Selected>, failures: Failures)
    ensures forall p :: p in Outcomes(items, failures).1 <==> p in failures && p in PathsOf(items)
  {
    if |items| > 0 {
      FailedAreTheFailing(items[1..], failures);
      assert PathsOf(items) == [items[0].path] + PathsOf(items[1..]);
    }
  }

  /** When no removal fails, nothing is reported failed. */
  lemma {:induction false} NoFailureFailsNothing(items: seq<Selected>, failures: Failures)
    requires forall i :: 0 <= i < |items| ==> items[i].path !in failures
    ensures Outcomes(items, failures).1 == []
  {
    if |items| > 0 {
      NoFailureFailsNothing(items[1..], failures);
    }
  }


  /** The user's answer to the confirmation. */
  datatype Answer = Yes | No

  /** After `deletion.py`'s confirmation dialog: what was attempted, the dialog shown, and the analyser. */
  datatype DialogOutcome = DialogOutcome(attempt: Attempt, dialog: Option<Dialog>, after: Scanner.Navigation)

  /**
   * `confirm_delete` and `cancel_delete` of `deletion.py`, as written.
   * Cancelling deletes nothing and changes nothing. Confirming attempts every
   * item, shows the result lines, then calls `scan_and_display` on the
   * current path without touching the directory cache.
   */
  function ConfirmDeleteAsWritten(a: Scanner.Analyzer, items: seq<Selected>, answer: Answer, failures: Failures): (o: DialogOutcome)
    ensures answer == No ==>
      o.attempt.deleted == [] && o.attempt.failed == [] && o.dialog == None && o.after == Scanner.Shown(a)
    ensures answer == Yes ==>
      o.after == Scanner.ScanAndDisplay(a, a.currentPath) && o.attempt == AttemptAll(items, failures)
  {
    match answer
    case No => DialogOutcome(Attempt([], [], []), None, Scanner.Shown(a))
    case Yes =>
      var t := AttemptAll(items, failures);
      DialogOutcome(t, Some(Dialog("Deletion Complete", Strings.JoinWith("\n", t.lines))), Scanner.ScanAndDisplay(a, a.currentPath))
  }

  /**
   * After a confirmed deletion in a directory that is in the cache, the
   * "refresh" of `confirm_delete` shows the cached rows from before the
   * deletion, even when every selected item was removed.
   */
  lemma ConfirmShowsStaleRows(a: Scanner.Analyzer, items: seq<Selected>, failures: Failures)
    requires a.currentPath in a.cache.values
    ensures var o := ConfirmDeleteAsWritten(a, items, Yes, failures);
      && o.after.Shown?
      && o.after.after.rows == Scanner.DisplayRows(a.currentPath, a.cache.values[a.currentPath])
  {
  }

  /**
   * `confirm_delete` with the cache entry of the current directory dropped
   * before the refresh, as `main.py`'s `perform_deletion` does: the refresh
   * is always a fresh scan.
   */
  function ConfirmDelete(a: Scanner.Analyzer, items: seq<Selected>, answer: Answer, failures: Failures): (o: DialogOutcome)
    requires DirCache.Valid(a.cache)
    ensures answer == No ==>
      o.attempt.deleted == [] && o.attempt.failed == [] && o.dialog == None && o.after == Scanner.Shown(a)
    ensures answer == Yes ==>
      && o.after.MustScan?
      && a.currentPath !in o.after.after.cache.values
      && o.attempt == AttemptAll(items, failures)
      && o.dialog == Some(Dialog("Deletion Complete", Strings.JoinWith("\n", o.attempt.lines)))
  {
    match answer
    case No => DialogOutcome(Attempt([], [], []), None, Scanner.Shown(a))
    case Yes =>
      var t := AttemptAll(items, failures);
      var cleaned := Scanner.Analyzer(DirCache.Remove(a.cache, a.currentPath), a.currentPath, a.rows);
      DialogOutcome(t, Some(Dialog("Deletion Complete", Strings.JoinWith("\n", t.lines))), Scanner.ScanAndDisplay(cleaned, a.currentPath))
  }

  /** The result of `main.py`'s `perform_deletion`. */
  datatype Performed = Performed(deleted: nat, errors: nat, status: string, after: Scanner.Navigation)

  /** The status text: "Deletion complete. ", the first three result lines, and how many more there are. */
  function DeletionStatus(lines: seq<string>): string
  {
    "Deletion complete. " + Strings.JoinWith("\n", if |lines| <= 3 then lines else lines[..3])
    + (if |lines| > 3 then "\n... and " + Strings.Decimal(|lines| - 3) + " more results" else "")
  }

  /**
   * `perform_deletion`: every item is attempted on its own; the counts of
   * deleted and failed items add up to the number of items; the cache entry
   * of the current directory, and only it, is dropped; the directory is
   * then scanned afresh.
   */
  function PerformDeletion(a: Scanner.Analyzer, items: seq<Selected>, failures: Failures): (r: Performed)
    requires DirCache.Valid(a.cache)
    ensures r.deleted + r.errors == |items|
    ensures r.after.MustScan?
    ensures DirCache.Valid(r.after.after.cache)
    ensures a.currentPath !in r.after.after.cache.values
    ensures forall k :: k in a.cache.values && k != a.currentPath ==>
      k in r.after.after.cache.values && r.after.after.cache.values[k] == a.cache.values[k]
    ensures forall k :: k in r.after.after.cache.values ==> k in a.cache.values
  {
    var t := AttemptAll(items, failures);
    var cleaned := Scanner.Analyzer(DirCache.Remove(a.cache, a.currentPath), a.currentPath, a.rows);
    Performed(|t.deleted|, |t.failed|, DeletionStatus(t.lines), Scanner.ScanAndDisplay(cleaned, a.currentPath))
  }

  /** When no removal fails, every item is counted as deleted. */
  lemma PerformDeletionCounts(a: Scanner.Analyzer, items: seq<Selected>, failures: Failures)
    requires DirCache.Valid(a.cache)
    requires forall i :: 0 <= i < |items| ==> items[i].path !in failures
    ensures PerformDeletion(a, items, failures).deleted == |items|
    ensures PerformDeletion(a, items, failures).errors == 0
  {
    var t := AttemptAll(items, failures);
    AttemptSortsItems(items, failures);
  }
}
