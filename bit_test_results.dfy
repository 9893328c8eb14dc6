/**
 * The test side of the `bit` tool: the instrumentation callbacks that count
 * passed, failed and ignored tests on the current test action and on its
 * target, the colours of the summary line, and the gtest filter argument a
 * native test is run with.
 */
module BitTestResults {
  import opened JavaTypes
  import opened BitCommandLine

  /** A test run launched for one target (struct TestAction). */
  class TestAction {
    var packageName: string
    var runner: string
    var className: string
    var target: Target?
    var passCount: int
    var failCount: int
    var ignoreCount: int

    constructor ()
      ensures target == null && passCount == 0 && failCount == 0 && ignoreCount == 0
    {
      packageName, runner, className := "", "", "";
      target := null;
      passCount, failCount, ignoreCount := 0, 0, 0;
    }
  }

  /** The parts of an instrumentation results bundle the counters depend on. */
  datatype ResultsBundle = ResultsBundle(className: Option<string>, testName: Option<string>)

  /** An instrumentation test status: optional results and a result code. */
  datatype TestStatus = TestStatus(results: Option<ResultsBundle>, resultCode: Int32)

  /** An instrumentation session status: its result code and optional short message. */
  datatype SessionStatus = SessionStatus(resultCode: Int32, shortMsg: Option<string>)

  /** Activity.RESULT_OK. */
  const RESULT_OK: Int32 := -1

  datatype Verdict = Passed | Failed | Ignored | NotCounted

  /**
   * How a test status is counted: results with both a class and a test name
   * are needed; 0 is a pass, -1 (exception) and -2 (assertion) are failures,
   * -3 is an ignored test; anything else (1 is "test starting") is not counted.
   */
  function VerdictOf(status: TestStatus): (v: Verdict)
    ensures v != NotCounted ==>
              status.results.Some? && status.results.value.className.Some? && status.results.value.testName.Some?
    ensures status.results.Some? && status.results.value.className.Some? && status.results.value.testName.Some? ==>
              (v == Passed <==> status.resultCode == 0)
              && (v == Failed <==> status.resultCode == -1 || status.resultCode == -2)
              && (v == Ignored <==> status.resultCode == -3)
  {
    match status.results
    case None => NotCounted
    case Some(results) =>
      if results.className.None? || results.testName.None? then NotCounted
      else if status.resultCode == 0 then Passed
      else if status.resultCode == -1 || status.resultCode == -2 then Failed
      else if status.resultCode == -3 then Ignored
      else NotCounted
  }

  /** The test status reaches a branch that dereferences the current action. */
  predicate UsesCurrentAction(status: TestStatus) {
    && status.results.Some? && status.results.value.className.Some? && status.results.value.testName.Some?
    && (status.resultCode == 0 || status.resultCode == 1 || status.resultCode == -1
        || status.resultCode == -2 || status.resultCode == -3)
  }

  /** The instrumentation callbacks for one `am instrument` run (class TestResults). */
  class TestResults {
    var currentAction: TestAction?
    var sessionStatus: SessionStatus

    /** The source leaves the current action unset until SetCurrentAction; here it starts out null. */
    constructor ()
      ensures currentAction == null && sessionStatus == SessionStatus(0, None)
    {
      currentAction := null;
      sessionStatus := SessionStatus(0, None);
    }

    method SetCurrentAction(action: TestAction?)
      modifies this`currentAction
      ensures currentAction == action
    {
      currentAction := action;
    }

    /**
     * OnTestStatus: a counted status bumps the matching counter on the
     * current action and on its target alike; nothing else changes.
     */
    method OnTestStatus(status: TestStatus)
      requires UsesCurrentAction(status) ==> currentAction != null && currentAction.target != null
      modifies if currentAction != null && currentAction.target != null
               then {currentAction, currentAction.target} else {}
      ensures currentAction == old(currentAction)
      ensures currentAction != null && currentAction.target != null ==>
                var a, t, v := currentAction, currentAction.target, VerdictOf(status);
                && a.target == old(a.target)
                && a.passCount == old(a.passCount) + (if v == Passed then 1 else 0)
                && a.failCount == old(a.failCount) + (if v == Failed then 1 else 0)
                && a.ignoreCount == old(a.ignoreCount) + (if v == Ignored then 1 else 0)
                && t.testPassCount == old(t.testPassCount) + (if v == Passed then 1 else 0)
                && t.testFailCount == old(t.testFailCount) + (if v == Failed then 1 else 0)
                && t.testIgnoreCount == old(t.testIgnoreCount) + (if v == Ignored then 1 else 0)
                && t.unknownFailureCount == old(t.unknownFailureCount)
                && t.testActionCount == old(t.testActionCount)
                && t.Spec() == old(t.Spec())
    {
      if status.results.None? {
        return;
      }
      var results := status.results.value;
      if results.className.None? {
        return;
      }
      if results.testName.None? {
        return;
      }
      var resultCode := status.resultCode;
      if resultCode == 0 {
        currentAction.passCount := currentAction.passCount + 1;
        currentAction.target.testPassCount := currentAction.target.testPassCount + 1;
      } else if resultCode == 1 {
        // a test is starting: only a progress line is printed
      } else if resultCode == -1 || resultCode == -2 {
        currentAction.failCount := currentAction.failCount + 1;
        currentAction.target.testFailCount := currentAction.target.testFailCount + 1;
      } else if resultCode == -3 {
        currentAction.ignoreCount := currentAction.ignoreCount + 1;
        currentAction.target.testIgnoreCount := currentAction.target.testIgnoreCount + 1;
      }
    }

    /** IsSuccess: the session ended with Activity.RESULT_OK. */
    predicate IsSuccess()
      reads this
    {
      sessionStatus.resultCode == RESULT_OK
    }

    /**
     * OnSessionStatus: records the session status; a session that did not
     * succeed counts one unknown failure on the current action's target.
     */
    method OnSessionStatus(status: SessionStatus)
      requires currentAction != null ==> currentAction.target != null
      modifies this`sessionStatus, if currentAction != null then {currentAction.target} else {}
      ensures sessionStatus == status
      ensures IsSuccess() <==> status.resultCode == -1
      ensures currentAction != null ==>
                var t := currentAction.target;
                && t.unknownFailureCount == old(t.unknownFailureCount) + (if status.resultCode == -1 then 0 else 1)
                && t.testPassCount == old(t.testPassCount) && t.testFailCount == old(t.testFailCount)
                && t.testIgnoreCount == old(t.testIgnoreCount) && t.testActionCount == old(t.testActionCount)
                && t.Spec() == old(t.Spec())
    {
      sessionStatus := status;
      if currentAction != null && !IsSuccess() {
        currentAction.target.unknownFailureCount := currentAction.target.unknownFailureCount + 1;
      }
    }

    /** GetErrorMessage: the session's short message, or a fallback. */
    function ErrorMessage(): (r: string)
      reads this
      ensures sessionStatus.shortMsg.Some? ==> r == sessionStatus.shortMsg.value
      ensures sessionStatus.shortMsg.None? ==> (r == "" <==> IsSuccess())
      ensures sessionStatus.shortMsg.None? && !IsSuccess() ==> r == "Unknown failure"
    {
      match sessionStatus.shortMsg
      case Some(msg) => msg
      case None => if IsSuccess() then "" else "Unknown failure"
    }
  }

  // ---------------------------------------------------------------------
  // print_results

  datatype Color = Plain | RedBold | GreenBold | YellowBold

  /** One counted field of the summary line, e.g. "34 passed", and its colour. */
  datatype Segment = Segment(color: Color, count: int, caption: string)

  /**
   * The summary line "P passed, F failed[, I ignored]": the ignored field only
   * when something was ignored. Failures paint only the failed count red;
   * otherwise non-zero passed and ignored counts are green and yellow; a run
   * with nothing to report paints passed and failed yellow.
   */
  function ResultSummary(passed: int, failed: int, ignored: int): (r: seq<Segment>)
    ensures |r| == (if ignored > 0 then 3 else 2)
    ensures r[0].count == passed && r[0].caption == "passed"
    ensures r[1].count == failed && r[1].caption == "failed"
    ensures ignored > 0 ==> r[2].count == ignored && r[2].caption == "ignored"
  {
    var (cp, cf, ci) :=
      if failed > 0 then (Plain, RedBold, Plain)
      else if passed > 0 || ignored > 0 then
        (if passed > 0 then GreenBold else Plain, Plain, if ignored > 0 then YellowBold else Plain)
      else (YellowBold, YellowBold, Plain);
    [Segment(cp, passed, "passed"), Segment(cf, failed, "failed")]
    + (if ignored > 0 then [Segment(ci, ignored, "ignored")] else [])
  }

  predicate Shows(line: seq<Segment>, color: Color) {
    exists k :: 0 <= k < |line| && line[k].color == color
  }

  /**
   * Red appears exactly when a test failed, and only on the failed count;
   * green exactly when tests passed and none failed, and only on the passed
   * count; an empty run is flagged in yellow.
   */
  lemma SummaryColors(passed: int, failed: int, ignored: int)
    ensures var line := ResultSummary(passed, failed, ignored);
            && (Shows(line, RedBold) <==> failed > 0)
            && (forall k :: 0 <= k < |line| && line[k].color == RedBold ==> line[k].caption == "failed")
            && (Shows(line, GreenBold) <==> failed <= 0 && passed > 0)
            && (forall k :: 0 <= k < |line| && line[k].color == GreenBold ==> line[k].caption == "passed")
            && (failed <= 0 && passed <= 0 && ignored <= 0 ==>
                  line[0].color == YellowBold && line[1].color == YellowBold)
            && (ignored > 0 && failed <= 0 ==> line[2].color == YellowBold)
  {
    var line := ResultSummary(passed, failed, ignored);
    if failed > 0 {
      assert line[1].color == RedBold;
    } else if passed > 0 {
      assert line[0].color == GreenBold;
    }
  }

  // ---------------------------------------------------------------------
  // The gtest filter of a native test

  const GTEST_FILTER := "--gtest_filter="

  /**
   * The arguments `adb exec-out` is run with for a native test with these
   * actions: the test alone if any action is "*", otherwise the test and a
   * gtest filter listing the actions separated by ':'.
   */
  method GtestArguments(installedPath: string, actions: seq<string>) returns (args: seq<string>)
    ensures "*" in actions ==> args == ["exec-out", installedPath]
    ensures "*" !in actions ==> args == ["exec-out", installedPath, GTEST_FILTER + Join(actions, ':')]
  {
    var runAll := false;
    var filterArg := GTEST_FILTER;
    for k := 0 to |actions|
      invariant runAll <==> "*" in actions[..k]
      invariant !runAll ==> filterArg == GTEST_FILTER + Join(actions[..k], ':') + (if 0 < k < |actions| then ":" else "")
    {
      assert actions[..k + 1] == actions[..k] + [actions[k]];
      assert actions[..k + 1][..k] == actions[..k];
      var actionString := actions[k];
      if actionString == "*" {
        runAll := true;
      } else {
        filterArg := filterArg + actionString;
        if k != |actions| - 1 {
          filterArg := filterArg + ":";
        }
      }
    }
    assert actions[..|actions|] == actions;
    if runAll {
      assert "*" in actions;
      args := ["exec-out", installedPath];
    } else {
      assert filterArg == GTEST_FILTER + Join(actions, ':') + "";
      assert filterArg == GTEST_FILTER + Join(actions, ':');
      args := ["exec-out", installedPath, filterArg];
    }
  }

  lemma {:induction false} FindShift(x: string, y: string, c: char, from: nat)
    requires from <= |y|
    ensures Find(y, c, from).None? ==> Find(x + y, c, |x| + from).None?
    ensures Find(y, c, from).Some? ==> Find(x + y, c, |x| + from) == Some(|x| + Find(y, c, from).value)
    decreases |y| - from
  {
    if from < |y| {
      assert (x + y)[|x| + from] == y[from];
      FindShift(x, y, c, from + 1);
    }
  }

  lemma {:induction false} FindAbsent(s: string, c: char, from: nat)
    requires c !in s
    ensures Find(s, c, from).None?
    decreases |s| - from
  {
    if from < |s| {
      assert s[from] in s;
      FindAbsent(s, c, from + 1);
    }
  }

  lemma {:induction false} FindPast(x: string, y: string, c: char, from: nat)
    requires from <= |x| && c !in x
    ensures Find(x + y, c, from) == Find(x + y, c, |x|)
    decreases |x| - from
  {
    if from < |x| {
      assert (x + y)[from] == x[from] && x[from] in x;
      FindPast(x, y, c, from + 1);
    }
  }

  lemma SliceOfAppend(x: string, y: string, a: nat, b: nat)
    requires a <= b <= |y|
    ensures (x + y)[|x| + a..|x| + b] == y[a..b]
    ensures (x + y)[|x| + a..] == y[a..]
  {
  }

  lemma PiecesAtSeparator(s: string, sep: char, from: nat, i: nat)
    requires from <= |s| && Find(s, sep, from) == Some(i)
    ensures PiecesFrom(s, sep, from) == [s[from..i]] + PiecesFrom(s, sep, i + 1)
  {
  }

  lemma PiecesAtEnd(s: string, sep: char, from: nat)
    requires from <= |s| && Find(s, sep, from) == None
    ensures PiecesFrom(s, sep, from) == [s[from..]]
  {
  }

  lemma {:induction false} PiecesShift(x: string, y: string, sep: char, from: nat)
    requires from <= |y|
    ensures PiecesFrom(x + y, sep, |x| + from) == PiecesFrom(y, sep, from)
    decreases |y| - from
  {
    var s := x + y;
    FindShift(x, y, sep, from);
    match Find(y, sep, from)
    case None =>
      SliceOfAppend(x, y, from, from);
      PiecesAtEnd(s, sep, |x| + from);
      PiecesAtEnd(y, sep, from);
    case Some(i) =>
      var next := i + 1;
      var rest := PiecesFrom(y, sep, next);
      SliceOfAppend(x, y, from, i);
      PiecesShift(x, y, sep, next);
      PiecesAtSeparator(s, sep, |x| + from, |x| + i);
      PiecesAtSeparator(y, sep, from, i);
      calc {
        PiecesFrom(s, sep, |x| + from);
        [s[|x| + from..|x| + i]] + PiecesFrom(s, sep, |x| + i + 1);
        { assert |x| + i + 1 == |x| + next; }
        [y[from..i]] + rest;
      }
  }

  /** Splitting a joined list at the separator gives the list back, when no element holds the separator. */
  lemma {:induction false} PiecesOfJoin(pieces: seq<string>, sep: char)
    requires pieces != []
    requires forall p :: p in pieces ==> sep !in p
    ensures PiecesFrom(Join(pieces, sep), sep, 0) == pieces
    decreases |pieces|
  {
    var p := pieces[0];
    assert p in pieces;
    if |pieces| == 1 {
      assert Join(pieces, sep) == p;
      FindAbsent(p, sep, 0);
    } else {
      var rest := pieces[1..];
      assert pieces == [p] + rest;
      JoinCons(p, rest, sep);
      var joined := Join(pieces, sep);
      assert joined == (p + [sep]) + Join(rest, sep);
      assert joined == p + ([sep] + Join(rest, sep));
      FindPast(p, [sep] + Join(rest, sep), sep, 0);
      FindShift(p, [sep] + Join(rest, sep), sep, 0);
      assert Find([sep] + Join(rest, sep), sep, 0) == Some(0);
      assert Find(joined, sep, 0) == Some(|p|);
      assert joined[..|p|] == p;
      PiecesOfJoin(rest, sep);
      PiecesShift(p + [sep], Join(rest, sep), sep, 0);
    }
  }

  /**
   * The filter lists exactly the actions, in order, whenever none of them
   * holds a ':' (it is then read back as the same list).
   */
  lemma FilterListsActions(actions: seq<string>)
    requires actions != [] && "*" !in actions
    requires forall a :: a in actions ==> ':' !in a
    ensures PiecesFrom(GTEST_FILTER + Join(actions, ':'), ':', |GTEST_FILTER|) == actions
  {
    PiecesOfJoin(actions, ':');
    PiecesShift(GTEST_FILTER, Join(actions, ':'), ':', 0);
  }
}
