/**
 * The assertion layer (`AssertionsUtils`). Soft checks append a message to a
 * per-call error list instead of stopping; the list is drained at the end by
 * `AssertAllErrors`, which raises one `AssertionError` naming every message.
 * The report is an append-only log of entries, one per logged line.
 *
 * A batch's checks run inside one `try` block whose handler catches
 * `Exception`: the block is modelled as a list of `Step`s, and a `Raise` step
 * stands for a null dereference while a later check's argument is being
 * evaluated. The JVM's message for that exception is a parameter.
 */
module AssertionsUtils {
  import opened Wrappers
  import opened JavaText
  import opened Server
  import BookingPayloads

  /** One line of the report, with its level. */
  datatype LogEntry = Pass(text: string) | Fail(text: string) | Info(text: string)

  /** A value handed to `assertEquals` after boxing; equality is `Objects.equals`. */
  datatype Value = JNull | JInt(i: int) | JBool(b: bool) | JString(s: string)

  /** A possibly-null string as an object. */
  function Boxed(s: Option<string>): (v: Value)
    ensures v == JNull <==> s.None?
  {
    match s
    case None => JNull
    case Some(x) => JString(x)
  }

  /** `String.valueOf(Object)`, which string concatenation applies. */
  function Render(v: Value): string {
    match v
    case JNull => "null"
    case JInt(i) => IntToString(i)
    case JBool(b) => BoolToString(b)
    case JString(s) => s
  }

  /** The error list and the report of one batch, as they grow. */
  datatype Tally = Tally(errors: seq<string>, log: seq<LogEntry>)

  function EqualsPassText(expected: Value, actual: Value, check: string): string {
    "PASS: " + check + " | Expected: " + Render(expected) + ", Actual: " + Render(actual)
  }

  function EqualsFailure(expected: Value, actual: Value, check: string): string {
    "FAIL: " + check + " | expected: " + Render(expected) + " but was: " + Render(actual)
  }

  function TruePassText(check: string): string {
    "PASS: " + check + " | Expected: true, Actual: true"
  }

  function TrueFailure(check: string): string {
    check + " ==> expected: true but was: false"
  }

  /**
   * `assertEquals` (soft): exactly one report line either way; a mismatch
   * also appends exactly one error, whose text is the logged failure line.
   */
  function AssertEquals(t: Tally, expected: Value, actual: Value, check: string): (r: Tally)
    ensures expected == actual ==> r.errors == t.errors
    ensures expected != actual ==> r.errors == t.errors + [EqualsFailure(expected, actual, check)]
    ensures |r.log| == |t.log| + 1 && r.log[..|t.log|] == t.log
    ensures r.log[|t.log|].Pass? <==> expected == actual
    ensures expected != actual ==> r.log[|t.log|] == Fail(EqualsFailure(expected, actual, check))
  {
    if expected == actual then
      t.(log := t.log + [Pass(EqualsPassText(expected, actual, check))])
    else
      var message := EqualsFailure(expected, actual, check);
      Tally(t.errors + [message], t.log + [Fail(message)])
  }

  /** `assertTrue` (soft): as `AssertEquals`, against the constant `true`. */
  function AssertTrue(t: Tally, condition: bool, check: string): (r: Tally)
    ensures condition ==> r.errors == t.errors
    ensures !condition ==> r.errors == t.errors + [TrueFailure(check)]
    ensures |r.log| == |t.log| + 1 && r.log[..|t.log|] == t.log
    ensures r.log[|t.log|].Pass? <==> condition
    ensures !condition ==> r.log[|t.log|] == Fail(TrueFailure(check))
  {
    if condition then
      t.(log := t.log + [Pass(TruePassText(check))])
    else
      Tally(t.errors + [TrueFailure(check)], t.log + [Fail(TrueFailure(check))])
  }

  /** A failure message names the check, the expected value and the actual value. */
  lemma {:induction false} EqualsFailureMentions(expected: Value, actual: Value, check: string)
    ensures Occurs(check, EqualsFailure(expected, actual, check))
    ensures Occurs(Render(expected), EqualsFailure(expected, actual, check))
    ensures Occurs(Render(actual), EqualsFailure(expected, actual, check))
  {
    OccursInPieces("FAIL: ", check, " | expected: ", Render(expected), " but was: ", Render(actual));
  }

  /** Each variable piece of a six-piece concatenation occurs in it. */
  lemma {:induction false} OccursInPieces(p: string, x: string, q: string, y: string, r: string, z: string)
    ensures Occurs(x, p + x + q + y + r + z)
    ensures Occurs(y, p + x + q + y + r + z)
    ensures Occurs(z, p + x + q + y + r + z)
  {
    var text := p + x + q + y + r + z;
    assert text[|p|..|p| + |x|] == x;
    assert OccursAt(x, text, |p|);
    var py := |p| + |x| + |q|;
    assert text[py..py + |y|] == y;
    assert OccursAt(y, text, py);
    var pz := py + |y| + |r|;
    assert text[pz..pz + |z|] == z;
    assert OccursAt(z, text, pz);
  }

  /** One statement of a batch's `try` block. */
  datatype Step =
    | CheckEquals(expected: Value, actual: Value, check: string)
    | CheckTrue(condition: bool, check: string)
    | LogPass(text: string)
    | Raise(message: Option<string>)

  predicate Fails(step: Step) {
    || (step.CheckEquals? && step.expected != step.actual)
    || (step.CheckTrue? && !step.condition)
  }

  function FailureText(step: Step): string
    requires Fails(step)
  {
    if step.CheckEquals? then EqualsFailure(step.expected, step.actual, step.check) else TrueFailure(step.check)
  }

  /** The error a single statement records when it runs: its failure text, or nothing. */
  function FailureOf(step: Step): seq<string> {
    if Fails(step) then [FailureText(step)] else []
  }

  /** Reference definition: the failure messages of the failing checks, in order. */
  function Failures(steps: seq<Step>): seq<string>
    decreases |steps|
  {
    if |steps| == 0 then []
    else FailureOf(steps[0]) + Failures(steps[1..])
  }

  /** The positions of the failing checks, in increasing order. */
  function FailingPositions(steps: seq<Step>): seq<nat>
    decreases |steps|
  {
    if |steps| == 0 then []
    else FailingPositions(steps[..|steps| - 1]) + (if Fails(steps[|steps| - 1]) then [|steps| - 1] else [])
  }

  /**
   * K failing checks give exactly K errors: the j-th error is the failure
   * text of the j-th failing check, the positions increase, and every failing
   * check is among them.
   */
  lemma {:induction false} FailuresInCheckOrder(steps: seq<Step>)
    ensures var idx := FailingPositions(steps);
            && |Failures(steps)| == |idx|
            && (forall j | 0 <= j < |idx| :: idx[j] < |steps| && Fails(steps[idx[j]])
                                             && Failures(steps)[j] == FailureText(steps[idx[j]]))
            && (forall j, j' | 0 <= j < j' < |idx| :: idx[j] < idx[j'])
            && (forall i | 0 <= i < |steps| && Fails(steps[i]) :: i in idx)
    decreases |steps|
  {
    if |steps| > 0 {
      var n := |steps| - 1;
      var init := steps[..n];
      var last := steps[n];
      FailuresInCheckOrder(init);
      assert steps == init + [last];
      FailuresAppend(init, [last]);
      assert Failures([last]) == FailureOf(last) + Failures([]);
      var idx := FailingPositions(steps);
      var pre := FailingPositions(init);
      var fs := Failures(steps);
      assert idx == pre + (if Fails(last) then [n] else []);
      assert fs == Failures(init) + FailureOf(last);
      forall j | 0 <= j < |idx|
        ensures idx[j] < |steps| && Fails(steps[idx[j]]) && fs[j] == FailureText(steps[idx[j]])
      {
        if j < |pre| {
          assert idx[j] == pre[j];
          assert steps[pre[j]] == init[pre[j]];
          assert fs[j] == Failures(init)[j];
        } else {
          assert idx[j] == n && fs[j] == FailureText(last);
        }
      }
      forall j, j' | 0 <= j < j' < |idx|
        ensures idx[j] < idx[j']
      {
        if j' >= |pre| {
          assert idx[j] == pre[j] < n;
        }
      }
      forall i | 0 <= i < |steps| && Fails(steps[i])
        ensures i in idx
      {
        if i < n {
          assert init[i] == steps[i];
          assert i in pre;
        }
      }
    }
  }

  /** Position of the first `Raise`, or the length when there is none. */
  function RaiseIndex(steps: seq<Step>): (k: nat)
    ensures k <= |steps|
    ensures k < |steps| ==> steps[k].Raise?
    decreases |steps|
  {
    if |steps| == 0 then 0
    else if steps[0].Raise? then 0
    else 1 + RaiseIndex(steps[1..])
  }

  function ExceptionError(message: Option<string>): string {
    "Exception occurred: " + Show(message)
  }

  function ExceptionEntry(what: string, message: Option<string>): LogEntry {
    Fail("EXCEPTION: Failed to assert " + what + ". Error: " + Show(message))
  }

  /**
   * Reference definition of a block's error list: the failures of the checks
   * before the first exception, then that exception's entry.
   */
  function BlockErrors(steps: seq<Step>): seq<string> {
    var k := RaiseIndex(steps);
    Failures(steps[..k]) + ExceptionTail(steps, k)
  }

  /** One statement that completes normally. */
  function Execute(t: Tally, step: Step): Tally
    requires !step.Raise?
  {
    match step
    case CheckEquals(e, a, check) => AssertEquals(t, e, a, check)
    case CheckTrue(c, check) => AssertTrue(t, c, check)
    case LogPass(text) => t.(log := t.log + [Pass(text)])
  }

  /**
   * One `try { ... } catch (Exception e) { ... }` block: statements run in
   * order; the first exception is logged and recorded, and the rest is skipped.
   */
  function RunBlock(t: Tally, steps: seq<Step>, what: string): (r: Tally)
    ensures t.errors <= r.errors && t.log <= r.log
    decreases |steps|
  {
    if |steps| == 0 then t
    else if steps[0].Raise? then
      Tally(t.errors + [ExceptionError(steps[0].message)], t.log + [ExceptionEntry(what, steps[0].message)])
    else RunBlock(Execute(t, steps[0]), steps[1..], what)
  }

  /** Failures of consecutive stretches concatenate, in order. */
  lemma {:induction false} FailuresAppend(a: seq<Step>, b: seq<Step>)
    ensures Failures(a + b) == Failures(a) + Failures(b)
    decreases |a|
  {
    if |a| == 0 {
      assert a + b == b;
    } else {
      assert (a + b)[1..] == a[1..] + b;
      FailuresAppend(a[1..], b);
    }
  }

  /** No failure is recorded exactly when no check fails. */
  lemma {:induction false} FailuresEmptyIff(steps: seq<Step>)
    ensures Failures(steps) == [] <==> forall i | 0 <= i < |steps| :: !Fails(steps[i])
    decreases |steps|
  {
    if |steps| > 0 {
      FailuresEmptyIff(steps[1..]);
      assert forall i | 1 <= i < |steps| :: steps[i] == steps[1..][i - 1];
    }
  }

  /** The block's error list grows by exactly its reference error list. */
  lemma {:induction false} RunBlockErrors(t: Tally, steps: seq<Step>, what: string)
    ensures RunBlock(t, steps, what).errors == t.errors + BlockErrors(steps)
    decreases |steps|
  {
    if |steps| == 0 {
      assert steps[..0] == [];
    } else {
      var x, rest := steps[0], steps[1..];
      assert steps == [x] + rest;
      if x.Raise? {
        BlockErrorsOfRaise(x.message, rest);
      } else {
        ExecuteErrors(t, x);
        RunBlockErrors(Execute(t, x), rest, what);
        CheckThenBlock(x, rest);
      }
    }
  }

  /** A statement that completes normally records its own failure and nothing else. */
  lemma ExecuteErrors(t: Tally, step: Step)
    requires !step.Raise?
    ensures Execute(t, step).errors == t.errors + FailureOf(step)
  {
  }

  /**
   * Each statement that runs writes exactly one report line, and so does the
   * exception handler; nothing earlier in the report changes.
   */
  lemma {:induction false} RunBlockLog(t: Tally, steps: seq<Step>, what: string)
    ensures var r := RunBlock(t, steps, what);
            var k := RaiseIndex(steps);
            && |r.log| == |t.log| + (if k < |steps| then k + 1 else k)
            && r.log[..|t.log|] == t.log
    decreases |steps|
  {
    if |steps| > 0 && !steps[0].Raise? {
      var t' := Execute(t, steps[0]);
      RunBlockLog(t', steps[1..], what);
      assert RaiseIndex(steps[1..]) == RaiseIndex(steps) - 1;
      assert t'.log[..|t.log|] == t.log;
      var r := RunBlock(t, steps, what);
      assert r.log[..|t.log|] == r.log[..|t'.log|][..|t.log|];
    }
  }

  /**
   * Reference definition: the report line a statement writes when it runs; a
   * statement that throws is represented by the handler's line.
   */
  function StepLine(step: Step, what: string): LogEntry {
    match step
    case CheckEquals(e, a, check) => if e == a then Pass(EqualsPassText(e, a, check)) else Fail(EqualsFailure(e, a, check))
    case CheckTrue(c, check) => if c then Pass(TruePassText(check)) else Fail(TrueFailure(check))
    case LogPass(text) => Pass(text)
    case Raise(m) => ExceptionEntry(what, m)
  }

  /** One line per statement, in order. */
  function StepLines(steps: seq<Step>, what: string): (r: seq<LogEntry>)
    ensures |r| == |steps|
    decreases |steps|
  {
    if |steps| == 0 then [] else [StepLine(steps[0], what)] + StepLines(steps[1..], what)
  }

  /** Reference definition: one line per statement up to and including the first one that throws. */
  function BlockLines(steps: seq<Step>, what: string): seq<LogEntry> {
    var k := RaiseIndex(steps);
    StepLines(steps[..if k < |steps| then k + 1 else k], what)
  }

  /** The block's report is exactly the reference lines, after what was there before. */
  lemma {:induction false} RunBlockLines(t: Tally, steps: seq<Step>, what: string)
    ensures RunBlock(t, steps, what).log == t.log + BlockLines(steps, what)
    decreases |steps|
  {
    if |steps| == 0 {
      assert steps[..0] == [];
    } else if steps[0].Raise? {
      assert steps[..1] == [steps[0]];
      assert steps[..1][1..] == [];
      assert BlockLines(steps, what) == [ExceptionEntry(what, steps[0].message)];
    } else {
      var t' := Execute(t, steps[0]);
      ExecuteLine(t, steps[0], what);
      RunBlockLines(t', steps[1..], what);
      BlockLinesCons(steps, what);
    }
  }

  /** A statement that completes normally writes its own line and nothing else. */
  lemma ExecuteLine(t: Tally, step: Step, what: string)
    requires !step.Raise?
    ensures Execute(t, step).log == t.log + [StepLine(step, what)]
  {
  }

  /** Before the first exception, the block's lines are the first statement's line, then the rest's. */
  lemma {:induction false} BlockLinesCons(steps: seq<Step>, what: string)
    requires |steps| > 0 && !steps[0].Raise?
    ensures BlockLines(steps, what) == [StepLine(steps[0], what)] + BlockLines(steps[1..], what)
  {
    var k := RaiseIndex(steps);
    assert RaiseIndex(steps[1..]) == k - 1;
    var n := if k < |steps| then k + 1 else k;
    assert steps[..n][1..] == steps[1..][..n - 1];
  }

  /** A non-empty block's first line is its first statement's. */
  lemma {:induction false} BlockLinesHead(steps: seq<Step>, what: string)
    requires |steps| > 0
    ensures |BlockLines(steps, what)| > 0 && BlockLines(steps, what)[0] == StepLine(steps[0], what)
  {
    var k := RaiseIndex(steps);
    var n := if k < |steps| then k + 1 else k;
    assert steps[..n][0] == steps[0];
  }

  /** Whatever follows the first exception in a block is never run. */
  lemma {:induction false} RaiseSkipsRest(t: Tally, a: seq<Step>, m: Option<string>, b: seq<Step>, what: string)
    requires forall i | 0 <= i < |a| :: !a[i].Raise?
    ensures RunBlock(t, a + [Raise(m)] + b, what) == RunBlock(t, a + [Raise(m)], what)
    decreases |a|
  {
    if |a| == 0 {
      assert (a + [Raise(m)] + b)[0] == Raise(m);
    } else {
      assert (a + [Raise(m)] + b)[1..] == a[1..] + [Raise(m)] + b;
      assert (a + [Raise(m)])[1..] == a[1..] + [Raise(m)];
      RaiseSkipsRest(Execute(t, a[0]), a[1..], m, b, what);
    }
  }

  /** A stretch of checks with no exception before the rest of the block. */
  lemma {:induction false} BlockErrorsAppend(a: seq<Step>, b: seq<Step>)
    requires forall i | 0 <= i < |a| :: !a[i].Raise?
    ensures BlockErrors(a + b) == Failures(a) + BlockErrors(b)
  {
    var k := RaiseIndex(b);
    RaiseIndexAppend(a, b);
    PrefixAcrossAppend(a, b, k);
    FailuresAppend(a, b[..k]);
    BlockErrorsAt(a + b, |a| + k);
    BlockErrorsAt(b, k);
    var fa, fb, tail := Failures(a), Failures(b[..k]), ExceptionTail(b, k);
    assert (fa + fb) + tail == fa + (fb + tail);
  }

  lemma {:induction false} BlockErrorsAt(steps: seq<Step>, k: nat)
    requires k == RaiseIndex(steps)
    ensures BlockErrors(steps) == Failures(steps[..k]) + ExceptionTail(steps, k)
  {
  }

  lemma {:induction false} PrefixAcrossAppend(a: seq<Step>, b: seq<Step>, k: nat)
    requires k <= |b|
    ensures (a + b)[..|a| + k] == a + b[..k]
    ensures ExceptionTail(a + b, |a| + k) == ExceptionTail(b, k)
  {
    if k < |b| {
      assert (a + b)[|a| + k] == b[k];
    }
  }

  /** The exception entry a block ends with, if its statement at `k` throws. */
  function ExceptionTail(steps: seq<Step>, k: nat): seq<string>
    requires k <= |steps|
  {
    if k < |steps| && steps[k].Raise? then [ExceptionError(steps[k].message)] else []
  }

  lemma {:induction false} RaiseIndexAppend(a: seq<Step>, b: seq<Step>)
    requires forall i | 0 <= i < |a| :: !a[i].Raise?
    ensures RaiseIndex(a + b) == |a| + RaiseIndex(b)
    decreases |a|
  {
    if |a| == 0 {
      assert a + b == b;
    } else {
      assert (a + b)[1..] == a[1..] + b;
      RaiseIndexAppend(a[1..], b);
    }
  }

  /** A block whose first statement throws records only that exception. */
  lemma {:induction false} BlockErrorsOfRaise(m: Option<string>, rest: seq<Step>)
    ensures BlockErrors([Raise(m)] + rest) == [ExceptionError(m)]
  {
    assert ([Raise(m)] + rest)[0] == Raise(m);
    assert ([Raise(m)] + rest)[..0] == [];
  }

  /** A block of checks only records exactly their failures. */
  lemma {:induction false} BlockErrorsOfChecks(a: seq<Step>)
    requires forall i | 0 <= i < |a| :: !a[i].Raise?
    ensures BlockErrors(a) == Failures(a)
  {
    BlockErrorsAppend(a, []);
    assert a + [] == a;
  }

  const AssertionFailurePrefix := "ASSERTION FAILURE: "
  const AggregatePrefix := "Test failed due to assertion errors: "

  /** The info lines `assertAllErrors` writes, one per error, in order. */
  function FailureLines(errs: seq<string>): (r: seq<LogEntry>)
    ensures |r| == |errs|
    decreases |errs|
  {
    if |errs| == 0 then [] else [Info(AssertionFailurePrefix + errs[0])] + FailureLines(errs[1..])
  }

  /** A report whose last lines are the failure lines, one per error, ends in `FailureLines`. */
  lemma {:induction false} FailureLinesTail(log: seq<LogEntry>, n: nat, errs: seq<string>)
    requires |log| == n + |errs|
    requires forall i | 0 <= i < |errs| :: log[n + i] == Info(AssertionFailurePrefix + errs[i])
    ensures log == log[..n] + FailureLines(errs)
    decreases |errs|
  {
    if |errs| > 0 {
      forall i | 0 <= i < |errs| - 1
        ensures log[n + 1 + i] == Info(AssertionFailurePrefix + errs[1..][i])
      {
        assert log[n + (i + 1)] == Info(AssertionFailurePrefix + errs[i + 1]);
      }
      FailureLinesTail(log, n + 1, errs[1..]);
      assert log[..n + 1] == log[..n] + [log[n]];
    }
  }

  /**
   * `assertAllErrors`: nothing happens for a null or empty list; otherwise
   * every message is logged at info level, in order, and one `AssertionError`
   * is raised whose message contains every message of the list.
   */
  method AssertAllErrors(errors: Option<seq<string>>, log: seq<LogEntry>) returns (log': seq<LogEntry>, raised: Option<string>)
    ensures raised.Some? <==> errors.Some? && |errors.value| > 0
    ensures raised.None? ==> log' == log
    ensures raised.Some? ==> && |log'| == |log| + |errors.value|
                             && log'[..|log|] == log
                             && (forall i | 0 <= i < |errors.value| :: log'[|log| + i] == Info(AssertionFailurePrefix + errors.value[i]))
                             && AggregatePrefix <= raised.value
                             && (forall i | 0 <= i < |errors.value| :: Occurs(errors.value[i], raised.value))
    ensures raised.Some? ==> log' == log + FailureLines(errors.value)
  {
    if errors.Some? && |errors.value| > 0 {
      var errs := errors.value;
      log' := log;
      for i := 0 to |errs|
        invariant |log'| == |log| + i
        invariant log'[..|log|] == log
        invariant forall j | 0 <= j < i :: log'[|log| + j] == Info(AssertionFailurePrefix + errs[j])
      {
        log' := log' + [Info(AssertionFailurePrefix + errs[i])];
      }
      var text := AggregatePrefix + ListToString(errs);
      forall i | 0 <= i < |errs|
        ensures Occurs(errs[i], text)
      {
        ListToStringContainsEach(errs, i);
        OccursExtend(errs[i], AggregatePrefix, ListToString(errs), "");
        assert AggregatePrefix + ListToString(errs) + "" == text;
      }
      raised := Some(text);
      FailureLinesTail(log', |log|, errs);
    } else {
      log' := log;
      raised := None;
    }
  }

  /** The report ends with one "ASSERTION FAILURE: " info line per error, in order. */
  predicate EndsWithFailureLines(log: seq<LogEntry>, errs: seq<string>) {
    |errs| <= |log| && forall i | 0 <= i < |errs| :: log[|log| - |errs| + i] == Info(AssertionFailurePrefix + errs[i])
  }

  /** A report that ends in the failure lines ends with one failure line per error. */
  lemma {:induction false} FailureLinesEnd(prefix: seq<LogEntry>, errs: seq<string>)
    ensures EndsWithFailureLines(prefix + FailureLines(errs), errs)
    decreases |errs|
  {
    if |errs| > 0 {
      var rest := prefix + [Info(AssertionFailurePrefix + errs[0])];
      FailureLinesEnd(rest, errs[1..]);
      assert prefix + FailureLines(errs) == rest + FailureLines(errs[1..]);
      forall i | 1 <= i < |errs|
        ensures (prefix + FailureLines(errs))[|prefix| + i] == Info(AssertionFailurePrefix + errs[i])
      {
        assert errs[i] == errs[1..][i - 1];
      }
    }
  }

  lemma PrefixOfAppend<T>(a: seq<T>, b: seq<T>, c: seq<T>)
    ensures a <= a + b + c
  {
    assert (a + b + c)[..|a|] == a;
  }

  /** The combined failure's message names every error. */
  ghost predicate NamesEach(message: string, errs: seq<string>) {
    forall i | 0 <= i < |errs| :: Occurs(errs[i], message)
  }

  /**
   * The shape every soft batch shares: a fresh error list, one `try` block,
   * then `assertAllErrors`. The batch raises exactly when its block recorded
   * something, and the raised message names every recorded error.
   */
  method RunBatch(steps: seq<Step>, what: string, log: seq<LogEntry>) returns (log': seq<LogEntry>, raised: Option<string>)
    ensures raised.Some? <==> BlockErrors(steps) != []
    ensures raised.Some? ==> && AggregatePrefix <= raised.value
                             && NamesEach(raised.value, BlockErrors(steps))
                             && EndsWithFailureLines(log', BlockErrors(steps))
    ensures log' == log + BlockLines(steps, what) + FailureLines(BlockErrors(steps))
    ensures log <= log'
  {
    var t := RunBlock(Tally([], log), steps, what);
    RunBlockErrors(Tally([], log), steps, what);
    RunBlockLines(Tally([], log), steps, what);
    assert t.errors == BlockErrors(steps);
    log', raised := AssertAllErrors(Some(t.errors), t.log);
    if raised.Some? {
      FailureLinesEnd(t.log, t.errors);
    }
    PrefixOfAppend(log, BlockLines(steps, what), FailureLines(t.errors));
  }

  /** The fields `assertBookingResponse` reads from a deserialised booking. */
  datatype BookingDates = BookingDates(checkin: Option<string>, checkout: Option<string>)

  datatype Booking = Booking(
    firstname: Option<string>,
    lastname: Option<string>,
    totalprice: int,
    depositpaid: bool,
    bookingdates: Option<BookingDates>,
    additionalneeds: Option<string>)

  /** One element of the list `GET /booking` returns. */
  datatype BookingId = BookingId(bookingid: int)

  const StatusLabel := "Validating http status code"

  /** The booking holds exactly the expected seven values. */
  predicate Agrees(b: Booking, e: BookingPayloads.BookingRequest) {
    && b.firstname == e.firstname
    && b.lastname == e.lastname
    && b.totalprice == e.totalprice
    && b.depositpaid == e.depositpaid
    && b.bookingdates.Some?
    && b.bookingdates.value.checkin == e.checkin
    && b.bookingdates.value.checkout == e.checkout
    && b.additionalneeds == e.additionalneeds
  }

  function NameChecks(b: Booking, e: BookingPayloads.BookingRequest): seq<Step> {
    [ CheckEquals(Boxed(e.firstname), Boxed(b.firstname), "Validating First Name"),
      CheckEquals(Boxed(e.lastname), Boxed(b.lastname), "Validating Last Name"),
      CheckEquals(JInt(e.totalprice), JInt(b.totalprice), "Validating Total Price"),
      CheckEquals(JBool(e.depositpaid), JBool(b.depositpaid), "Validating Deposit Paid") ]
  }

  function DateChecks(d: BookingDates, b: Booking, e: BookingPayloads.BookingRequest): seq<Step> {
    [ CheckEquals(Boxed(e.checkin), Boxed(d.checkin), "Validating Check-in date"),
      CheckEquals(Boxed(e.checkout), Boxed(d.checkout), "Validating Check-out date"),
      CheckEquals(Boxed(e.additionalneeds), Boxed(b.additionalneeds), "Validating Additionalneeds") ]
  }

  /** Everything after the status check: null booking dates throw at the sixth check. */
  function DetailChecks(b: Booking, e: BookingPayloads.BookingRequest, npe: Option<string>): seq<Step> {
    match b.bookingdates
    case None => NameChecks(b, e) + [Raise(npe)]
    case Some(d) => NameChecks(b, e) + DateChecks(d, b, e)
  }

  /** After the status check: a null booking throws at its first dereference. */
  function BodyChecks(booking: Option<Booking>, e: BookingPayloads.BookingRequest, npe: Option<string>): seq<Step> {
    match booking
    case None => [Raise(npe)]
    case Some(b) => DetailChecks(b, e, npe)
  }

  /**
   * The `try` block of `assertBookingResponse`. The status is compared with a
   * hard-coded 200, not with a caller's expectation.
   */
  function BookingChecks(booking: Option<Booking>, httpStatusCode: int, e: BookingPayloads.BookingRequest, npe: Option<string>): seq<Step> {
    [CheckEquals(JInt(200), JInt(httpStatusCode), StatusLabel)] + BodyChecks(booking, e, npe)
  }

  lemma {:induction false} NameChecksClean(b: Booking, e: BookingPayloads.BookingRequest)
    ensures forall i | 0 <= i < |NameChecks(b, e)| :: !NameChecks(b, e)[i].Raise?
    ensures Failures(NameChecks(b, e)) == []
            <==> b.firstname == e.firstname && b.lastname == e.lastname
                 && b.totalprice == e.totalprice && b.depositpaid == e.depositpaid
  {
    var names := NameChecks(b, e);
    FailuresEmptyIff(names);
    assert !Fails(names[0]) <==> b.firstname == e.firstname;
    assert !Fails(names[1]) <==> b.lastname == e.lastname;
    assert !Fails(names[2]) <==> b.totalprice == e.totalprice;
    assert !Fails(names[3]) <==> b.depositpaid == e.depositpaid;
  }

  lemma {:induction false} DateChecksClean(d: BookingDates, b: Booking, e: BookingPayloads.BookingRequest)
    ensures forall i | 0 <= i < |DateChecks(d, b, e)| :: !DateChecks(d, b, e)[i].Raise?
    ensures Failures(DateChecks(d, b, e)) == []
            <==> d.checkin == e.checkin && d.checkout == e.checkout && b.additionalneeds == e.additionalneeds
  {
    var dates := DateChecks(d, b, e);
    FailuresEmptyIff(dates);
    assert !Fails(dates[0]) <==> d.checkin == e.checkin;
    assert !Fails(dates[1]) <==> d.checkout == e.checkout;
    assert !Fails(dates[2]) <==> b.additionalneeds == e.additionalneeds;
  }

  lemma {:induction false} DetailChecksClean(b: Booking, e: BookingPayloads.BookingRequest, npe: Option<string>)
    ensures BlockErrors(DetailChecks(b, e, npe)) == [] <==> Agrees(b, e)
  {
    NameChecksClean(b, e);
    match b.bookingdates {
      case None =>
        BlockErrorsAppend(NameChecks(b, e), [Raise(npe)]);
        BlockErrorsOfRaise(npe, []);
        assert [Raise(npe)] + [] == [Raise(npe)];
      case Some(d) =>
        DateChecksClean(d, b, e);
        BlockErrorsAppend(NameChecks(b, e), DateChecks(d, b, e));
        BlockErrorsOfChecks(DateChecks(d, b, e));
    }
  }

  lemma {:induction false} BodyChecksClean(booking: Option<Booking>, e: BookingPayloads.BookingRequest, npe: Option<string>)
    ensures BlockErrors(BodyChecks(booking, e, npe)) == [] <==> booking.Some? && Agrees(booking.value, e)
    ensures booking.None? ==> BlockErrors(BodyChecks(booking, e, npe)) == [ExceptionError(npe)]
  {
    if booking.None? {
      BlockErrorsOfRaise(npe, []);
      assert [Raise(npe)] + [] == [Raise(npe)];
    } else {
      DetailChecksClean(booking.value, e, npe);
    }
  }

  /** The booking batch records nothing exactly when the status is 200 and every field agrees. */
  lemma {:induction false} BookingChecksClean(booking: Option<Booking>, httpStatusCode: int, e: BookingPayloads.BookingRequest, npe: Option<string>)
    ensures BlockErrors(BookingChecks(booking, httpStatusCode, e, npe)) == []
            <==> httpStatusCode == 200 && booking.Some? && Agrees(booking.value, e)
    ensures httpStatusCode != 200 ==> BlockErrors(BookingChecks(booking, httpStatusCode, e, npe))[0]
                                      == EqualsFailure(JInt(200), JInt(httpStatusCode), StatusLabel)
    ensures booking.None? ==> var errs := BlockErrors(BookingChecks(booking, httpStatusCode, e, npe));
                              errs[|errs| - 1] == ExceptionError(npe)
  {
    var status := [CheckEquals(JInt(200), JInt(httpStatusCode), StatusLabel)];
    BlockErrorsAppend(status, BodyChecks(booking, e, npe));
    BodyChecksClean(booking, e, npe);
    assert Failures(status) == (if httpStatusCode == 200 then [] else [EqualsFailure(JInt(200), JInt(httpStatusCode), StatusLabel)]);
  }

  /** What follows the four name and amount checks: the dates' checks, or the exception of their null dereference. */
  function DetailTail(b: Booking, e: BookingPayloads.BookingRequest, npe: Option<string>): seq<Step> {
    match b.bookingdates
    case None => [Raise(npe)]
    case Some(d) => DateChecks(d, b, e)
  }

  lemma {:induction false} DetailErrorsSplit(b: Booking, e: BookingPayloads.BookingRequest, npe: Option<string>)
    ensures BlockErrors(DetailChecks(b, e, npe)) == Failures(NameChecks(b, e)) + BlockErrors(DetailTail(b, e, npe))
  {
    NameChecksClean(b, e);
    assert DetailChecks(b, e, npe) == NameChecks(b, e) + DetailTail(b, e, npe);
    BlockErrorsAppend(NameChecks(b, e), DetailTail(b, e, npe));
  }

  /** A check followed by a block records the check's failure, then the block's errors. */
  lemma {:induction false} CheckThenBlock(x: Step, rest: seq<Step>)
    requires !x.Raise?
    ensures BlockErrors([x] + rest) == FailureOf(x) + BlockErrors(rest)
  {
    BlockErrorsAppend([x], rest);
    assert [x][1..] == [];
    assert Failures([x]) == FailureOf(x) + Failures([]);
  }

  /**
   * The booking batch's error list is the status failure, then the failures of
   * the four name and amount checks in check order, then whatever the dates'
   * part of the block records.
   */
  lemma {:induction false} NameFailuresRecorded(b: Booking, httpStatusCode: int, e: BookingPayloads.BookingRequest, npe: Option<string>)
    ensures BlockErrors(BookingChecks(Some(b), httpStatusCode, e, npe))
            == FailureOf(CheckEquals(JInt(200), JInt(httpStatusCode), StatusLabel))
               + (Failures(NameChecks(b, e)) + BlockErrors(DetailTail(b, e, npe)))
  {
    var x := CheckEquals(JInt(200), JInt(httpStatusCode), StatusLabel);
    assert BookingChecks(Some(b), httpStatusCode, e, npe) == [x] + DetailChecks(b, e, npe);
    CheckThenBlock(x, DetailChecks(b, e, npe));
    DetailErrorsSplit(b, e, npe);
  }

  /** Naming every error of a list names every error of a stretch of it. */
  lemma NamesEachMiddle(message: string, x: seq<string>, y: seq<string>, z: seq<string>)
    requires NamesEach(message, x + (y + z))
    ensures NamesEach(message, y)
  {
    forall i | 0 <= i < |y|
      ensures Occurs(y[i], message)
    {
      assert y[i] == (x + (y + z))[|x| + i];
    }
  }

  /** A message naming every error of the booking batch names every failing name or amount check. */
  lemma {:induction false} NameFailuresNamed(b: Booking, httpStatusCode: int, e: BookingPayloads.BookingRequest, npe: Option<string>, message: string)
    requires NamesEach(message, BlockErrors(BookingChecks(Some(b), httpStatusCode, e, npe)))
    ensures NamesEach(message, Failures(NameChecks(b, e)))
  {
    NameFailuresRecorded(b, httpStatusCode, e, npe);
    NamesEachMiddle(message, FailureOf(CheckEquals(JInt(200), JInt(httpStatusCode), StatusLabel)),
                    Failures(NameChecks(b, e)), BlockErrors(DetailTail(b, e, npe)));
  }

  /** A first name that differs from the expected one fails the first name check. */
  lemma {:induction false} FirstNameFailure(b: Booking, e: BookingPayloads.BookingRequest)
    requires b.firstname != e.firstname
    ensures |Failures(NameChecks(b, e))| > 0
    ensures Failures(NameChecks(b, e))[0] == EqualsFailure(Boxed(e.firstname), Boxed(b.firstname), "Validating First Name")
  {
    var names := NameChecks(b, e);
    assert Fails(names[0]);
    assert Failures(names) == FailureOf(names[0]) + Failures(names[1..]);
  }

  /** A line of the block, read back from the whole report. */
  lemma LineAfter(log: seq<LogEntry>, lines: seq<LogEntry>, rest: seq<LogEntry>, i: nat)
    requires i < |lines|
    ensures |log + lines + rest| > |log| + i && (log + lines + rest)[|log| + i] == lines[i]
  {
  }

  /** The booking block's report opens with the status line; a null booking's exception line follows it. */
  lemma {:induction false} BookingLines(booking: Option<Booking>, httpStatusCode: int, e: BookingPayloads.BookingRequest, npe: Option<string>)
    ensures var lines := BlockLines(BookingChecks(booking, httpStatusCode, e, npe), "booking response");
            && |lines| > 0
            && lines[0] == (if httpStatusCode == 200 then Pass(EqualsPassText(JInt(200), JInt(200), StatusLabel))
                            else Fail(EqualsFailure(JInt(200), JInt(httpStatusCode), StatusLabel)))
            && (booking.None? ==> |lines| > 1 && lines[1] == ExceptionEntry("booking response", npe))
  {
    var steps := BookingChecks(booking, httpStatusCode, e, npe);
    BlockLinesHead(steps, "booking response");
    if booking.None? {
      assert steps == [steps[0], Raise(npe)];
      assert steps[1..] == [Raise(npe)];
      assert RaiseIndex(steps) == 1;
      assert steps[..2] == steps;
      assert StepLines(steps, "booking response") == [StepLine(steps[0], "booking response")] + StepLines([Raise(npe)], "booking response");
    }
  }

  /** Read back from the whole report: the status line first, then a null booking's exception line. */
  lemma {:induction false} BookingReportLines(booking: Option<Booking>, httpStatusCode: int, e: BookingPayloads.BookingRequest,
                                              npe: Option<string>, log: seq<LogEntry>, log': seq<LogEntry>)
    requires log' == log + BlockLines(BookingChecks(booking, httpStatusCode, e, npe), "booking response")
                     + FailureLines(BlockErrors(BookingChecks(booking, httpStatusCode, e, npe)))
    ensures |log'| > |log| && log'[|log|] == (if httpStatusCode == 200 then Pass(EqualsPassText(JInt(200), JInt(200), StatusLabel))
                                              else Fail(EqualsFailure(JInt(200), JInt(httpStatusCode), StatusLabel)))
    ensures booking.None? ==> |log'| > |log| + 1 && log'[|log| + 1] == ExceptionEntry("booking response", npe)
  {
    var steps := BookingChecks(booking, httpStatusCode, e, npe);
    BookingLines(booking, httpStatusCode, e, npe);
    var lines := BlockLines(steps, "booking response");
    LineAfter(log, lines, FailureLines(BlockErrors(steps)), 0);
    if booking.None? {
      LineAfter(log, lines, FailureLines(BlockErrors(steps)), 1);
    }
  }

  /** A raised failure that names every error of a list names every error of a stretch of it, the first included. */
  lemma NamedStretch(raised: Option<string>, x: seq<string>, y: seq<string>, z: seq<string>)
    requires raised.Some? <==> x + (y + z) != []
    requires raised.Some? ==> NamesEach(raised.value, x + (y + z))
    ensures NamesEach(if raised.Some? then raised.value else "", y)
    ensures |y| > 0 ==> raised.Some? && Occurs(y[0], raised.value)
  {
    if |y| > 0 {
      assert (x + (y + z))[|x|] == y[0];
    }
    if raised.Some? {
      NamesEachMiddle(raised.value, x, y, z);
    }
  }

  /**
   * `assertBookingResponse`: raises exactly when the status is not 200, the
   * booking or its dates are null, or some field differs from the expected
   * one; a null booking is reported through the exception's message.
   */
  method AssertBookingResponse(booking: Option<Booking>, httpStatusCode: int, expected: BookingPayloads.BookingRequest,
                               npe: Option<string>, log: seq<LogEntry>)
    returns (log': seq<LogEntry>, raised: Option<string>)
    ensures raised.None? <==> httpStatusCode == 200 && booking.Some? && Agrees(booking.value, expected)
    ensures booking.None? ==> raised.Some? && Occurs(ExceptionError(npe), raised.value)
    ensures httpStatusCode != 200 ==> raised.Some? && Occurs(EqualsFailure(JInt(200), JInt(httpStatusCode), StatusLabel), raised.value)
    ensures booking.Some? ==> NamesEach(if raised.Some? then raised.value else "", Failures(NameChecks(booking.value, expected)))
    ensures booking.Some? && booking.value.firstname != expected.firstname ==>
              raised.Some? && Occurs(EqualsFailure(Boxed(expected.firstname), Boxed(booking.value.firstname), "Validating First Name"), raised.value)
    ensures raised.Some? ==> && NamesEach(raised.value, BlockErrors(BookingChecks(booking, httpStatusCode, expected, npe)))
                             && EndsWithFailureLines(log', BlockErrors(BookingChecks(booking, httpStatusCode, expected, npe)))
    ensures log' == log + BlockLines(BookingChecks(booking, httpStatusCode, expected, npe), "booking response")
                    + FailureLines(BlockErrors(BookingChecks(booking, httpStatusCode, expected, npe)))
    ensures |log'| > |log| && log'[|log|] == (if httpStatusCode == 200 then Pass(EqualsPassText(JInt(200), JInt(200), StatusLabel))
                                              else Fail(EqualsFailure(JInt(200), JInt(httpStatusCode), StatusLabel)))
    ensures booking.None? ==> |log'| > |log| + 1 && log'[|log| + 1] == ExceptionEntry("booking response", npe)
    ensures log <= log'
  {
    BookingChecksClean(booking, httpStatusCode, expected, npe);
    log', raised := RunBatch(BookingChecks(booking, httpStatusCode, expected, npe), "booking response", log);
    BookingReportLines(booking, httpStatusCode, expected, npe, log, log');
    if booking.Some? {
      var b := booking.value;
      NameFailuresRecorded(b, httpStatusCode, expected, npe);
      NamedStretch(raised, FailureOf(CheckEquals(JInt(200), JInt(httpStatusCode), StatusLabel)),
                   Failures(NameChecks(b, expected)), BlockErrors(DetailTail(b, expected, npe)));
      if b.firstname != expected.firstname {
        FirstNameFailure(b, expected);
      }
    }
  }

  const NotNullLabel := "Validating bookingId list not null"
  const NotEmptyLabel := "Validating bookingId list not empty"

  function FoundText(count: nat): string {
    "PASS: Booking ID list is not empty. Found " + IntToString(count) + " booking IDs."
  }

  /** The `try` block of `assertBookingIdListResponse`; nothing in it can throw. */
  function IdListChecks(list: Option<seq<BookingId>>, statusCode: int): seq<Step> {
    var isNotNull := list.Some?;
    var isNotEmpty := list.Some? && |list.value| > 0;
    [ CheckEquals(JInt(200), JInt(statusCode), StatusLabel),
      CheckTrue(isNotNull, NotNullLabel),
      CheckTrue(isNotEmpty, NotEmptyLabel) ]
    + SizeLine(list)
  }

  /** The pass line giving the list's size, written only for a non-empty list. */
  function SizeLine(list: Option<seq<BookingId>>): seq<Step> {
    if list.Some? && |list.value| > 0 then [LogPass(FoundText(|list.value|))] else []
  }

  /** Three checks followed by report lines only record the three checks' failures, in order. */
  lemma {:induction false} ThreeChecks(x: Step, y: Step, z: Step, rest: seq<Step>)
    requires !x.Raise? && !y.Raise? && !z.Raise?
    requires forall i | 0 <= i < |rest| :: rest[i].LogPass?
    ensures BlockErrors([x, y, z] + rest) == FailureOf(x) + FailureOf(y) + FailureOf(z)
  {
    assert BlockErrors(rest) == [] by {
      FailuresEmptyIff(rest);
      BlockErrorsOfChecks(rest);
    }
    CheckThenBlock(z, rest);
    var zr := [z] + rest;
    var yzr := [y] + zr;
    CheckThenBlock(y, zr);
    CheckThenBlock(x, yzr);
    assert [x, y, z] + rest == [x] + yzr;
    Regroup3(FailureOf(x), FailureOf(y), FailureOf(z));
  }

  lemma Regroup3(a: seq<string>, b: seq<string>, c: seq<string>)
    ensures a + (b + (c + [])) == a + b + c
  {
  }

  /** The list checks alone: two failures for a null list, one for an empty one, none otherwise. */
  lemma {:induction false} IdListFailures(list: Option<seq<BookingId>>, statusCode: int)
    ensures var errs := BlockErrors(IdListChecks(list, statusCode));
            var head := if statusCode == 200 then [] else [EqualsFailure(JInt(200), JInt(statusCode), StatusLabel)];
            && (list.None? ==> errs == head + [TrueFailure(NotNullLabel), TrueFailure(NotEmptyLabel)])
            && (list == Some([]) ==> errs == head + [TrueFailure(NotEmptyLabel)])
            && (list.Some? && |list.value| > 0 ==> errs == head)
  {
    var x := CheckEquals(JInt(200), JInt(statusCode), StatusLabel);
    var y := CheckTrue(list.Some?, NotNullLabel);
    var z := CheckTrue(list.Some? && |list.value| > 0, NotEmptyLabel);
    ThreeChecks(x, y, z, SizeLine(list));
    assert IdListChecks(list, statusCode) == [x, y, z] + SizeLine(list);
  }

  /** The id-list block's report opens with the status line; a non-empty list's size line is its fourth. */
  lemma {:induction false} IdListLines(list: Option<seq<BookingId>>, statusCode: int)
    ensures var lines := BlockLines(IdListChecks(list, statusCode), "booking ID list response");
            && |lines| > 0
            && lines[0] == (if statusCode == 200 then Pass(EqualsPassText(JInt(200), JInt(200), StatusLabel))
                            else Fail(EqualsFailure(JInt(200), JInt(statusCode), StatusLabel)))
            && (list.Some? && |list.value| > 0 ==> |lines| > 3 && lines[3] == Pass(FoundText(|list.value|)))
  {
    var steps := IdListChecks(list, statusCode);
    BlockLinesHead(steps, "booking ID list response");
    if list.Some? && |list.value| > 0 {
      var t := Tally([], []);
      IdListLogsSize(list.value, statusCode, t);
      RunBlockLines(t, steps, "booking ID list response");
      assert [] + BlockLines(steps, "booking ID list response") == BlockLines(steps, "booking ID list response");
    }
  }

  /**
   * `assertBookingIdListResponse`: raises exactly when the status is not 200
   * or the list is null or empty; a non-empty list logs its size.
   */
  method AssertBookingIdListResponse(list: Option<seq<BookingId>>, statusCode: int, log: seq<LogEntry>)
    returns (log': seq<LogEntry>, raised: Option<string>)
    ensures raised.None? <==> statusCode == 200 && list.Some? && |list.value| > 0
    ensures list.None? ==> && raised.Some?
                           && Occurs(TrueFailure(NotNullLabel), raised.value)
                           && Occurs(TrueFailure(NotEmptyLabel), raised.value)
    ensures list == Some([]) ==> raised.Some? && Occurs(TrueFailure(NotEmptyLabel), raised.value)
    ensures statusCode != 200 ==> raised.Some? && Occurs(EqualsFailure(JInt(200), JInt(statusCode), StatusLabel), raised.value)
    ensures raised.Some? ==> && NamesEach(raised.value, BlockErrors(IdListChecks(list, statusCode)))
                             && EndsWithFailureLines(log', BlockErrors(IdListChecks(list, statusCode)))
    ensures log' == log + BlockLines(IdListChecks(list, statusCode), "booking ID list response")
                    + FailureLines(BlockErrors(IdListChecks(list, statusCode)))
    ensures |log'| > |log| && log'[|log|] == (if statusCode == 200 then Pass(EqualsPassText(JInt(200), JInt(200), StatusLabel))
                                              else Fail(EqualsFailure(JInt(200), JInt(statusCode), StatusLabel)))
    ensures list.Some? && |list.value| > 0 ==> |log'| > |log| + 3 && log'[|log| + 3] == Pass(FoundText(|list.value|))
    ensures log <= log'
  {
    var steps := IdListChecks(list, statusCode);
    IdListFailures(list, statusCode);
    log', raised := RunBatch(steps, "booking ID list response", log);
    IdListLines(list, statusCode);
    var lines := BlockLines(steps, "booking ID list response");
    LineAfter(log, lines, FailureLines(BlockErrors(steps)), 0);
    if list.Some? && |list.value| > 0 {
      LineAfter(log, lines, FailureLines(BlockErrors(steps)), 3);
    }
    var errs := BlockErrors(steps);
    if list.None? {
      assert errs[|errs| - 2] == TrueFailure(NotNullLabel);
      assert errs[|errs| - 1] == TrueFailure(NotEmptyLabel);
    } else if list == Some([]) {
      assert errs[|errs| - 1] == TrueFailure(NotEmptyLabel);
    }
    if statusCode != 200 {
      assert errs[0] == EqualsFailure(JInt(200), JInt(statusCode), StatusLabel);
    }
  }

  /** The size line is logged for a non-empty list, after the three check lines. */
  lemma {:induction false} IdListLogsSize(list: seq<BookingId>, statusCode: int, t: Tally)
    requires |list| > 0
    ensures var r := RunBlock(t, IdListChecks(Some(list), statusCode), "booking ID list response");
            |r.log| == |t.log| + 4 && r.log[|t.log| + 3] == Pass(FoundText(|list|))
  {
    var steps := IdListChecks(Some(list), statusCode);
    RunBlockLog(t, steps, "booking ID list response");
    var t3 := RunBlock(t, steps[..3], "booking ID list response");
    RunBlockLog(t, steps[..3], "booking ID list response");
    assert steps == steps[..3] + [LogPass(FoundText(|list|))];
    RunBlockSplit(t, steps[..3], [LogPass(FoundText(|list|))], "booking ID list response");
  }

  /** Running a stretch of non-throwing statements, then the rest, is running the whole block. */
  lemma {:induction false} RunBlockSplit(t: Tally, a: seq<Step>, b: seq<Step>, what: string)
    requires forall i | 0 <= i < |a| :: !a[i].Raise?
    ensures RunBlock(t, a + b, what) == RunBlock(RunBlock(t, a, what), b, what)
    decreases |a|
  {
    if |a| == 0 {
      assert a + b == b;
    } else {
      assert (a + b)[1..] == a[1..] + b;
      RunBlockSplit(Execute(t, a[0]), a[1..], b, what);
    }
  }

  /** The `try` block of `assertDeleteBookingResponse`: a hard-coded 201, or the null response's exception. */
  function DeleteChecks(response: Option<Response>, npe: Option<string>): seq<Step> {
    match response
    case None => [Raise(npe)]
    case Some(r) => [CheckEquals(JInt(201), JInt(r.status), StatusLabel)]
  }

  /** `assertDeleteBookingResponse`: raises exactly unless a response arrived with status 201. */
  method AssertDeleteBookingResponse(response: Option<Response>, npe: Option<string>, log: seq<LogEntry>)
    returns (log': seq<LogEntry>, raised: Option<string>)
    ensures raised.None? <==> response.Some? && response.value.status == 201
    ensures response.None? ==> raised.Some? && Occurs(ExceptionError(npe), raised.value)
    ensures response.Some? && response.value.status != 201 ==>
              raised.Some? && Occurs(EqualsFailure(JInt(201), JInt(response.value.status), StatusLabel), raised.value)
    ensures raised.Some? ==> && NamesEach(raised.value, BlockErrors(DeleteChecks(response, npe)))
                             && EndsWithFailureLines(log', BlockErrors(DeleteChecks(response, npe)))
    ensures log' == log + BlockLines(DeleteChecks(response, npe), "delete booking response")
                    + FailureLines(BlockErrors(DeleteChecks(response, npe)))
    ensures response.Some? ==> |log'| > |log| && log'[|log|] == (if response.value.status == 201 then Pass(EqualsPassText(JInt(201), JInt(201), StatusLabel))
                                                                  else Fail(EqualsFailure(JInt(201), JInt(response.value.status), StatusLabel)))
    ensures response.None? ==> |log'| > |log| && log'[|log|] == ExceptionEntry("delete booking response", npe)
    ensures log <= log'
  {
    var steps := DeleteChecks(response, npe);
    if response.None? {
      assert steps == [Raise(npe)] + [];
      BlockErrorsOfRaise(npe, []);
    } else {
      BlockErrorsOfChecks(steps);
      FailuresEmptyIff(steps);
    }
    log', raised := RunBatch(steps, "delete booking response", log);
    BlockLinesHead(steps, "delete booking response");
    if response.None? {
      assert BlockErrors(steps)[0] == ExceptionError(npe);
    } else if response.value.status != 201 {
      assert BlockErrors(steps)[0] == EqualsFailure(JInt(201), JInt(response.value.status), StatusLabel);
    }
  }

  /**
   * How a hard-fail helper ends. Its handler catches `Exception` only, so an
   * `AssertionFailedError` (an `Error`) escapes without a report line, while a
   * null dereference or a bad index is logged and rethrown wrapped.
   */
  datatype Verdict = Validated | AssertionFailed | Rethrown

  datatype Checked = Checked(verdict: Verdict, log: seq<LogEntry>)

  function ErrorPassText(expectedStatusCode: int, expectedMessage: Option<string>): string {
    "PASS: Error response validated successfully. Status Code: " + IntToString(expectedStatusCode) + ", Message: " + Show(expectedMessage)
  }

  function ErrorFailEntry(exceptionMessage: Option<string>): LogEntry {
    Fail("FAIL: Error response validation failed. " + Show(exceptionMessage))
  }

  /**
   * Shared body of the two error-response helpers; `actual` is the text the
   * helper reads from the reply (the body, or its `reason` field).
   */
  function ValidateError(response: Option<Response>, actual: Option<string>, expectedStatusCode: int, expectedMessage: Option<string>,
                         exceptionMessage: Option<string>, log: seq<LogEntry>): (r: Checked)
    ensures r.verdict == Validated <==> response.Some? && response.value.status == expectedStatusCode && expectedMessage == actual
    ensures r.verdict == Rethrown <==> response.None?
    ensures r.verdict == AssertionFailed ==> r.log == log
    ensures r.verdict == Rethrown ==> r.log == log + [ErrorFailEntry(exceptionMessage)]
    ensures r.verdict == Validated ==> r.log == log + [Pass(ErrorPassText(expectedStatusCode, expectedMessage))]
  {
    if response.None? then Checked(Rethrown, log + [ErrorFailEntry(exceptionMessage)])
    else if response.value.status != expectedStatusCode then Checked(AssertionFailed, log)
    else if expectedMessage != actual then Checked(AssertionFailed, log)
    else Checked(Validated, log + [Pass(ErrorPassText(expectedStatusCode, expectedMessage))])
  }

  /** `assertErrorResponse`: status and raw body text must both match. */
  function AssertErrorResponse(response: Option<Response>, expectedStatusCode: int, expectedMessage: Option<string>,
                               exceptionMessage: Option<string>, log: seq<LogEntry>): (r: Checked)
    ensures r.verdict == Validated <==> response.Some? && response.value.status == expectedStatusCode
                                        && expectedMessage == Some(response.value.body)
    ensures r.verdict == Rethrown <==> response.None?
    ensures r.verdict == AssertionFailed ==> r.log == log
  {
    var actual := if response.Some? then Some(response.value.body) else None;
    ValidateError(response, actual, expectedStatusCode, expectedMessage, exceptionMessage, log)
  }

  /** `assertAuthErrorResponse`: status and the JSON `reason` field must both match. */
  function AssertAuthErrorResponse(response: Option<Response>, expectedStatusCode: int, expectedMessage: Option<string>,
                                   exceptionMessage: Option<string>, log: seq<LogEntry>): (r: Checked)
    ensures r.verdict == Validated <==> response.Some? && response.value.status == expectedStatusCode
                                        && expectedMessage == JsonString(response.value, "reason")
    ensures r.verdict == Rethrown <==> response.None?
    ensures r.verdict == AssertionFailed ==> r.log == log
  {
    var actual := if response.Some? then JsonString(response.value, "reason") else None;
    ValidateError(response, actual, expectedStatusCode, expectedMessage, exceptionMessage, log)
  }

  /** A reply whose status or message is wrong fails the test without adding any report line. */
  lemma {:induction false} MismatchIsNotLogged(response: Response, expectedStatusCode: int, expectedMessage: Option<string>,
                            exceptionMessage: Option<string>, log: seq<LogEntry>)
    requires response.status != expectedStatusCode || expectedMessage != Some(response.body)
    ensures AssertErrorResponse(Some(response), expectedStatusCode, expectedMessage, exceptionMessage, log) == Checked(AssertionFailed, log)
  {
  }

  /**
   * The masked form of a token in the report: its first four and last four
   * characters around four asterisks. A token shorter than four characters
   * has no mask: the substring call throws.
   */
  function MaskToken(t: string): (m: Option<string>)
    ensures m.Some? <==> |t| >= 4
    ensures m.Some? ==> && |m.value| == 12
                        && m.value[..4] == t[..4]
                        && m.value[4..8] == "****"
                        && m.value[8..] == t[|t| - 4..]
  {
    if |t| < 4 then None else Some(t[..4] + "****" + t[|t| - 4..])
  }

  /** A token of at most eight characters is shown in full: it can be read back from its mask. */
  lemma {:induction false} ShortTokenIsExposed(t: string)
    requires 4 <= |t| <= 8
    ensures t == MaskToken(t).value[..4] + MaskToken(t).value[16 - |t|..]
  {
    var m := MaskToken(t).value;
    assert m[16 - |t|..] == m[8..][8 - |t|..];
    assert t[|t| - 4..][8 - |t|..] == t[4..];
  }

  /** Two masks agree exactly when the tokens share their first four and last four characters. */
  lemma {:induction false} MaskIffEnds(t1: string, t2: string)
    requires |t1| >= 4 && |t2| >= 4
    ensures MaskToken(t1) == MaskToken(t2) <==> t1[..4] == t2[..4] && t1[|t1| - 4..] == t2[|t2| - 4..]
  {
    var m1, m2 := MaskToken(t1).value, MaskToken(t2).value;
    if m1 == m2 {
      assert t1[..4] == m1[..4];
      assert t1[|t1| - 4..] == m1[8..];
    }
  }

  function TokenPassText(expectedStatusCode: int, masked: string): string {
    "PASS: Token response validated successfully. Status Code: " + IntToString(expectedStatusCode) + ", Actual Token : " + masked
  }

  function TokenFailEntry(exceptionMessage: Option<string>): LogEntry {
    Fail("FAIL: Token response validation failed. " + Show(exceptionMessage))
  }

  /**
   * `assertAuthValidResponse`. The mask is computed before the null and
   * blank checks, so a null token or one shorter than four characters throws
   * there (logged, rethrown) and never reaches them; a blank token of four or
   * more characters fails the emptiness check unlogged.
   */
  function AssertAuthValidResponse(response: Option<Response>, expectedStatusCode: int,
                                   exceptionMessage: Option<string>, log: seq<LogEntry>): (r: Checked)
    ensures r.verdict == Validated <==> && response.Some?
                                        && response.value.status == expectedStatusCode
                                        && TokenField(response.value).Some?
                                        && |TokenField(response.value).value| >= 4
                                        && !Blank(TokenField(response.value).value)
    ensures r.verdict == Rethrown <==> || response.None?
                                       || (&& response.value.status == expectedStatusCode
                                           && (TokenField(response.value).None? || |TokenField(response.value).value| < 4))
    ensures r.verdict == AssertionFailed ==> r.log == log
    ensures r.verdict == Rethrown ==> r.log == log + [TokenFailEntry(exceptionMessage)]
    ensures r.verdict == Validated ==> r.log == log + [Pass(TokenPassText(expectedStatusCode, MaskToken(TokenField(response.value).value).value))]
  {
    if response.None? then Checked(Rethrown, log + [TokenFailEntry(exceptionMessage)])
    else if response.value.status != expectedStatusCode then Checked(AssertionFailed, log)
    else match TokenField(response.value)
      case None => Checked(Rethrown, log + [TokenFailEntry(exceptionMessage)])
      case Some(t) =>
        match MaskToken(t)
        case None => Checked(Rethrown, log + [TokenFailEntry(exceptionMessage)])
        case Some(masked) =>
          TrimEmptyIffBlank(t);
          if Trim(t) == [] then Checked(AssertionFailed, log)
          else Checked(Validated, log + [Pass(TokenPassText(expectedStatusCode, masked))])
  }
}
