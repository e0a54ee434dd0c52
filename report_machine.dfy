/**
 * The event-driven state machine of the JUnit XML result parser, stated on
 * values. `Parser` holds exactly what the Java handler keeps in its fields;
 * a Java `null` is `None`. `Step` is the effect of one SAX callback and `Run`
 * the effect of a whole event sequence; the class in XmlResultParser is
 * proved to refine them.
 */
module ReportMachine {
  import opened Options
  import opened GroupFormat

  /** The recognised positions in a report document. */
  datatype Phase =
    | OutOfScope | TestSuite | Properties | Property | TestCase
    | Failure | Error | OutputStd | OutputErr

  /**
   * Either at a recognised position, or inside `depth` nested unrecognised
   * elements, to return to `resume` once they are all closed.
   */
  datatype Position = At(phase: Phase) | Skipping(resume: Phase, depth: nat)

  /** An element start with its `classname` and `name` attributes, or an element end. */
  datatype Event = Start(name: string, classAttr: Option<string>, nameAttr: Option<string>) | End

  datatype Parser = Parser(
    pos: Position,
    className: Option<string>,            // `classname` of the current testcase
    methodName: Option<string>,           // `name` of the current testcase
    lastErrClassName: Option<string>,     // class of the pending group
    lastErrMethodNames: Option<seq<string>>,  // its method names
    result: Option<seq<string>>)          // the records flushed so far

  const Initial := Parser(At(OutOfScope), None, None, None, None, None)

  /** The position a recognised child element leads to, if `name` is recognised in `p`. */
  function Child(p: Phase, name: string): Option<Phase>
  {
    match p
    case OutOfScope => if name == "testsuite" then Some(TestSuite) else None
    case TestSuite =>
      if name == "testcase" then Some(TestCase)
      else if name == "system-out" then Some(OutputStd)
      else if name == "system-err" then Some(OutputErr)
      else if name == "properties" then Some(Properties)
      else None
    case Properties => if name == "property" then Some(Property) else None
    case TestCase =>
      if name == "failure" then Some(Failure)
      else if name == "error" then Some(Error)
      else None
    case _ => None
  }

  /** The position an element end leads back to. */
  function Parent(p: Phase): Phase
  {
    match p
    case OutOfScope => OutOfScope
    case TestSuite => OutOfScope
    case Properties => TestSuite
    case Property => Properties
    case TestCase => TestSuite
    case Failure => TestCase
    case Error => TestCase
    case OutputStd => TestSuite
    case OutputErr => TestSuite
  }

  /** A pending class always has at least one method; without one the list is null or empty. */
  predicate PendingValid(m: Parser)
  {
    (m.lastErrClassName.Some? ==> m.lastErrMethodNames.Some? && |m.lastErrMethodNames.value| >= 1) &&
    (m.lastErrClassName.None? ==> m.lastErrMethodNames.None? || m.lastErrMethodNames.value == [])
  }

  predicate Valid(m: Parser)
  {
    (m.pos.Skipping? ==> m.pos.depth >= 1) &&
    PendingValid(m) &&
    (m.result.Some? ==> |m.result.value| >= 1)
  }

  /** The list handed to the caller: the records, or the empty list when none was ever created. */
  function Results(m: Parser): seq<string>
  {
    if m.result.None? then [] else m.result.value
  }

  /** Appends the pending group, if any, to the result and clears it. */
  function Flush(m: Parser): (r: Parser)
    requires PendingValid(m)
    ensures PendingValid(r) && r.lastErrClassName.None?
  {
    if m.lastErrClassName.None? then m
    else
      var line := Format(m.lastErrClassName.value, m.lastErrMethodNames.value);
      m.(result := Some(Results(m) + [line]), lastErrClassName := None, lastErrMethodNames := Some([]))
  }

  /** A failure or error of the current testcase joins or starts the pending group. */
  function RecordFailure(m: Parser): (r: Parser)
    requires PendingValid(m)
    ensures PendingValid(r) && r.pos == m.pos
    ensures Valid(m) ==> Valid(r)
  {
    if m.className.None? || m.methodName.None? then m
    else
      var cls, k := m.className.value, m.methodName.value;
      var m1 :=
        if m.lastErrClassName == Some(cls)
        then m.(lastErrMethodNames := Some(m.lastErrMethodNames.value + [k]))
        else Flush(m);
      var names := if m1.lastErrMethodNames.None? then [] else m1.lastErrMethodNames.value;
      m1.(lastErrClassName := Some(cls), lastErrMethodNames := Some(names + [k]))
  }

  function StartStep(m: Parser, name: string, classAttr: Option<string>, nameAttr: Option<string>): (r: Parser)
    requires Valid(m)
    ensures Valid(r)
  {
    match m.pos
    case Skipping(resume, d) => m.(pos := Skipping(resume, d + 1))
    case At(p) =>
      match Child(p, name)
      case None => m.(pos := Skipping(p, 1))
      case Some(q) =>
        if q == TestCase then m.(pos := At(q), className := classAttr, methodName := nameAttr)
        else if q == Failure || q == Error then RecordFailure(m.(pos := At(q)))
        else m.(pos := At(q))
  }

  function EndStep(m: Parser): (r: Parser)
    requires Valid(m)
    ensures Valid(r)
  {
    match m.pos
    case Skipping(resume, d) =>
      if d - 1 == 0 then m.(pos := At(resume)) else m.(pos := Skipping(resume, d - 1))
    case At(p) =>
      if p == TestSuite then Flush(m).(pos := At(OutOfScope))
      else m.(pos := At(Parent(p)))
  }

  function Step(m: Parser, e: Event): (r: Parser)
    requires Valid(m)
    ensures Valid(r)
  {
    match e
    case Start(name, c, n) => StartStep(m, name, c, n)
    case End => EndStep(m)
  }

  /** The parser after consuming `evs` in order; every reachable parser is valid. */
  function Run(m: Parser, evs: seq<Event>): (r: Parser)
    requires Valid(m)
    ensures Valid(r)
    decreases |evs|
  {
    if |evs| == 0 then m else Run(Step(m, evs[0]), evs[1..])
  }

  // ---------------------------------------------------------------- lemmas

  /** Each recognised child ends back where it started. */
  lemma ChildParent(p: Phase, name: string)
    requires Child(p, name).Some?
    ensures Parent(Child(p, name).value) == p
  {
  }

  /**
   * Flushing with no pending class changes nothing; otherwise the result grows
   * by exactly one record, which reads back as the pending group.
   */
  lemma FlushRecord(m: Parser)
    requires PendingValid(m)
    ensures m.lastErrClassName.None? ==> Flush(m) == m
    ensures m.lastErrClassName.Some? ==>
      var r := Flush(m);
      |Results(r)| == |Results(m)| + 1 &&
      Results(r)[..|Results(m)|] == Results(m) &&
      r.lastErrMethodNames == Some([]) &&
      r.pos == m.pos && r.className == m.className && r.methodName == m.methodName &&
      (':' !in m.lastErrClassName.value && NoComma(m.lastErrMethodNames.value) ==>
         ParseRecord(Results(r)[|Results(m)|]) == Some((m.lastErrClassName.value, m.lastErrMethodNames.value)))
  {
    if m.lastErrClassName.Some? && ':' !in m.lastErrClassName.value && NoComma(m.lastErrMethodNames.value) {
      ParseFormat(m.lastErrClassName.value, m.lastErrMethodNames.value);
    }
  }

  /** Recording a failure of a class other than the pending one: flush, then a group of one method. */
  lemma StartPending(m: Parser, c: string, k: string)
    requires PendingValid(m) && m.className == Some(c) && m.methodName == Some(k)
    requires m.lastErrClassName != Some(c)
    ensures var r := RecordFailure(m);
      r.lastErrClassName == Some(c) && r.lastErrMethodNames == Some([k]) && r.result == Flush(m).result
  {
    var m1 := Flush(m);
    assert m1.lastErrMethodNames.None? || m1.lastErrMethodNames.value == [];
    assert [] + [k] == [k];
  }

  /** Recording a failure of the pending class: its method is appended twice and nothing is flushed. */
  lemma JoinPending(m: Parser, c: string, k: string)
    requires PendingValid(m) && m.className == Some(c) && m.methodName == Some(k)
    requires m.lastErrClassName == Some(c)
    ensures var r := RecordFailure(m);
      r.lastErrClassName == Some(c) && r.lastErrMethodNames == Some(m.lastErrMethodNames.value + [k, k]) &&
      r.result == m.result
  {
    assert m.lastErrMethodNames.value + [k] + [k] == m.lastErrMethodNames.value + [k, k];
  }

  /**
   * A `failure` or `error` start inside a testcase whose class and name are
   * both known: the same class as the pending group appends the method name
   * twice; a different class flushes the group and starts one holding only
   * that name.
   */
  lemma FailureJoinsOrStartsGroup(m: Parser, name: string, c: Option<string>, n: Option<string>)
    requires Valid(m) && m.pos == At(TestCase) && name in {"failure", "error"}
    requires m.className.Some? && m.methodName.Some?
    ensures var r := StartStep(m, name, c, n);
      var k := m.methodName.value;
      r.pos == At(if name == "failure" then Failure else Error) &&
      r.className == m.className && r.methodName == m.methodName &&
      r.lastErrClassName == m.className &&
      if m.lastErrClassName == m.className
      then r.lastErrMethodNames == Some(m.lastErrMethodNames.value + [k, k]) && r.result == m.result
      else r.lastErrMethodNames == Some([k]) && r.result == Flush(m).result
  {
    var m1 := m.(pos := At(if name == "failure" then Failure else Error));
    if m.lastErrClassName == m.className {
      JoinPending(m1, m.className.value, m.methodName.value);
    } else {
      StartPending(m1, m.className.value, m.methodName.value);
    }
  }

  /** Without both testcase attributes a failure or error records nothing, but the position still moves. */
  lemma UnattributedFailureRecordsNothing(m: Parser, name: string, c: Option<string>, n: Option<string>)
    requires Valid(m) && m.pos == At(TestCase) && name in {"failure", "error"}
    requires m.className.None? || m.methodName.None?
    ensures StartStep(m, name, c, n) == m.(pos := At(if name == "failure" then Failure else Error))
  {
  }

  /**
   * Inside a skipped subtree a start or an end changes nothing but the nesting
   * counter: the counter follows the depth, and the saved position comes back
   * exactly when the outermost skipped element ends.
   */
  lemma SkippingMovesCounterOnly(m: Parser, e: Event)
    requires Valid(m) && m.pos.Skipping?
    ensures var r := Step(m, e);
      r == m.(pos := r.pos) &&
      (r.pos.At? <==> e.End? && m.pos.depth == 1) &&
      (r.pos.At? ==> r.pos.phase == m.pos.resume) &&
      (r.pos.Skipping? ==>
        r.pos.resume == m.pos.resume && r.pos.depth == m.pos.depth + (if e.Start? then 1 else -1))
  {
  }

  /**
   * Element ends: the end of an element that led from `q` into the current
   * position returns to `q`; only the end of the test suite also flushes the
   * pending group, and nothing else changes.
   */
  lemma EndReturnsToParent(m: Parser, q: Phase, name: string)
    requires Valid(m) && m.pos.At? && Child(q, name) == Some(m.pos.phase)
    ensures EndStep(m).pos == At(q)
    ensures EndStep(m) == (if m.pos.phase == TestSuite then Flush(m) else m).(pos := At(q))
  {
    ChildParent(q, name);
  }

  /** An end outside the document is ignored. */
  lemma StrayEndIgnored(m: Parser)
    requires Valid(m) && m.pos == At(OutOfScope)
    ensures EndStep(m) == m
  {
  }

  /** An element start immediately followed by an end leaves the position where it was. */
  lemma StartEndRestoresPosition(m: Parser, name: string, c: Option<string>, n: Option<string>)
    requires Valid(m)
    ensures EndStep(StartStep(m, name, c, n)).pos == m.pos
  {
    if m.pos.At? && Child(m.pos.phase, name).Some? {
      ChildParent(m.pos.phase, name);
    }
  }

  /**
   * Only a failure or error start inside a testcase and the end of the test
   * suite touch the pending group or the result.
   */
  lemma OnlyRecordingStepsMutate(m: Parser, e: Event)
    requires Valid(m)
    requires !(e.Start? && m.pos == At(TestCase) && e.name in {"failure", "error"})
    requires !(e.End? && m.pos == At(TestSuite))
    ensures var r := Step(m, e);
      r.lastErrClassName == m.lastErrClassName &&
      r.lastErrMethodNames == m.lastErrMethodNames &&
      r.result == m.result
  {
  }

  /** Consuming `a` then `b` is consuming `a + b`. */
  lemma {:induction false} RunAppend(m: Parser, a: seq<Event>, b: seq<Event>)
    requires Valid(m)
    ensures Run(m, a + b) == Run(Run(m, a), b)
    decreases |a|
  {
    if |a| == 0 {
      assert a + b == b;
    } else {
      assert (a + b)[1..] == a[1..] + b;
      RunAppend(Step(m, a[0]), a[1..], b);
    }
  }

  lemma RunSnoc(m: Parser, evs: seq<Event>, e: Event)
    requires Valid(m)
    ensures Run(m, evs + [e]) == Step(Run(m, evs), e)
  {
    RunAppend(m, evs, [e]);
  }

  /** The result is append-only: records once produced are never changed or removed. */
  lemma {:induction false} ResultOnlyGrows(m: Parser, evs: seq<Event>)
    requires Valid(m)
    ensures |Results(m)| <= |Results(Run(m, evs))|
    ensures Results(Run(m, evs))[..|Results(m)|] == Results(m)
    decreases |evs|
  {
    if |evs| > 0 {
      var m1 := Step(m, evs[0]);
      assert |Results(m)| <= |Results(m1)| && Results(m1)[..|Results(m)|] == Results(m);
      ResultOnlyGrows(m1, evs[1..]);
      var r := Results(Run(m, evs));
      assert r[..|Results(m)|] == r[..|Results(m1)|][..|Results(m)|];
    }
  }
}
