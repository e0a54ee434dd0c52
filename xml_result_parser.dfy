/**
 * The SAX content handler itself: an object whose fields the element-start
 * and element-end callbacks update in place. The position is kept, as in the
 * Java class, as one signed integer: a state constant, or its negation while an
 * unrecognised subtree is being skipped, with `unknownElemNestLevel` counting
 * the open unrecognised elements. Every callback is proved to act on the
 * fields as the corresponding step of ReportMachine acts on a `Parser`.
 */
module XmlResultParser {
  import opened Options
  import opened GroupFormat
  import opened ReportMachine

  const STATE_OUT_OF_SCOPE := 1
  const STATE_TESTSUITE := 2
  const STATE_PROPERTIES := 3
  const STATE_PROPERTY := 4
  const STATE_TESTCASE := 8
  const STATE_FAILURE := 12
  const STATE_ERROR := 13
  const STATE_OUTPUT_STD := 16
  const STATE_OUTPUT_ERR := 17

  function Code(p: Phase): int
  {
    match p
    case OutOfScope => STATE_OUT_OF_SCOPE
    case TestSuite => STATE_TESTSUITE
    case Properties => STATE_PROPERTIES
    case Property => STATE_PROPERTY
    case TestCase => STATE_TESTCASE
    case Failure => STATE_FAILURE
    case Error => STATE_ERROR
    case OutputStd => STATE_OUTPUT_STD
    case OutputErr => STATE_OUTPUT_ERR
  }

  /** The phase a state constant names, if it names one. */
  function PhaseOf(code: int): (r: Option<Phase>)
    ensures r.Some? <==> code in {STATE_OUT_OF_SCOPE, STATE_TESTSUITE, STATE_PROPERTIES, STATE_PROPERTY,
                                  STATE_TESTCASE, STATE_FAILURE, STATE_ERROR, STATE_OUTPUT_STD, STATE_OUTPUT_ERR}
    ensures r.Some? ==> Code(r.value) == code
  {
    if code == STATE_OUT_OF_SCOPE then Some(OutOfScope)
    else if code == STATE_TESTSUITE then Some(TestSuite)
    else if code == STATE_PROPERTIES then Some(Properties)
    else if code == STATE_PROPERTY then Some(Property)
    else if code == STATE_TESTCASE then Some(TestCase)
    else if code == STATE_FAILURE then Some(Failure)
    else if code == STATE_ERROR then Some(Error)
    else if code == STATE_OUTPUT_STD then Some(OutputStd)
    else if code == STATE_OUTPUT_ERR then Some(OutputErr)
    else None
  }

  /**
   * The state is one of the nine constants, or the negation of one; it is
   * negative exactly when the nesting level is at least 1 and positive exactly
   * when the level is 0.
   */
  predicate EncodingValid(state: int, level: int)
  {
    (state > 0 && PhaseOf(state).Some? && level == 0) ||
    (state < 0 && PhaseOf(-state).Some? && level >= 1)
  }

  function Decode(state: int, level: int): (pos: Position)
    requires EncodingValid(state, level)
    ensures pos.Skipping? ==> pos.depth >= 1
  {
    if state > 0 then At(PhaseOf(state).value) else Skipping(PhaseOf(-state).value, level)
  }

  function Encode(pos: Position): (int, int)
  {
    match pos
    case At(p) => (Code(p), 0)
    case Skipping(r, d) => (-Code(r), d)
  }

  /** Every valid position has exactly one valid encoding, and back. */
  lemma EncodingRoundTrip(pos: Position, state: int, level: int)
    ensures (pos.Skipping? ==> pos.depth >= 1) ==>
      EncodingValid(Encode(pos).0, Encode(pos).1) && Decode(Encode(pos).0, Encode(pos).1) == pos
    ensures EncodingValid(state, level) ==> Encode(Decode(state, level)) == (state, level)
  {
  }

  class XMLResultParser {
    var state: int
    var unknownElemNestLevel: int
    var lastErrClassName: Option<string>
    var lastErrMethodNames: Option<seq<string>>
    var className: Option<string>
    var methodName: Option<string>
    var result: Option<seq<string>>

    /** The fields seen as a parser value; the methods below are specified through it. */
    function Model(): Parser
      reads this
      requires EncodingValid(state, unknownElemNestLevel)
    {
      Parser(Decode(state, unknownElemNestLevel), className, methodName,
             lastErrClassName, lastErrMethodNames, result)
    }

    predicate Valid()
      reads this
    {
      EncodingValid(state, unknownElemNestLevel) && ReportMachine.Valid(Model())
    }

    constructor ()
      ensures Valid() && Model() == Initial
    {
      state := STATE_OUT_OF_SCOPE;
      unknownElemNestLevel := 0;
      lastErrClassName := None;
      lastErrMethodNames := None;
      className := None;
      methodName := None;
      result := None;
    }

    /** Dispatches on the current state, as the `switch` of the SAX callback does. */
    method StartElement(name: string, classAttr: Option<string>, nameAttr: Option<string>)
      requires Valid()
      modifies this
      ensures Valid() && Model() == StartStep(old(Model()), name, classAttr, nameAttr)
    {
      if state == STATE_PROPERTIES {
        StartInProperties(name, classAttr, nameAttr);
      } else if state == STATE_TESTSUITE {
        StartInTestSuite(name, classAttr, nameAttr);
      } else if state == STATE_TESTCASE {
        StartInTestCase(name, classAttr, nameAttr);
      } else if state == STATE_OUT_OF_SCOPE {
        StartOutOfScope(name, classAttr, nameAttr);
      } else if state == STATE_PROPERTY || state == STATE_FAILURE || state == STATE_ERROR
             || state == STATE_OUTPUT_STD || state == STATE_OUTPUT_ERR {
        assert Child(Model().pos.phase, name).None?;
        StartUnknownElem();
      } else {
        unknownElemNestLevel := unknownElemNestLevel + 1;
      }
    }

    method StartInProperties(name: string, classAttr: Option<string>, nameAttr: Option<string>)
      requires Valid() && state == STATE_PROPERTIES
      modifies this
      ensures Valid() && Model() == StartStep(old(Model()), name, classAttr, nameAttr)
    {
      if name == "property" {
        state := STATE_PROPERTY;
      } else {
        StartUnknownElem();
      }
    }

    method StartInTestSuite(name: string, classAttr: Option<string>, nameAttr: Option<string>)
      requires Valid() && state == STATE_TESTSUITE
      modifies this
      ensures Valid() && Model() == StartStep(old(Model()), name, classAttr, nameAttr)
    {
      if name == "testcase" {
        className := classAttr;
        methodName := nameAttr;
        state := STATE_TESTCASE;
      } else if name == "system-out" {
        state := STATE_OUTPUT_STD;
      } else if name == "system-err" {
        state := STATE_OUTPUT_ERR;
      } else if name == "properties" {
        state := STATE_PROPERTIES;
      } else {
        StartUnknownElem();
      }
    }

    method StartInTestCase(name: string, classAttr: Option<string>, nameAttr: Option<string>)
      requires Valid() && state == STATE_TESTCASE
      modifies this
      ensures Valid() && Model() == StartStep(old(Model()), name, classAttr, nameAttr)
    {
      if name == "failure" {
        state := STATE_FAILURE;
      } else if name == "error" {
        state := STATE_ERROR;
      } else {
        StartUnknownElem();
      }
      if state >= 0 {  // the element is a failure or an error
        RecordLastErr();
      }
    }

    method StartOutOfScope(name: string, classAttr: Option<string>, nameAttr: Option<string>)
      requires Valid() && state == STATE_OUT_OF_SCOPE
      modifies this
      ensures Valid() && Model() == StartStep(old(Model()), name, classAttr, nameAttr)
    {
      if name == "testsuite" {
        state := STATE_TESTSUITE;
      } else {
        StartUnknownElem();
      }
    }

    /**
     * The recording part of a failure or error start: joins the current
     * testcase to the pending group, or flushes that group and starts anew.
     */
    method RecordLastErr()
      requires Valid()
      modifies this
      ensures Valid() && Model() == RecordFailure(old(Model()))
    {
      if className.Some? && methodName.Some? {
        if className == lastErrClassName {
          lastErrMethodNames := Some(lastErrMethodNames.value + [methodName.value]);
        } else {
          MaybeSaveLastErrJUnitTest();
        }
        lastErrClassName := className;
        if lastErrMethodNames.None? {
          lastErrMethodNames := Some([]);
        }
        lastErrMethodNames := Some(lastErrMethodNames.value + [methodName.value]);
      }
    }

    method EndElement()
      requires Valid()
      modifies this
      ensures Valid() && Model() == EndStep(old(Model()))
    {
      if state == STATE_PROPERTIES {
        state := STATE_TESTSUITE;
      } else if state == STATE_TESTSUITE {
        MaybeSaveLastErrJUnitTest();
        state := STATE_OUT_OF_SCOPE;
      } else if state == STATE_TESTCASE {
        state := STATE_TESTSUITE;
      } else if state == STATE_OUT_OF_SCOPE {
      } else if state == STATE_PROPERTY {
        state := STATE_PROPERTIES;
      } else if state == STATE_FAILURE || state == STATE_ERROR {
        state := STATE_TESTCASE;
      } else if state == STATE_OUTPUT_STD || state == STATE_OUTPUT_ERR {
        state := STATE_TESTSUITE;
      } else {
        unknownElemNestLevel := unknownElemNestLevel - 1;
        if unknownElemNestLevel == 0 {
          state := -state;
        }
      }
    }

    /** Enters an unrecognised element from a recognised position. */
    method StartUnknownElem()
      requires Valid() && state > 0
      modifies this
      ensures Valid() && Model() == old(Model()).(pos := Skipping(old(Model()).pos.phase, 1))
    {
      state := -state;
      unknownElemNestLevel := unknownElemNestLevel + 1;
    }

    /** Appends the pending group, formatted, to the result and clears it. */
    method MaybeSaveLastErrJUnitTest()
      requires Valid()
      modifies this
      ensures Valid() && Model() == Flush(old(Model()))
    {
      if lastErrClassName.None? {
        return;
      }
      var cls := lastErrClassName.value;
      var names := lastErrMethodNames.value;
      var buf := cls + ":";
      buf := buf + names[0];
      var methodsCount := |names|;
      assert names[..1] == [names[0]];
      if methodsCount > 1 {
        for i := 1 to methodsCount
          invariant buf == Format(cls, names[..i])
          invariant unchanged(this)
        {
          JoinSnoc(names[..i], names[i]);
          assert names[..i + 1] == names[..i] + [names[i]];
          buf := buf + "," + names[i];
        }
      }
      assert names[..methodsCount] == names;
      if result.None? {
        result := Some([]);
      }
      result := Some(result.value + [buf]);
      lastErrClassName := None;
      lastErrMethodNames := Some([]);
    }
  }

  /**
   * Feeds a report's events to a fresh handler and returns what it collected,
   * or the empty list when it never created its result list.
   */
  method ParseResultsFile(events: seq<Event>) returns (r: seq<string>)
    ensures r == Results(Run(Initial, events))
  {
    var parser := new XMLResultParser();
    var i := 0;
    while i < |events|
      invariant 0 <= i <= |events|
      invariant parser.Valid() && parser.Model() == Run(Initial, events[..i])
    {
      RunSnoc(Initial, events[..i], events[i]);
      assert events[..i + 1] == events[..i] + [events[i]];
      match events[i] {
        case Start(name, c, n) => parser.StartElement(name, c, n);
        case End => parser.EndElement();
      }
      i := i + 1;
    }
    assert events[..i] == events;
    r := if parser.result != None then parser.result.value else [];
  }
}
