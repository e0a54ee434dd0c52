# JUnit XML result parser: a verified model

This project models `XMLResultParser`, a NetBeans class (written by Marian
Petras, originally developed by Sun Microsystems) that is placed in Ant's
`org.apache.tools.ant.taskdefs.optional.junit` package. The parser is a SAX content handler that reads the XML
report written by the JUnit XML formatter. From it the parser builds an ordered
list of failure records, `className:m1,m2,...`. Each record covers one run of
consecutive failing or erroring testcases of the same class
(`SuiteGroups.ParseDocumentGroups`).

The handler is a state machine driven by element-start and element-end
callbacks. Its position is one signed integer, `state`. The value is one of
nine constants. It is the negation of a constant while the handler skips an
unrecognised subtree, and `unknownElemNestLevel` then counts how deeply it is
nested. The handler also holds a pending group (`lastErrClassName` and
`lastErrMethodNames`), the current testcase's `className` and `methodName`, and
the `result` list.

Files and modules:

- `options.dfy`, module `Options`: `Option`, which stands for a Java reference
  that may be null.
- `group_format.dfy`, module `GroupFormat`: the record text (`Join`, `Format`)
  and its inverse reading (`Split`, `ParseRecord`). It proves the round trip.
- `report_machine.dfy`, module `ReportMachine`: the state machine on values.
  - A `Parser` record mirrors the handler's fields.
  - The position is `At(phase)` or `Skipping(resume, depth)`.
  - `StartStep`, `EndStep`, `Step` and `Run` give the effect of one callback
    and of a whole event sequence. `Flush` is `maybeSaveLastErrJUnitTest`.
  - It holds the per-step lemmas.
- `xml_result_parser.dfy`, module `XmlResultParser`: the handler as a class.
  - Its fields are those of the Java object, and `state` keeps the signed
    integer encoding.
  - Every method is proved to act on the fields as the matching step function
    acts on a `Parser`.
  - `EncodingRoundTrip` ties the integer encoding to `Position`.
  - The `switch` of `startElement` is split into one method per case
    (`StartInProperties`, `StartInTestSuite`, `StartInTestCase`,
    `StartOutOfScope`). `StartElement` dispatches on `state` as the switch does.
  - `RecordLastErr` is the recording block of the testcase case.
  - `ParseResultsFile` feeds an event sequence to a fresh handler and applies
    the empty-list fallback.
- `report_tree.dfy`, module `ReportTree`: documents as element trees, flattened
  into the event sequence a streaming reader reports. It proves what a complete
  subtree does to the parser.
- `grouping.dfy`, module `Grouping`: a reference for the reported list, stated
  on the failing testcases alone. `Runs` cuts them into maximal runs of one
  class, and `Groups` makes one record per run.
- `suite_groups.dfy`, module `SuiteGroups`: the whole-document result. It proves
  that what the parser reports for a test suite is `Groups` of the suite's
  failing testcases in document order.
- `scenarios.dfy`, module `Scenarios`: concrete documents and their results.

The model keeps the duplicate append of the source. When a failing testcase has
the same class as the pending group, its method name is added at line 163 and
again at line 172. For example, `a.B/t1` failure, `a.B/t2` error, `e.F/t4`
failure gives `["a.B:t1,t2,t2", "e.F:t4"]`
(`Scenarios.SameClassRunDuplicatesLaterMethods`). A method that starts a new
group is added once.

Two details of the Java code that the model keeps:

- Element names are compared as the qualified name (`qName`), not the local
  name.
- A flush clears the method list to an empty list that is not null.

## Model

| member | source | states |
|---|---|---|
| GroupFormat.JoinSnoc | src/main/org/apache/tools/ant/taskdefs/optional/junit/XMLResultParser.java:250-254 | appending one more method name to a non-empty list extends the joined text by exactly a comma and that name, which is the step of the formatting loop |
| GroupFormat.ParseFormat | src/main/org/apache/tools/ant/taskdefs/optional/junit/XMLResultParser.java:247-255 | a record `class:m1,...,mn` splits back into exactly the class and the method names it was built from, in order, when the class has no ':' and no method name has a ',' |
| ReportMachine.Flush | src/main/org/apache/tools/ant/taskdefs/optional/junit/XMLResultParser.java:242-263 | after a flush there is no pending class, and the pending-group invariant still holds |
| ReportMachine.RecordFailure | src/main/org/apache/tools/ant/taskdefs/optional/junit/XMLResultParser.java:160-173 | recording a failure keeps the invariant: a pending class always has a non-empty method list, and with no pending class the list is null or empty |
| ReportMachine.StartStep | src/main/org/apache/tools/ant/taskdefs/optional/junit/XMLResultParser.java:125-194 | every element start keeps the parser valid: depth at least 1 while skipping, the pending-group invariant, and a result list that is non-empty once it exists |
| ReportMachine.EndStep | src/main/org/apache/tools/ant/taskdefs/optional/junit/XMLResultParser.java:198-231 | every element end keeps the parser valid |
| ReportMachine.Step | src/main/org/apache/tools/ant/taskdefs/optional/junit/XMLResultParser.java:125-231 | every callback keeps the parser valid |
| ReportMachine.Run | src/main/org/apache/tools/ant/taskdefs/optional/junit/XMLResultParser.java:125-231 | every parser reached from a valid parser by any event sequence, well-formed or not, is valid, so `get(0)` at line 249 is always defined |
| ReportMachine.ChildParent | src/main/org/apache/tools/ant/taskdefs/optional/junit/XMLResultParser.java:129-224 | the end of each recognised child returns to the state its start came from |
| ReportMachine.FlushRecord | src/main/org/apache/tools/ant/taskdefs/optional/junit/XMLResultParser.java:242-263 | with no pending class a flush changes nothing. Otherwise the result grows by exactly one record, earlier records are kept, the list is left empty and not null, position and current testcase are untouched, and the new record reads back as the pending class and methods |
| ReportMachine.JoinPending | src/main/org/apache/tools/ant/taskdefs/optional/junit/XMLResultParser.java:160-173 | recording a failure of the pending class appends its method twice, keeps the class and flushes nothing |
| ReportMachine.StartPending | src/main/org/apache/tools/ant/taskdefs/optional/junit/XMLResultParser.java:160-173 | recording a failure of any other class flushes the pending group and leaves a group holding only that method |
| ReportMachine.FailureJoinsOrStartsGroup | src/main/org/apache/tools/ant/taskdefs/optional/junit/XMLResultParser.java:152-173 | a failure or error start in a testcase with both attributes moves to FAILURE or ERROR. The same class as the pending one appends the method twice and leaves the result alone. A different class flushes and starts a group holding only that method |
| ReportMachine.UnattributedFailureRecordsNothing | src/main/org/apache/tools/ant/taskdefs/optional/junit/XMLResultParser.java:152-161 | without `classname` or `name` a failure or error start changes only the state, to FAILURE or ERROR |
| ReportMachine.SkippingMovesCounterOnly | src/main/org/apache/tools/ant/taskdefs/optional/junit/XMLResultParser.java:190-229 | while skipping, a callback changes only the position. The saved state comes back exactly when an end arrives at nesting level 1. Otherwise the saved state is kept and the level moves by one, up for a start and down for an end |
| ReportMachine.EndReturnsToParent | src/main/org/apache/tools/ant/taskdefs/optional/junit/XMLResultParser.java:201-224 | the end of an element whose start led from state q into the current state returns to q. Only the end of TESTSUITE also flushes the pending group, and nothing else changes |
| ReportMachine.StrayEndIgnored | src/main/org/apache/tools/ant/taskdefs/optional/junit/XMLResultParser.java:212-213 | an end in OUT_OF_SCOPE changes nothing |
| ReportMachine.StartEndRestoresPosition | src/main/org/apache/tools/ant/taskdefs/optional/junit/XMLResultParser.java:129-238 | any start followed at once by an end leaves state and nesting level as they were |
| ReportMachine.OnlyRecordingStepsMutate | src/main/org/apache/tools/ant/taskdefs/optional/junit/XMLResultParser.java:129-231 | only a failure or error start inside a testcase and the end of the test suite change the pending group or the result |
| ReportMachine.ResultOnlyGrows | src/main/org/apache/tools/ant/taskdefs/optional/junit/XMLResultParser.java:256-259 | over any event sequence the result only grows, and records already produced are kept unchanged at the front |
| XmlResultParser.PhaseOf | src/main/org/apache/tools/ant/taskdefs/optional/junit/XMLResultParser.java:64-80 | each of the nine state constants names one position, and that position's constant is the value read |
| XmlResultParser.EncodingRoundTrip | src/main/org/apache/tools/ant/taskdefs/optional/junit/XMLResultParser.java:64-85 | the signed state plus the nesting level encodes positions one to one. A constant with level 0 is a recognised position, and its negation with level at least 1 is skipping |
| XmlResultParser.XMLResultParser.constructor | src/main/org/apache/tools/ant/taskdefs/optional/junit/XMLResultParser.java:83-99 | the handler starts OUT_OF_SCOPE at level 0, with every reference null |
| XmlResultParser.XMLResultParser.StartElement | src/main/org/apache/tools/ant/taskdefs/optional/junit/XMLResultParser.java:125-194 | the handler keeps its invariants and its fields become `StartStep` of the old ones |
| XmlResultParser.XMLResultParser.StartInProperties | src/main/org/apache/tools/ant/taskdefs/optional/junit/XMLResultParser.java:130-136 | in PROPERTIES, `property` leads to PROPERTY and anything else starts skipping |
| XmlResultParser.XMLResultParser.StartInTestSuite | src/main/org/apache/tools/ant/taskdefs/optional/junit/XMLResultParser.java:137-151 | in TESTSUITE, `testcase` records both attributes and enters TESTCASE. `system-out`, `system-err` and `properties` enter their states, and anything else starts skipping |
| XmlResultParser.XMLResultParser.StartInTestCase | src/main/org/apache/tools/ant/taskdefs/optional/junit/XMLResultParser.java:152-175 | in TESTCASE, `failure` or `error` enters its state and records the testcase. Anything else starts skipping and records nothing |
| XmlResultParser.XMLResultParser.StartOutOfScope | src/main/org/apache/tools/ant/taskdefs/optional/junit/XMLResultParser.java:176-182 | outside the document, only `testsuite` is recognised |
| XmlResultParser.XMLResultParser.RecordLastErr | src/main/org/apache/tools/ant/taskdefs/optional/junit/XMLResultParser.java:160-173 | the fields become `RecordFailure` of the old ones, including the double append |
| XmlResultParser.XMLResultParser.EndElement | src/main/org/apache/tools/ant/taskdefs/optional/junit/XMLResultParser.java:198-231 | the handler keeps its invariants and its fields become `EndStep` of the old ones |
| XmlResultParser.XMLResultParser.StartUnknownElem | src/main/org/apache/tools/ant/taskdefs/optional/junit/XMLResultParser.java:235-238 | from a recognised state, negates the state and sets the nesting level to 1, so the position becomes skipping with that state saved |
| XmlResultParser.XMLResultParser.MaybeSaveLastErrJUnitTest | src/main/org/apache/tools/ant/taskdefs/optional/junit/XMLResultParser.java:242-263 | the loop builds exactly `Format(class, methods)`, and the fields become `Flush` of the old ones |
| XmlResultParser.ParseResultsFile | src/main/org/apache/tools/ant/taskdefs/optional/junit/XMLResultParser.java:110-115 | the list returned for an event sequence is the result of `Run` from the initial parser, or the empty list when no result list was created |
| ReportTree.SkipElement | src/main/org/apache/tools/ant/taskdefs/optional/junit/XMLResultParser.java:190-229 | a complete subtree read while skipping leaves the parser exactly as it was |
| ReportTree.UnknownElementIgnored | src/main/org/apache/tools/ant/taskdefs/optional/junit/XMLResultParser.java:186-238 | a complete subtree rooted at an unrecognised element restores the state and nesting level 0. It leaves the pending group, the current testcase and the result untouched |
| ReportTree.LeafContentIgnored | src/main/org/apache/tools/ant/taskdefs/optional/junit/XMLResultParser.java:183-189 | whatever is nested in `property`, `failure`, `error`, `system-out` or `system-err` is skipped with no effect |
| ReportTree.PositionRestored | src/main/org/apache/tools/ant/taskdefs/optional/junit/XMLResultParser.java:125-238 | every complete element subtree, from any valid parser, leaves the position where it found it |
| ReportTree.SuiteMetadataIgnored | src/main/org/apache/tools/ant/taskdefs/optional/junit/XMLResultParser.java:130-147 | `properties`, `system-out` and `system-err` subtrees of the suite leave the parser unchanged, whatever they contain |
| ReportTree.PropertiesIgnored | src/main/org/apache/tools/ant/taskdefs/optional/junit/XMLResultParser.java:130-136 | a `properties` subtree with any mix of `property` and other children leaves the parser unchanged |
| ReportTree.CapturedOutputIgnored | src/main/org/apache/tools/ant/taskdefs/optional/junit/XMLResultParser.java:142-145 | a `system-out` or `system-err` subtree leaves the parser unchanged |
| ReportTree.PassingTestCase | src/main/org/apache/tools/ant/taskdefs/optional/junit/XMLResultParser.java:137-160 | a testcase with no `failure` or `error` child only replaces the current class and method names |
| ReportTree.UnattributedTestCase | src/main/org/apache/tools/ant/taskdefs/optional/junit/XMLResultParser.java:139-161 | a testcase without `classname` or `name` contributes nothing to any group or to the result, whatever its children |
| ReportTree.FailingTestCase | src/main/org/apache/tools/ant/taskdefs/optional/junit/XMLResultParser.java:137-173 | a complete testcase with both attributes and one failure or error child joins the pending group, appending the method twice, or flushes it and starts a one-method group |
| ReportTree.ForeignRootYieldsNothing | src/main/org/apache/tools/ant/taskdefs/optional/junit/XMLResultParser.java:176-182 | a document whose root is not `testsuite` yields the empty list |
| ReportTree.NoFailuresYieldsNothing | src/main/org/apache/tools/ant/taskdefs/optional/junit/XMLResultParser.java:110-115 | a test suite in which no testcase has a failure or error child yields the empty list, not null |
| Grouping.RunsCover | src/main/org/apache/tools/ant/taskdefs/optional/junit/XMLResultParser.java:160-173 | read back in order, the maximal same-class runs give exactly the failures they were cut from |
| Grouping.RunsMaximal | src/main/org/apache/tools/ant/taskdefs/optional/junit/XMLResultParser.java:162-168 | no run is empty, and neighbouring runs have different classes, since a failure of the pending class always joins its group |
| Grouping.RecordedSnoc | src/main/org/apache/tools/ant/taskdefs/optional/junit/XMLResultParser.java:162-172 | a further method of a run's class adds that name twice to the run's recorded names |
| SuiteGroups.RecordTracks | src/main/org/apache/tools/ant/taskdefs/optional/junit/XMLResultParser.java:160-173 | recording one more failure keeps the parser in step with the runs of all failures so far: every run but the last is in the result, and the last is the pending group |
| SuiteGroups.SameRunTracks | src/main/org/apache/tools/ant/taskdefs/optional/junit/XMLResultParser.java:162-172 | a failure of the pending class extends the last run, with its method written a second time |
| SuiteGroups.NewRunTracks | src/main/org/apache/tools/ant/taskdefs/optional/junit/XMLResultParser.java:164-172 | a failure of another class closes the last run into the result and starts a run holding only that method |
| SuiteGroups.ReplayTracks | src/main/org/apache/tools/ant/taskdefs/optional/junit/XMLResultParser.java:160-173 | recording any further sequence of failures keeps the parser in step with the runs of all of them |
| SuiteGroups.TestCaseBodyReplay | src/main/org/apache/tools/ant/taskdefs/optional/junit/XMLResultParser.java:152-175 | the children of a testcase with both attributes record the testcase once per `failure` or `error` child, and nothing else |
| SuiteGroups.ChildReplay | src/main/org/apache/tools/ant/taskdefs/optional/junit/XMLResultParser.java:137-151 | each child of the suite records exactly its own failures and returns to TESTSUITE |
| SuiteGroups.SuiteBodyReplay | src/main/org/apache/tools/ant/taskdefs/optional/junit/XMLResultParser.java:137-175 | the children of the suite record the failures of their attributed testcases, in document order |
| SuiteGroups.CloseTracks | src/main/org/apache/tools/ant/taskdefs/optional/junit/XMLResultParser.java:205-208 | the suite's end flushes the last run, so the result holds one record per run |
| SuiteGroups.ParseDocumentGroups | src/main/org/apache/tools/ant/taskdefs/optional/junit/XMLResultParser.java:110-263 | a `testsuite` document yields `Groups` of its failing testcases in document order, and any other root yields the empty list |
| SuiteGroups.OneRecordPerRun | src/main/org/apache/tools/ant/taskdefs/optional/junit/XMLResultParser.java:242-263 | a suite yields exactly as many records as its failures have maximal same-class runs |
| Scenarios.EmptySuite | src/main/org/apache/tools/ant/taskdefs/optional/junit/XMLResultParser.java:113-114 | `<testsuite></testsuite>` yields `[]` |
| Scenarios.SingleFailure | src/main/org/apache/tools/ant/taskdefs/optional/junit/XMLResultParser.java:152-173 | one failing testcase `a.B`/`t1` yields `["a.B:t1"]` |
| Scenarios.SameClassRunDuplicatesLaterMethods | src/main/org/apache/tools/ant/taskdefs/optional/junit/XMLResultParser.java:162-172 | `a.B/t1` failure, `a.B/t2` error, `e.F/t4` failure yields `["a.B:t1,t2,t2", "e.F:t4"]` |
| Scenarios.UnknownSubtreeSkipped | src/main/org/apache/tools/ant/taskdefs/optional/junit/XMLResultParser.java:148-149 | an unrecognised `retries` subtree before a failing `c.D`/`t1` is ignored, giving `["c.D:t1"]` |
| Scenarios.PassingTestCaseContributesNothing | src/main/org/apache/tools/ant/taskdefs/optional/junit/XMLResultParser.java:137-141 | a passing `x.Y`/`t1` followed by a failing `x.Y`/`t2` yields `["x.Y:t2"]` |

## Left out

- The SAX bootstrap of `parseResultsFile` and the constructor (`XMLReaderFactory`, `InputSource`, the `Reader`) is left out. It is a foreign library and I/O. The report arrives as a sequence of start and end events instead, and only the empty-list fallback at line 113 is modelled.
- `IOException` and `SAXException` propagation is left out. These are external failures, and this code keeps no partial result for them.
- XML well-formedness and tag matching are left out. The handler trusts its event source and ignores the names on end events. The model accepts any event sequence.
- The `uri` and `localName` callback arguments are left out, because the handler never reads them.
- Character data is left out, because `characters()` is not overridden.
- Capacity hints (`ArrayList(5)`, `ArrayList(10)`, `StringBuffer(20)`) are left out. They have no effect on behaviour.
- Aliasing of the two Java lists is left out. Both are private and mutated only through their own fields, so each is modelled as a sequence value that the methods reassign.
- `unknownElemNestLevel` is a Java `int` (line 85) that would wrap after 2^31-1 nested unrecognised elements. The model keeps the nesting depth as an unbounded `nat` (`Position.Skipping`), since no report nests that deeply.
