/**
 * Whole documents. An `Element` tree is flattened into the start and end
 * events a streaming XML reader reports for it, and the lemmas here say what
 * running the state machine over a complete subtree does: the position is
 * always restored, unrecognised, `properties` and `system-out`/`system-err`
 * subtrees leave everything untouched, and testcases contribute only through
 * their `failure`/`error` children.
 */
module ReportTree {
  import opened Options
  import opened ReportMachine

  datatype Element = Element(name: string, classAttr: Option<string>, nameAttr: Option<string>, children: seq<Element>)

  function Flatten(e: Element): seq<Event>
    decreases e, 1
  {
    [Start(e.name, e.classAttr, e.nameAttr)] + FlattenAll(e.children) + [End]
  }

  function FlattenAll(es: seq<Element>): seq<Event>
    decreases es, 0
  {
    if |es| == 0 then [] else Flatten(es[0]) + FlattenAll(es[1..])
  }

  /** The list returned for a document whose root element is `root`. */
  function ParseDocument(root: Element): seq<string>
  {
    Results(Run(Initial, Flatten(root)))
  }

  function Open(m: Parser, e: Element): Parser
    requires Valid(m)
  {
    StartStep(m, e.name, e.classAttr, e.nameAttr)
  }

  /** Running over an element: its start, then its children, then its end. */
  lemma RunElement(m: Parser, e: Element)
    requires Valid(m)
    ensures Run(m, Flatten(e)) == EndStep(Run(Open(m, e), FlattenAll(e.children)))
  {
    var s := [Start(e.name, e.classAttr, e.nameAttr)];
    RunAppend(m, s + FlattenAll(e.children), [End]);
    RunAppend(m, s, FlattenAll(e.children));
  }

  lemma RunForest(m: Parser, es: seq<Element>)
    requires Valid(m) && |es| > 0
    ensures Run(m, FlattenAll(es)) == Run(Run(m, Flatten(es[0])), FlattenAll(es[1..]))
  {
    RunAppend(m, Flatten(es[0]), FlattenAll(es[1..]));
  }

  /** Whatever subtree is read while skipping, the parser is unchanged afterwards. */
  lemma {:induction false} SkipElement(m: Parser, e: Element)
    requires Valid(m) && m.pos.Skipping?
    ensures Run(m, Flatten(e)) == m
    decreases e, 1
  {
    RunElement(m, e);
    SkipForest(Open(m, e), e.children);
  }

  lemma {:induction false} SkipForest(m: Parser, es: seq<Element>)
    requires Valid(m) && m.pos.Skipping?
    ensures Run(m, FlattenAll(es)) == m
    decreases es, 0
  {
    if |es| > 0 {
      RunForest(m, es);
      SkipElement(m, es[0]);
      SkipForest(m, es[1..]);
    }
  }

  /**
   * A subtree rooted at an element not recognised where it starts is skipped
   * whole: the position is restored, the nesting level returns to 0, and the
   * current testcase, the pending group and the result are untouched.
   */
  lemma UnknownElementIgnored(m: Parser, e: Element)
    requires Valid(m) && m.pos.At? && Child(m.pos.phase, e.name).None?
    ensures Run(m, Flatten(e)) == m
  {
    RunElement(m, e);
    SkipForest(Open(m, e), e.children);
  }

  lemma {:induction false} UnknownForestIgnored(m: Parser, es: seq<Element>)
    requires Valid(m) && m.pos.At?
    requires forall i :: 0 <= i < |es| ==> Child(m.pos.phase, es[i].name).None?
    ensures Run(m, FlattenAll(es)) == m
    decreases es
  {
    if |es| > 0 {
      RunForest(m, es);
      UnknownElementIgnored(m, es[0]);
      UnknownForestIgnored(m, es[1..]);
    }
  }

  /** Inside a `property`, `failure`, `error`, `system-out` or `system-err` every child is skipped. */
  lemma LeafContentIgnored(m: Parser, es: seq<Element>)
    requires Valid(m) && m.pos.At? && m.pos.phase in {Property, Failure, Error, OutputStd, OutputErr}
    ensures Run(m, FlattenAll(es)) == m
  {
    UnknownForestIgnored(m, es);
  }

  /** Every element, complete with its subtree, leaves the position where it found it. */
  lemma {:induction false} PositionRestored(m: Parser, e: Element)
    requires Valid(m)
    ensures Run(m, Flatten(e)).pos == m.pos
    decreases e, 1
  {
    RunElement(m, e);
    var m1 := Open(m, e);
    ForestPositionRestored(m1, e.children);
    var m2 := Run(m1, FlattenAll(e.children));
    StartEndRestoresPosition(m, e.name, e.classAttr, e.nameAttr);
    assert EndStep(m2).pos == EndStep(m1).pos by {
      assert m2.pos == m1.pos;
    }
  }

  lemma {:induction false} ForestPositionRestored(m: Parser, es: seq<Element>)
    requires Valid(m)
    ensures Run(m, FlattenAll(es)).pos == m.pos
    decreases es, 0
  {
    if |es| > 0 {
      RunForest(m, es);
      PositionRestored(m, es[0]);
      ForestPositionRestored(Run(m, Flatten(es[0])), es[1..]);
    }
  }

  lemma {:induction false} PropertyListIgnored(m: Parser, es: seq<Element>)
    requires Valid(m) && m.pos == At(Properties)
    ensures Run(m, FlattenAll(es)) == m
    decreases es
  {
    if |es| > 0 {
      RunForest(m, es);
      var e := es[0];
      if e.name == "property" {
        RunElement(m, e);
        LeafContentIgnored(Open(m, e), e.children);
      } else {
        UnknownElementIgnored(m, e);
      }
      PropertyListIgnored(m, es[1..]);
    }
  }

  /** `properties`, `system-out` and `system-err` subtrees never contribute, whatever they hold. */
  lemma SuiteMetadataIgnored(m: Parser, e: Element)
    requires Valid(m) && m.pos == At(TestSuite)
    requires e.name in {"properties", "system-out", "system-err"}
    ensures Run(m, Flatten(e)) == m
  {
    if e.name == "properties" {
      PropertiesIgnored(m, e);
    } else {
      CapturedOutputIgnored(m, e);
    }
  }

  lemma PropertiesIgnored(m: Parser, e: Element)
    requires Valid(m) && m.pos == At(TestSuite) && e.name == "properties"
    ensures Run(m, Flatten(e)) == m
  {
    RunElement(m, e);
    PropertyListIgnored(Open(m, e), e.children);
  }

  lemma CapturedOutputIgnored(m: Parser, e: Element)
    requires Valid(m) && m.pos == At(TestSuite) && e.name in {"system-out", "system-err"}
    ensures Run(m, Flatten(e)) == m
  {
    RunElement(m, e);
    LeafContentIgnored(Open(m, e), e.children);
  }

  /** A testcase without `failure` or `error` children only replaces the current testcase's names. */
  lemma PassingTestCase(m: Parser, e: Element)
    requires Valid(m) && m.pos == At(TestSuite) && e.name == "testcase"
    requires forall i :: 0 <= i < |e.children| ==> e.children[i].name !in {"failure", "error"}
    ensures Run(m, Flatten(e)) == m.(className := e.classAttr, methodName := e.nameAttr)
  {
    RunElement(m, e);
    UnknownForestIgnored(Open(m, e), e.children);
  }

  lemma {:induction false} UnattributedChildren(m: Parser, es: seq<Element>)
    requires Valid(m) && m.pos == At(TestCase)
    requires m.className.None? || m.methodName.None?
    ensures Run(m, FlattenAll(es)) == m
    decreases es
  {
    if |es| > 0 {
      RunForest(m, es);
      UnattributedChild(m, es[0]);
      UnattributedChildren(m, es[1..]);
    }
  }

  lemma UnattributedChild(m: Parser, e: Element)
    requires Valid(m) && m.pos == At(TestCase)
    requires m.className.None? || m.methodName.None?
    ensures Run(m, Flatten(e)) == m
  {
    if e.name in {"failure", "error"} {
      RunElement(m, e);
      UnattributedFailureRecordsNothing(m, e.name, e.classAttr, e.nameAttr);
      LeafContentIgnored(Open(m, e), e.children);
    } else {
      UnknownElementIgnored(m, e);
    }
  }

  /** A testcase missing its `classname` or `name` contributes nothing to any group. */
  lemma UnattributedTestCase(m: Parser, e: Element)
    requires Valid(m) && m.pos == At(TestSuite) && e.name == "testcase"
    requires e.classAttr.None? || e.nameAttr.None?
    ensures Run(m, Flatten(e)) == m.(className := e.classAttr, methodName := e.nameAttr)
  {
    RunElement(m, e);
    UnattributedChildren(Open(m, e), e.children);
  }

  /**
   * A testcase of class `c`, method `k`, holding one failure or error: if `c`
   * is the pending class, `k` is appended twice; otherwise the pending group is
   * flushed and a group holding just `k` begins.
   */
  lemma FailingTestCase(m: Parser, e: Element)
    requires Valid(m) && m.pos == At(TestSuite) && e.name == "testcase"
    requires e.classAttr.Some? && e.nameAttr.Some?
    requires |e.children| == 1 && e.children[0].name in {"failure", "error"}
    ensures var r := Run(m, Flatten(e));
      var k := e.nameAttr.value;
      r.pos == At(TestSuite) && r.lastErrClassName == e.classAttr &&
      if m.lastErrClassName == e.classAttr
      then r.lastErrMethodNames == Some(m.lastErrMethodNames.value + [k, k]) && r.result == m.result
      else r.lastErrMethodNames == Some([k]) && r.result == Flush(m).result
  {
    var m1 := Open(m, e);
    var f := e.children[0];
    RunElement(m, e);
    RunForest(m1, e.children);
    assert e.children[1..] == [];
    RunElement(m1, f);
    var m2 := Open(m1, f);
    FailureJoinsOrStartsGroup(m1, f.name, f.classAttr, f.nameAttr);
    LeafContentIgnored(m2, f.children);
  }

  /** A document whose root is not `testsuite` yields the empty list. */
  lemma ForeignRootYieldsNothing(root: Element)
    requires root.name != "testsuite"
    ensures ParseDocument(root) == []
  {
    UnknownElementIgnored(Initial, root);
  }

  /** No child of the suite is a testcase holding a failure or an error. */
  predicate NoFailures(es: seq<Element>)
  {
    forall i, j :: 0 <= i < |es| && 0 <= j < |es[i].children| && es[i].name == "testcase" ==>
      es[i].children[j].name !in {"failure", "error"}
  }

  lemma {:induction false} QuietSuiteBody(m: Parser, es: seq<Element>)
    requires Valid(m) && m.pos == At(TestSuite) && NoFailures(es)
    ensures var r := Run(m, FlattenAll(es));
      r.pos == m.pos && r.lastErrClassName == m.lastErrClassName &&
      r.lastErrMethodNames == m.lastErrMethodNames && r.result == m.result
    decreases es
  {
    if |es| > 0 {
      RunForest(m, es);
      var e := es[0];
      var m1 := Run(m, Flatten(e));
      if e.name == "testcase" {
        PassingTestCase(m, e);
      } else if e.name in {"properties", "system-out", "system-err"} {
        SuiteMetadataIgnored(m, e);
      } else {
        UnknownElementIgnored(m, e);
      }
      assert NoFailures(es[1..]) by {
        forall i, j | 0 <= i < |es[1..]| && 0 <= j < |es[1..][i].children| && es[1..][i].name == "testcase"
          ensures es[1..][i].children[j].name !in {"failure", "error"}
        {
          assert es[1..][i] == es[i + 1];
        }
      }
      QuietSuiteBody(m1, es[1..]);
    }
  }

  /** A suite in which no testcase fails or errs yields the empty list. */
  lemma NoFailuresYieldsNothing(root: Element)
    requires root.name == "testsuite" && NoFailures(root.children)
    ensures ParseDocument(root) == []
  {
    RunElement(Initial, root);
    QuietSuiteBody(Open(Initial, root), root.children);
  }
}
