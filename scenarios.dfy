/** The worked examples of the parser's behaviour, stated as lemmas on concrete documents. */
module Scenarios {
  import opened Options
  import opened GroupFormat
  import opened ReportMachine
  import opened ReportTree

  function Leaf(name: string): Element
  {
    Element(name, None, None, [])
  }

  function TestCaseOf(cls: string, test: string, children: seq<Element>): Element
  {
    Element("testcase", Some(cls), Some(test), children)
  }

  function Suite(children: seq<Element>): Element
  {
    Element("testsuite", None, None, children)
  }

  /** A valid parser inside the suite whose pending group and result are as given. */
  predicate InSuite(m: Parser, pending: Option<(string, seq<string>)>, result: Option<seq<string>>)
  {
    Valid(m) && m.pos == At(TestSuite) && m.result == result &&
    match pending
    case None => m.lastErrClassName.None?
    case Some(g) => m.lastErrClassName == Some(g.0) && m.lastErrMethodNames == Some(g.1)
  }

  /** The list for a suite: its body run from just inside the suite, then the suite's end. */
  lemma SuiteDocument(cs: seq<Element>)
    ensures ParseDocument(Suite(cs)) == Results(EndStep(Run(Initial.(pos := At(TestSuite)), FlattenAll(cs))))
  {
    RunElement(Initial, Suite(cs));
  }

  /** The suite's end, with one pending group and no earlier records, yields that group's record alone. */
  lemma CloseSuite(m: Parser, cls: string, names: seq<string>, earlier: seq<string>)
    requires InSuite(m, Some((cls, names)), if earlier == [] then None else Some(earlier))
    ensures Results(EndStep(m)) == earlier + [Format(cls, names)]
  {
    EndReturnsToParent(m, OutOfScope, "testsuite");
  }

  /** `<testsuite></testsuite>` yields the empty list. */
  lemma EmptySuite()
    ensures ParseDocument(Suite([])) == []
  {
    NoFailuresYieldsNothing(Suite([]));
  }

  /** One failing testcase yields one record holding its method. */
  lemma SingleFailure()
    ensures ParseDocument(Suite([TestCaseOf("a.B", "t1", [Leaf("failure")])])) == ["a.B:t1"]
  {
    var cs := [TestCaseOf("a.B", "t1", [Leaf("failure")])];
    SuiteDocument(cs);
    SingleFailureBody(Initial.(pos := At(TestSuite)), cs);
  }

  lemma SingleFailureBody(m: Parser, cs: seq<Element>)
    requires InSuite(m, None, None) && cs == [TestCaseOf("a.B", "t1", [Leaf("failure")])]
    ensures Results(EndStep(Run(m, FlattenAll(cs)))) == ["a.B:t1"]
  {
    RunForest(m, cs);
    assert cs[1..] == [];
    FailingTestCase(m, cs[0]);
    CloseSuite(Run(m, Flatten(cs[0])), "a.B", ["t1"], []);
    assert Format("a.B", ["t1"]) == "a.B:t1";
  }

  /** Two failing testcases of one class then one of another: the second method appears twice. */
  lemma SameClassRunDuplicatesLaterMethods()
    ensures ParseDocument(Suite([TestCaseOf("a.B", "t1", [Leaf("failure")]),
                                 TestCaseOf("a.B", "t2", [Leaf("error")]),
                                 TestCaseOf("e.F", "t4", [Leaf("failure")])]))
         == ["a.B:t1,t2,t2", "e.F:t4"]
  {
    var cs := [TestCaseOf("a.B", "t1", [Leaf("failure")]),
               TestCaseOf("a.B", "t2", [Leaf("error")]),
               TestCaseOf("e.F", "t4", [Leaf("failure")])];
    SuiteDocument(cs);
    SameClassRunBody(Initial.(pos := At(TestSuite)), cs);
  }

  lemma SameClassRunBody(m: Parser, cs: seq<Element>)
    requires InSuite(m, None, None)
    requires cs == [TestCaseOf("a.B", "t1", [Leaf("failure")]),
                    TestCaseOf("a.B", "t2", [Leaf("error")]),
                    TestCaseOf("e.F", "t4", [Leaf("failure")])]
    ensures Results(EndStep(Run(m, FlattenAll(cs)))) == ["a.B:t1,t2,t2", "e.F:t4"]
  {
    RunForest(m, cs);
    FirstOfClass(m, cs[0]);
    var m1 := Run(m, Flatten(cs[0]));
    RunForest(m1, cs[1..]);
    SecondOfClass(m1, cs[1]);
    var m2 := Run(m1, Flatten(cs[1]));
    assert cs[1..][1..] == [cs[2]] && [cs[2]][1..] == [];
    RunForest(m2, [cs[2]]);
    OtherClass(m2, cs[2]);
    var m3 := Run(m2, Flatten(cs[2]));
    CloseSuite(m3, "e.F", ["t4"], ["a.B:t1,t2,t2"]);
    assert Format("e.F", ["t4"]) == "e.F:t4";
  }

  lemma FirstOfClass(m: Parser, e: Element)
    requires InSuite(m, None, None) && e == TestCaseOf("a.B", "t1", [Leaf("failure")])
    ensures InSuite(Run(m, Flatten(e)), Some(("a.B", ["t1"])), None)
  {
    FailingTestCase(m, e);
  }

  lemma SecondOfClass(m: Parser, e: Element)
    requires InSuite(m, Some(("a.B", ["t1"])), None) && e == TestCaseOf("a.B", "t2", [Leaf("error")])
    ensures InSuite(Run(m, Flatten(e)), Some(("a.B", ["t1", "t2", "t2"])), None)
  {
    FailingTestCase(m, e);
    assert ["t1"] + ["t2", "t2"] == ["t1", "t2", "t2"];
  }

  lemma OtherClass(m: Parser, e: Element)
    requires InSuite(m, Some(("a.B", ["t1", "t2", "t2"])), None) && e == TestCaseOf("e.F", "t4", [Leaf("failure")])
    ensures InSuite(Run(m, Flatten(e)), Some(("e.F", ["t4"])), Some(["a.B:t1,t2,t2"]))
  {
    FailingTestCase(m, e);
    assert m.lastErrClassName != e.classAttr;
    var line := Format("a.B", ["t1", "t2", "t2"]);
    assert Flush(m).result == Some([] + [line]);
    assert line == "a.B:t1,t2,t2";
    assert [] + [line] == ["a.B:t1,t2,t2"];
  }

  /** An unrecognised subtree before a failing testcase is ignored. */
  lemma UnknownSubtreeSkipped()
    ensures ParseDocument(Suite([Element("retries", None, None, [Leaf("attempt")]),
                                 TestCaseOf("c.D", "t1", [Leaf("failure")])]))
         == ["c.D:t1"]
  {
    var cs := [Element("retries", None, None, [Leaf("attempt")]),
               TestCaseOf("c.D", "t1", [Leaf("failure")])];
    SuiteDocument(cs);
    UnknownSubtreeBody(Initial.(pos := At(TestSuite)), cs);
  }

  lemma UnknownSubtreeBody(m: Parser, cs: seq<Element>)
    requires InSuite(m, None, None)
    requires cs == [Element("retries", None, None, [Leaf("attempt")]),
                    TestCaseOf("c.D", "t1", [Leaf("failure")])]
    ensures Results(EndStep(Run(m, FlattenAll(cs)))) == ["c.D:t1"]
  {
    RunForest(m, cs);
    UnknownElementIgnored(m, cs[0]);
    RunForest(m, cs[1..]);
    assert cs[1..][1..] == [];
    FailingTestCase(m, cs[1]);
    CloseSuite(Run(m, Flatten(cs[1])), "c.D", ["t1"], []);
    assert Format("c.D", ["t1"]) == "c.D:t1";
  }

  /** A passing testcase neither starts nor extends a group. */
  lemma PassingTestCaseContributesNothing()
    ensures ParseDocument(Suite([TestCaseOf("x.Y", "t1", []),
                                 TestCaseOf("x.Y", "t2", [Leaf("failure")])]))
         == ["x.Y:t2"]
  {
    var cs := [TestCaseOf("x.Y", "t1", []), TestCaseOf("x.Y", "t2", [Leaf("failure")])];
    SuiteDocument(cs);
    PassingThenFailingBody(Initial.(pos := At(TestSuite)), cs);
  }

  lemma PassingThenFailingBody(m: Parser, cs: seq<Element>)
    requires InSuite(m, None, None)
    requires cs == [TestCaseOf("x.Y", "t1", []), TestCaseOf("x.Y", "t2", [Leaf("failure")])]
    ensures Results(EndStep(Run(m, FlattenAll(cs)))) == ["x.Y:t2"]
  {
    RunForest(m, cs);
    PassingTestCase(m, cs[0]);
    var m1 := Run(m, Flatten(cs[0]));
    RunForest(m1, cs[1..]);
    assert cs[1..][1..] == [];
    FailingTestCase(m1, cs[1]);
    CloseSuite(Run(m1, Flatten(cs[1])), "x.Y", ["t2"], []);
    assert Format("x.Y", ["t2"]) == "x.Y:t2";
  }
}
