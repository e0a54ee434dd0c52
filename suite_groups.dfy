/**
 * The whole-document behaviour of the parser, against the reference in
 * Grouping: the list reported for a test suite is one record per maximal run
 * of consecutive failing testcases of the same class. A testcase counts once
 * for each `failure` or `error` child it has, and only when it carries both
 * its `classname` and its `name`.
 */
module SuiteGroups {
  import opened Options
  import opened GroupFormat
  import opened Grouping
  import opened ReportMachine
  import opened ReportTree

  /** The failures a `failure` or `error` child of a testcase with class `c` and method `k` records. */
  function ChildFailures(e: Element, c: string, k: string): seq<Failure>
  {
    if e.name in {"failure", "error"} then [(c, k)] else []
  }

  /** The testcase `(c, k)` once for each `failure` or `error` element among its children. */
  function ChildrenFailures(es: seq<Element>, c: string, k: string): seq<Failure>
  {
    if |es| == 0 then [] else ChildFailures(es[0], c, k) + ChildrenFailures(es[1..], c, k)
  }

  /** The failures a child of the suite contributes. */
  function TestCaseFailures(e: Element): seq<Failure>
  {
    if e.name == "testcase" && e.classAttr.Some? && e.nameAttr.Some?
    then ChildrenFailures(e.children, e.classAttr.value, e.nameAttr.value)
    else []
  }

  /** The failing testcases of a suite body, in document order. */
  function Failing(cs: seq<Element>): seq<Failure>
  {
    if |cs| == 0 then [] else TestCaseFailures(cs[0]) + Failing(cs[1..])
  }

  /**
   * The parser has seen exactly the failures `fails`: every run but the last
   * is in the result, and the last run is the pending group.
   */
  predicate Tracks(m: Parser, fails: seq<Failure>)
  {
    var runs := Runs(fails);
    if |runs| == 0 then m.lastErrClassName.None? && Results(m) == []
    else
      m.lastErrClassName == Some(runs[|runs| - 1].0) &&
      m.lastErrMethodNames == Some(Recorded(runs[|runs| - 1].1)) &&
      Results(m) == Records(runs[..|runs| - 1])
  }

  /** The pending group and the result of two parsers agree; position and current testcase may not. */
  predicate SamePending(a: Parser, b: Parser)
  {
    a.lastErrClassName == b.lastErrClassName && a.lastErrMethodNames == b.lastErrMethodNames && a.result == b.result
  }

  /** The parser after recording each failure of `fails` in turn, each as the current testcase. */
  function Replay(m: Parser, fails: seq<Failure>): (r: Parser)
    requires Valid(m)
    ensures Valid(r) && r.pos == m.pos
    decreases |fails|
  {
    if |fails| == 0 then m
    else Replay(RecordFailure(m.(className := Some(fails[0].0), methodName := Some(fails[0].1))), fails[1..])
  }

  lemma {:induction false} ReplayAppend(m: Parser, a: seq<Failure>, b: seq<Failure>)
    requires Valid(m)
    ensures Replay(m, a + b) == Replay(Replay(m, a), b)
    decreases |a|
  {
    if |a| == 0 {
      assert a + b == b;
    } else {
      var r1 := RecordFailure(m.(className := Some(a[0].0), methodName := Some(a[0].1)));
      assert (a + b)[0] == a[0] && (a + b)[1..] == a[1..] + b;
      assert Replay(m, a + b) == Replay(r1, a[1..] + b);
      assert Replay(m, a) == Replay(r1, a[1..]);
      ReplayAppend(r1, a[1..], b);
    }
  }

  /** Replaying depends only on the pending group and the result. */
  lemma {:induction false} ReplayPending(a: Parser, b: Parser, fails: seq<Failure>)
    requires Valid(a) && Valid(b) && SamePending(a, b)
    ensures SamePending(Replay(a, fails), Replay(b, fails))
    decreases |fails|
  {
    if |fails| > 0 {
      var f := fails[0];
      ReplayPending(RecordFailure(a.(className := Some(f.0), methodName := Some(f.1))),
                    RecordFailure(b.(className := Some(f.0), methodName := Some(f.1))), fails[1..]);
    }
  }

  /** The first failure starts the first run; nothing is flushed. */
  lemma FirstRunTracks(m: Parser, fails: seq<Failure>, c: string, k: string)
    requires PendingValid(m) && Tracks(m, fails) && |Runs(fails)| == 0
    requires m.className == Some(c) && m.methodName == Some(k)
    ensures Tracks(RecordFailure(m), fails + [(c, k)])
  {
    RunsStart(fails, (c, k));
    assert Runs(fails + [(c, k)]) == [(c, [k])];
    assert [(c, [k])][..0] == [];
    assert Recorded([k]) == [k] by {
      assert [k][1..] == [];
    }
    StartPending(m, c, k);
    assert Flush(m) == m;
  }

  /** A failure of a class other than the last run's closes that run into the result and starts a new run. */
  lemma NextRunTracks(m: Parser, fails: seq<Failure>, c: string, k: string)
    requires PendingValid(m) && Tracks(m, fails)
    requires m.className == Some(c) && m.methodName == Some(k)
    requires var runs := Runs(fails); |runs| > 0 && runs[|runs| - 1].0 != c
    ensures Tracks(RecordFailure(m), fails + [(c, k)])
  {
    var runs := Runs(fails);
    var g := runs[|runs| - 1];
    var init := runs[..|runs| - 1];
    assert m.lastErrClassName == Some(g.0) && m.lastErrMethodNames == Some(Recorded(g.1));
    assert Results(m) == Records(init);
    RunsStart(fails, (c, k));
    var after := runs + [(c, [k])];
    assert after[|after| - 1] == (c, [k]) && after[..|after| - 1] == runs;
    assert Recorded([k]) == [k] by {
      assert [k][1..] == [];
    }
    StartPending(m, c, k);
    RunsMaximal(fails);
    assert |g.1| >= 1;
    assert runs == init + [g];
    RecordsSnoc(init, g);
    assert Results(Flush(m)) == Records(init) + [Format(g.0, Recorded(g.1))];
  }

  /** One more failure of a class other than the pending one flushes that group and starts a new one. */
  lemma NewRunTracks(m: Parser, fails: seq<Failure>, c: string, k: string)
    requires PendingValid(m) && Tracks(m, fails)
    requires m.className == Some(c) && m.methodName == Some(k)
    requires var runs := Runs(fails); |runs| == 0 || runs[|runs| - 1].0 != c
    ensures Tracks(RecordFailure(m), fails + [(c, k)])
  {
    if |Runs(fails)| == 0 {
      FirstRunTracks(m, fails, c, k);
    } else {
      NextRunTracks(m, fails, c, k);
    }
  }

  /** One more failure of the pending class joins its group, its method written a second time. */
  lemma SameRunTracks(m: Parser, fails: seq<Failure>, c: string, k: string)
    requires PendingValid(m) && Tracks(m, fails)
    requires m.className == Some(c) && m.methodName == Some(k)
    requires var runs := Runs(fails); |runs| > 0 && runs[|runs| - 1].0 == c
    ensures Tracks(RecordFailure(m), fails + [(c, k)])
  {
    var runs := Runs(fails);
    var g := runs[|runs| - 1];
    var init := runs[..|runs| - 1];
    RunsJoin(fails, (c, k));
    var after := init + [(c, g.1 + [k])];
    assert after[|after| - 1] == (c, g.1 + [k]) && after[..|after| - 1] == init;
    RunsMaximal(fails);
    RecordedSnoc(g.1, k);
    JoinPending(m, c, k);
  }

  /** One more failure joins the last run or starts a new one, exactly as recording does. */
  lemma RecordTracks(m: Parser, fails: seq<Failure>, c: string, k: string)
    requires PendingValid(m) && Tracks(m, fails)
    requires m.className == Some(c) && m.methodName == Some(k)
    ensures Tracks(RecordFailure(m), fails + [(c, k)])
  {
    var runs := Runs(fails);
    if |runs| > 0 && runs[|runs| - 1].0 == c {
      SameRunTracks(m, fails, c, k);
    } else {
      NewRunTracks(m, fails, c, k);
    }
  }

  /** Replaying further failures keeps the parser in step with the runs of all failures so far. */
  lemma {:induction false} ReplayTracks(m: Parser, fails: seq<Failure>, more: seq<Failure>)
    requires Valid(m) && Tracks(m, fails)
    ensures Tracks(Replay(m, more), fails + more)
    decreases |more|
  {
    if |more| == 0 {
      assert fails + more == fails;
    } else {
      var f := more[0];
      var m1 := m.(className := Some(f.0), methodName := Some(f.1));
      var r1 := RecordFailure(m1);
      RecordTracks(m1, fails, f.0, f.1);
      var fails1 := fails + [f];
      ReplayTracks(r1, fails1, more[1..]);
      assert fails1 + more[1..] == fails + more;
      assert Replay(m, more) == Replay(r1, more[1..]);
    }
  }

  /** A `failure` or `error` child records the testcase once and returns to the testcase. */
  lemma FailureChildReplay(m: Parser, e: Element, c: string, k: string)
    requires Valid(m) && m.pos == At(TestCase) && m.className == Some(c) && m.methodName == Some(k)
    requires e.name in {"failure", "error"}
    ensures Run(m, Flatten(e)) == RecordFailure(m)
  {
    RunElement(m, e);
    var q := if e.name == "failure" then Failure else Error;
    var m1 := Open(m, e);
    assert m1 == RecordFailure(m.(pos := At(q)));
    assert m1 == RecordFailure(m).(pos := At(q));
    LeafContentIgnored(m1, e.children);
    assert EndStep(m1) == m1.(pos := At(TestCase));
  }

  lemma TestCaseChildReplay(m: Parser, e: Element, c: string, k: string)
    requires Valid(m) && m.pos == At(TestCase) && m.className == Some(c) && m.methodName == Some(k)
    ensures Run(m, Flatten(e)) == Replay(m, ChildFailures(e, c, k))
  {
    if e.name in {"failure", "error"} {
      FailureChildReplay(m, e, c, k);
      assert m.(className := Some(c), methodName := Some(k)) == m;
      assert Replay(m, [(c, k)]) == Replay(RecordFailure(m), []);
    } else {
      UnknownElementIgnored(m, e);
    }
  }

  /** Reading the children of a testcase replays one failure per `failure` or `error` child. */
  lemma {:induction false} TestCaseBodyReplay(m: Parser, es: seq<Element>, c: string, k: string)
    requires Valid(m) && m.pos == At(TestCase) && m.className == Some(c) && m.methodName == Some(k)
    ensures var r := Run(m, FlattenAll(es));
      r == Replay(m, ChildrenFailures(es, c, k)) && r.className == Some(c) && r.methodName == Some(k)
    decreases es
  {
    if |es| > 0 {
      RunForest(m, es);
      TestCaseChildReplay(m, es[0], c, k);
      var now := ChildFailures(es[0], c, k);
      var m1 := Run(m, Flatten(es[0]));
      assert m1.className == Some(c) && m1.methodName == Some(k);
      TestCaseBodyReplay(m1, es[1..], c, k);
      ReplayAppend(m, now, ChildrenFailures(es[1..], c, k));
    }
  }

  /** Any child of the suite replays exactly its own failures and returns to the suite. */
  lemma ChildReplay(m: Parser, e: Element)
    requires Valid(m) && m.pos == At(TestSuite)
    ensures var r := Run(m, Flatten(e));
      r.pos == At(TestSuite) && SamePending(r, Replay(m, TestCaseFailures(e)))
  {
    if e.name == "testcase" && e.classAttr.Some? && e.nameAttr.Some? {
      RunElement(m, e);
      var m1 := Open(m, e);
      var fails := TestCaseFailures(e);
      TestCaseBodyReplay(m1, e.children, e.classAttr.value, e.nameAttr.value);
      ReplayPending(m1, m, fails);
    } else if e.name == "testcase" {
      UnattributedTestCase(m, e);
    } else if e.name in {"properties", "system-out", "system-err"} {
      SuiteMetadataIgnored(m, e);
    } else {
      UnknownElementIgnored(m, e);
    }
  }

  /** Reading the suite's children replays the failures of its attributed testcases in order. */
  lemma {:induction false} SuiteBodyReplay(m: Parser, cs: seq<Element>)
    requires Valid(m) && m.pos == At(TestSuite)
    ensures var r := Run(m, FlattenAll(cs));
      r.pos == At(TestSuite) && SamePending(r, Replay(m, Failing(cs)))
    decreases cs
  {
    if |cs| > 0 {
      RunForest(m, cs);
      ChildReplay(m, cs[0]);
      var now := TestCaseFailures(cs[0]);
      var later := Failing(cs[1..]);
      var m1 := Run(m, Flatten(cs[0]));
      SuiteBodyReplay(m1, cs[1..]);
      ReplayPending(m1, Replay(m, now), later);
      ReplayAppend(m, now, later);
    }
  }

  /** Closing the suite flushes the last run, so the result holds one record per run. */
  lemma CloseTracks(m: Parser, fails: seq<Failure>)
    requires Valid(m) && Tracks(m, fails)
    ensures Results(Flush(m)) == Groups(fails)
  {
    var runs := Runs(fails);
    RunsMaximal(fails);
    if |runs| > 0 {
      var g := runs[|runs| - 1];
      assert runs == runs[..|runs| - 1] + [g];
      assert Records(runs) == Records(runs[..|runs| - 1]) + [Format(g.0, Recorded(g.1))];
    }
  }

  /**
   * The list reported for a document: for a `testsuite` root, one record per
   * maximal run of same-class failures in document order, the first method of
   * a run once and every later one twice; for any other root, the empty list.
   */
  lemma ParseDocumentGroups(root: Element)
    ensures ParseDocument(root) == if root.name == "testsuite" then Groups(Failing(root.children)) else []
  {
    if root.name != "testsuite" {
      ForeignRootYieldsNothing(root);
    } else {
      RunElement(Initial, root);
      var m0 := Open(Initial, root);
      var fails := Failing(root.children);
      assert Runs([]) == [];
      SuiteBodyReplay(m0, root.children);
      ReplayTracks(m0, [], fails);
      assert [] + fails == fails;
      CloseTracks(Run(m0, FlattenAll(root.children)), fails);
    }
  }

  lemma {:induction false} RecordsLength(groups: seq<Group>)
    requires Maximal(groups)
    ensures |Records(groups)| == |groups|
    decreases |groups|
  {
    if |groups| > 0 {
      var init := groups[..|groups| - 1];
      assert Maximal(init) by {
        forall i | 0 < i < |init| ensures init[i - 1].0 != init[i].0 {
          assert init[i - 1] == groups[i - 1] && init[i] == groups[i];
        }
        forall i | 0 <= i < |init| ensures |init[i].1| >= 1 {
          assert init[i] == groups[i];
        }
      }
      RecordsLength(init);
    }
  }

  /** A suite yields exactly as many records as its failures have maximal same-class runs. */
  lemma OneRecordPerRun(cs: seq<Element>)
    ensures |ParseDocument(Element("testsuite", None, None, cs))| == |Runs(Failing(cs))|
  {
    ParseDocumentGroups(Element("testsuite", None, None, cs));
    RunsMaximal(Failing(cs));
    RecordsLength(Runs(Failing(cs)));
  }
}
