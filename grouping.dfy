/**
 * A reference for what the parser reports, stated on the list of failing
 * testcases alone, independently of the state machine: the failures are cut
 * into maximal runs of consecutive entries with the same class, and each run
 * becomes one record whose first method appears once and every later method
 * twice.
 */
module Grouping {
  import opened GroupFormat

  /** A failing or erroring testcase: its class name and its method name. */
  type Failure = (string, string)

  /** A run of consecutive failures of one class: the class and its method names in order. */
  type Group = (string, seq<string>)

  /** The failures cut into maximal runs of consecutive entries of the same class. */
  function Runs(fails: seq<Failure>): seq<Group>
    decreases |fails|
  {
    if |fails| == 0 then []
    else
      var earlier := Runs(fails[..|fails| - 1]);
      var f := fails[|fails| - 1];
      if |earlier| > 0 && earlier[|earlier| - 1].0 == f.0
      then earlier[..|earlier| - 1] + [(f.0, earlier[|earlier| - 1].1 + [f.1])]
      else earlier + [(f.0, [f.1])]
  }

  /** A failure of the last run's class extends that run. */
  lemma RunsJoin(fails: seq<Failure>, f: Failure)
    requires var runs := Runs(fails); |runs| > 0 && runs[|runs| - 1].0 == f.0
    ensures var runs := Runs(fails);
      Runs(fails + [f]) == runs[..|runs| - 1] + [(f.0, runs[|runs| - 1].1 + [f.1])]
  {
    assert (fails + [f])[..|fails|] == fails;
  }

  /** Any other failure starts a new run. */
  lemma RunsStart(fails: seq<Failure>, f: Failure)
    requires var runs := Runs(fails); |runs| == 0 || runs[|runs| - 1].0 != f.0
    ensures Runs(fails + [f]) == Runs(fails) + [(f.0, [f.1])]
  {
    assert (fails + [f])[..|fails|] == fails;
  }

  /** Every name written twice, in order. */
  function Twice(names: seq<string>): (r: seq<string>)
    ensures |r| == 2 * |names|
  {
    if |names| == 0 then [] else Twice(names[..|names| - 1]) + [names[|names| - 1], names[|names| - 1]]
  }

  /** The names of a run as recorded: the first once, each later one twice. */
  function Recorded(names: seq<string>): seq<string>
  {
    if |names| == 0 then [] else [names[0]] + Twice(names[1..])
  }

  /** One record per run. */
  function Records(groups: seq<Group>): seq<string>
  {
    if |groups| == 0 then []
    else
      var g := groups[|groups| - 1];
      Records(groups[..|groups| - 1]) + (if |g.1| == 0 then [] else [Format(g.0, Recorded(g.1))])
  }

  lemma RecordsSnoc(groups: seq<Group>, g: Group)
    requires |g.1| >= 1
    ensures Records(groups + [g]) == Records(groups) + [Format(g.0, Recorded(g.1))]
  {
    assert (groups + [g])[..|groups|] == groups;
  }

  /** The list reported for a suite whose failing testcases, in document order, are `fails`. */
  function Groups(fails: seq<Failure>): seq<string>
  {
    Records(Runs(fails))
  }

  /** All failures of the runs, run after run. */
  function Expand(groups: seq<Group>): seq<Failure>
  {
    if |groups| == 0 then []
    else Expand(groups[..|groups| - 1]) + Pairs(groups[|groups| - 1].0, groups[|groups| - 1].1)
  }

  /** The failures of one run. */
  function Pairs(cls: string, names: seq<string>): seq<Failure>
    decreases |names|
  {
    if |names| == 0 then [] else Pairs(cls, names[..|names| - 1]) + [(cls, names[|names| - 1])]
  }

  /** Runs are non-empty and neighbouring runs have different classes. */
  predicate Maximal(groups: seq<Group>)
  {
    (forall i :: 0 <= i < |groups| ==> |groups[i].1| >= 1) &&
    (forall i :: 0 < i < |groups| ==> groups[i - 1].0 != groups[i].0)
  }

  lemma ExpandSnoc(groups: seq<Group>, g: Group)
    ensures Expand(groups + [g]) == Expand(groups) + Pairs(g.0, g.1)
  {
    assert (groups + [g])[..|groups|] == groups;
  }

  lemma PairsSnoc(cls: string, names: seq<string>, k: string)
    ensures Pairs(cls, names + [k]) == Pairs(cls, names) + [(cls, k)]
  {
    assert (names + [k])[..|names|] == names;
  }

  /** A failure of the last run's class extends that run by one pair. */
  lemma ExpandJoin(init: seq<Group>, g: Group, f: Failure)
    requires g.0 == f.0
    ensures Expand(init + [(f.0, g.1 + [f.1])]) == Expand(init + [g]) + [f]
  {
    ExpandSnoc(init, g);
    ExpandSnoc(init, (f.0, g.1 + [f.1]));
    PairsSnoc(f.0, g.1, f.1);
  }

  /** A failure that starts a new run adds one pair at the end. */
  lemma ExpandStart(earlier: seq<Group>, f: Failure)
    ensures Expand(earlier + [(f.0, [f.1])]) == Expand(earlier) + [f]
  {
    ExpandSnoc(earlier, (f.0, [f.1]));
    PairsSnoc(f.0, [], f.1);
    assert [] + [f.1] == [f.1];
  }

  /** Read back in order, the runs give exactly the failures. */
  lemma {:induction false} RunsCover(fails: seq<Failure>)
    ensures Expand(Runs(fails)) == fails
    decreases |fails|
  {
    if |fails| > 0 {
      var front := fails[..|fails| - 1];
      var f := fails[|fails| - 1];
      var earlier := Runs(front);
      RunsCover(front);
      assert front + [f] == fails;
      if |earlier| > 0 && earlier[|earlier| - 1].0 == f.0 {
        var init := earlier[..|earlier| - 1];
        assert earlier == init + [earlier[|earlier| - 1]];
        ExpandJoin(init, earlier[|earlier| - 1], f);
      } else {
        ExpandStart(earlier, f);
      }
    }
  }

  /** Extending the last run of a maximal sequence keeps it maximal. */
  lemma MaximalJoin(init: seq<Group>, g: Group, k: string)
    requires Maximal(init + [g])
    ensures Maximal(init + [(g.0, g.1 + [k])])
  {
    var before := init + [g];
    var r := init + [(g.0, g.1 + [k])];
    forall i | 0 <= i < |r| ensures |r[i].1| >= 1 {
      if i < |init| { assert r[i] == before[i]; }
    }
    forall i | 0 < i < |r| ensures r[i - 1].0 != r[i].0 {
      assert r[i - 1] == before[i - 1];
      assert r[i].0 == before[i].0;
    }
  }

  /** A new run of a class other than the last run's keeps the sequence maximal. */
  lemma MaximalStart(earlier: seq<Group>, f: Failure)
    requires Maximal(earlier)
    requires |earlier| == 0 || earlier[|earlier| - 1].0 != f.0
    ensures Maximal(earlier + [(f.0, [f.1])])
  {
    var r := earlier + [(f.0, [f.1])];
    forall i | 0 <= i < |r| ensures |r[i].1| >= 1 {
      if i < |earlier| { assert r[i] == earlier[i]; }
    }
    forall i | 0 < i < |r| ensures r[i - 1].0 != r[i].0 {
      if i < |r| - 1 { assert r[i - 1] == earlier[i - 1] && r[i] == earlier[i]; }
    }
  }

  /** No run is empty, and neighbouring runs differ in class. */
  lemma {:induction false} RunsMaximal(fails: seq<Failure>)
    ensures Maximal(Runs(fails))
    decreases |fails|
  {
    if |fails| > 0 {
      var front := fails[..|fails| - 1];
      var f := fails[|fails| - 1];
      var earlier := Runs(front);
      RunsMaximal(front);
      assert front + [f] == fails;
      if |earlier| > 0 && earlier[|earlier| - 1].0 == f.0 {
        var init := earlier[..|earlier| - 1];
        assert earlier == init + [earlier[|earlier| - 1]];
        RunsJoin(front, f);
        MaximalJoin(init, earlier[|earlier| - 1], f.1);
      } else {
        RunsStart(front, f);
        MaximalStart(earlier, f);
      }
    }
  }

  /**
   * `Runs` is a partition into maximal runs: read back in order the runs give
   * exactly the failures, no run is empty, and neighbouring runs differ in class.
   */
  lemma RunsPartition(fails: seq<Failure>)
    ensures Expand(Runs(fails)) == fails
    ensures Maximal(Runs(fails))
  {
    RunsCover(fails);
    RunsMaximal(fails);
  }

  lemma TwiceSnoc(names: seq<string>, k: string)
    ensures Twice(names + [k]) == Twice(names) + [k, k]
  {
    assert (names + [k])[..|names|] == names;
  }

  /** Adding a name to a non-empty run adds it twice to the recorded names. */
  lemma RecordedSnoc(names: seq<string>, k: string)
    requires |names| >= 1
    ensures Recorded(names + [k]) == Recorded(names) + [k, k]
  {
    assert (names + [k])[1..] == names[1..] + [k];
    TwiceSnoc(names[1..], k);
  }
}
