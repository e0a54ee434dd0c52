/**
 * The textual form of one failure record, `className:m1,m2,...`, as built by
 * `maybeSaveLastErrJUnitTest`, together with the reading that takes a record
 * apart again. The round trip (ParseFormat) says the format loses nothing as
 * long as the class name has no ':' and no method name has a ','.
 */
module GroupFormat {
  import opened Options

  /** The method names separated by single commas, in order. */
  function Join(names: seq<string>): string
  {
    if |names| == 0 then ""
    else if |names| == 1 then names[0]
    else names[0] + "," + Join(names[1..])
  }

  /** One failure record: the class name, a colon, then the joined method names. */
  function Format(cls: string, names: seq<string>): string
    requires |names| >= 1
  {
    cls + ":" + Join(names)
  }

  /** No method name contains the separator. */
  predicate NoComma(names: seq<string>)
  {
    forall i :: 0 <= i < |names| ==> ',' !in names[i]
  }

  /** The pieces of `s` between commas (a string with k commas has k + 1 pieces). */
  function Split(s: string): (parts: seq<string>)
    ensures |parts| >= 1
    ensures |parts| == 1 <==> ',' !in s
  {
    if |s| == 0 then [""]
    else
      var rest := Split(s[1..]);
      if s[0] == ',' then [""] + rest
      else [[s[0]] + rest[0]] + rest[1..]
  }

  /** Reads a record back: the text before the first ':' and the comma-separated rest. */
  function ParseRecord(line: string): Option<(string, seq<string>)>
  {
    if |line| == 0 then None
    else if line[0] == ':' then Some(("", Split(line[1..])))
    else
      match ParseRecord(line[1..])
      case None => None
      case Some(r) => Some(([line[0]] + r.0, r.1))
  }

  /** Appending a name to a non-empty list adds exactly one comma and that name. */
  lemma {:induction false} JoinSnoc(names: seq<string>, k: string)
    requires |names| >= 1
    ensures Join(names + [k]) == Join(names) + "," + k
  {
    if |names| == 1 {
      assert names + [k] == [names[0], k];
      assert Join([k]) == k;
    } else {
      assert (names + [k])[1..] == names[1..] + [k];
      JoinSnoc(names[1..], k);
    }
  }

  lemma {:induction false} SplitNoComma(s: string)
    requires ',' !in s
    ensures Split(s) == [s]
  {
    if |s| > 0 {
      SplitNoComma(s[1..]);
      assert [s[0]] + s[1..] == s;
    }
  }

  lemma {:induction false} SplitAfter(m: string, t: string)
    requires ',' !in m
    ensures Split(m + "," + t) == [m] + Split(t)
  {
    if |m| == 0 {
      assert m + "," + t == [','] + t;
      assert (m + "," + t)[1..] == t;
    } else {
      assert (m + "," + t)[1..] == m[1..] + "," + t;
      SplitAfter(m[1..], t);
      assert [m[0]] + m[1..] == m;
    }
  }

  /** Splitting undoes joining when no name contains a comma. */
  lemma {:induction false} SplitJoin(names: seq<string>)
    requires |names| >= 1 && NoComma(names)
    ensures Split(Join(names)) == names
  {
    if |names| == 1 {
      SplitNoComma(names[0]);
    } else {
      assert NoComma(names[1..]) by {
        forall i | 0 <= i < |names[1..]| ensures ',' !in names[1..][i] {
          assert names[1..][i] == names[i + 1];
        }
      }
      SplitJoin(names[1..]);
      SplitAfter(names[0], Join(names[1..]));
      assert [names[0]] + names[1..] == names;
    }
  }

  /**
   * A record reads back as the class name and the method names it was built
   * from, provided the class name has no ':' and the method names no ','.
   */
  lemma {:induction false} ParseFormat(cls: string, names: seq<string>)
    requires |names| >= 1 && ':' !in cls && NoComma(names)
    ensures ParseRecord(Format(cls, names)) == Some((cls, names))
  {
    if |cls| == 0 {
      assert Format(cls, names) == [':'] + Join(names);
      assert Format(cls, names)[1..] == Join(names);
      SplitJoin(names);
    } else {
      assert Format(cls, names)[1..] == Format(cls[1..], names);
      ParseFormat(cls[1..], names);
      assert [cls[0]] + cls[1..] == cls;
    }
  }
}
