/** Which test classes the prepare phase runs: every subclass of the base
    test case whose `marqo_from_version` is at most the from-version, in
    Python's string order, a class without the attribute counting as "0". */
module Selection {
  import opened Commands
  import opened LexOrder

  /** A subclass of the base test case, by name, with its optional
      `marqo_from_version` class attribute. */
  datatype TestClass = TestClass(name: string, marqoFromVersion: Option<string>)

  /** `getattr(test, 'marqo_from_version', '0')`. */
  function MinVersion(t: TestClass): string {
    match t.marqoFromVersion
    case Some(v) => v
    case None => "0"
  }

  predicate Eligible(t: TestClass, fromVersion: string) {
    LexLe(MinVersion(t), fromVersion)
  }

  /** The list comprehension of run_tests in prepare mode. */
  function SelectForPrepare(tests: seq<TestClass>, fromVersion: string): seq<TestClass>
    decreases |tests|
  {
    if tests == [] then []
    else
      var rest := SelectForPrepare(tests[1..], fromVersion);
      if Eligible(tests[0], fromVersion) then [tests[0]] + rest else rest
  }

  /** The selection holds exactly the eligible classes of the list, and
      nothing it holds is ineligible; it is never longer than the list. */
  lemma {:induction false} SelectMembers(tests: seq<TestClass>, fromVersion: string)
    ensures |SelectForPrepare(tests, fromVersion)| <= |tests|
    ensures forall t :: t in SelectForPrepare(tests, fromVersion) <==> t in tests && Eligible(t, fromVersion)
    ensures forall k :: 0 <= k < |SelectForPrepare(tests, fromVersion)| ==>
      Eligible(SelectForPrepare(tests, fromVersion)[k], fromVersion)
    decreases |tests|
  {
    if tests != [] {
      SelectMembers(tests[1..], fromVersion);
      assert tests == [tests[0]] + tests[1..];
      var rest := SelectForPrepare(tests[1..], fromVersion);
      if Eligible(tests[0], fromVersion) {
        var r := [tests[0]] + rest;
        forall k | 0 < k < |r|
          ensures r[k] == rest[k - 1]
        {
        }
      }
    }
  }

  lemma TailOfAppend(a: seq<TestClass>, b: seq<TestClass>)
    requires a != []
    ensures (a + b)[0] == a[0] && (a + b)[1..] == a[1..] + b
  {
  }

  /** Selection keeps the input order: it distributes over concatenation. */
  lemma {:induction false} SelectAppend(a: seq<TestClass>, b: seq<TestClass>, fromVersion: string)
    ensures SelectForPrepare(a + b, fromVersion) == SelectForPrepare(a, fromVersion) + SelectForPrepare(b, fromVersion)
    decreases |a|
  {
    if a != [] {
      TailOfAppend(a, b);
      SelectAppend(a[1..], b, fromVersion);
      var ra := SelectForPrepare(a[1..], fromVersion);
      var rb := SelectForPrepare(b, fromVersion);
      if Eligible(a[0], fromVersion) {
        assert [a[0]] + (ra + rb) == [a[0]] + ra + rb;
      }
    } else {
      assert a + b == b;
    }
  }

  /** Every eligible class is kept, and nothing else: selecting again
      changes nothing. */
  lemma {:induction false} SelectIdempotent(tests: seq<TestClass>, fromVersion: string)
    ensures SelectForPrepare(SelectForPrepare(tests, fromVersion), fromVersion) == SelectForPrepare(tests, fromVersion)
    decreases |tests|
  {
    if tests != [] {
      SelectIdempotent(tests[1..], fromVersion);
      var rest := SelectForPrepare(tests[1..], fromVersion);
      if Eligible(tests[0], fromVersion) {
        assert ([tests[0]] + rest)[1..] == rest;
      }
    }
  }

  /** With every class eligible, the selection is the whole list. */
  lemma {:induction false} SelectAllEligible(tests: seq<TestClass>, fromVersion: string)
    requires forall k :: 0 <= k < |tests| ==> Eligible(tests[k], fromVersion)
    ensures SelectForPrepare(tests, fromVersion) == tests
    decreases |tests|
  {
    if tests != [] {
      assert Eligible(tests[0], fromVersion);
      SelectAllEligible(tests[1..], fromVersion);
      assert [tests[0]] + tests[1..] == tests;
    }
  }

  /** Classes with minimum versions 1.0, 2.0, 2.5 and 3.0 and from-version
      2.5: the first three are prepared, in that order. */
  lemma SelectExample()
    ensures var a, b, c, d := TestClass("A", Some("1.0")), TestClass("B", Some("2.0")),
                              TestClass("C", Some("2.5")), TestClass("D", Some("3.0"));
      SelectForPrepare([a, b, c, d], "2.5") == [a, b, c]
  {
    var a, b, c, d := TestClass("A", Some("1.0")), TestClass("B", Some("2.0")),
                      TestClass("C", Some("2.5")), TestClass("D", Some("3.0"));
    LexLeReflexive("2.5");
    assert Eligible(a, "2.5") && Eligible(b, "2.5") && Eligible(c, "2.5");
    assert !Eligible(d, "2.5");
    assert [a, b, c, d][1..] == [b, c, d] && [b, c, d][1..] == [c, d] && [c, d][1..] == [d];
    assert [d][1..] == [];
    assert SelectForPrepare([d], "2.5") == [];
    assert SelectForPrepare([c, d], "2.5") == [c];
    assert SelectForPrepare([b, c, d], "2.5") == [b, c];
  }

  /** A class without the attribute is prepared exactly when the from-version
      is non-empty and starts with a character at least '0'. */
  lemma MissingAttributeSelected(t: TestClass, fromVersion: string)
    requires t.marqoFromVersion.None?
    ensures Eligible(t, fromVersion) <==> fromVersion != [] && '0' <= fromVersion[0]
  {
    DefaultVersionBound(fromVersion);
  }
}
