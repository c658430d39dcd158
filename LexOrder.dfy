/** Python's ordering of `str` values: code point by code point, and a proper
    prefix comes first. Dafny's own `<=` on sequences means "is a prefix of",
    so the version filter of the prepare phase needs this order spelled out. */
module LexOrder {

  /** `a <= b` on Python strings. */
  predicate LexLe(a: string, b: string)
    decreases |a|
  {
    if a == [] then true
    else if b == [] then false
    else if a[0] != b[0] then a[0] < b[0]
    else LexLe(a[1..], b[1..])
  }

  lemma {:induction false} LexLeReflexive(a: string)
    ensures LexLe(a, a)
    decreases |a|
  {
    if a != [] {
      LexLeReflexive(a[1..]);
    }
  }

  lemma {:induction false} LexLeAntisymmetric(a: string, b: string)
    requires LexLe(a, b) && LexLe(b, a)
    ensures a == b
    decreases |a|
  {
    if a != [] && b != [] {
      LexLeAntisymmetric(a[1..], b[1..]);
      assert a == [a[0]] + a[1..] && b == [b[0]] + b[1..];
    }
  }

  lemma {:induction false} LexLeTransitive(a: string, b: string, c: string)
    requires LexLe(a, b) && LexLe(b, c)
    ensures LexLe(a, c)
    decreases |a|
  {
    if a != [] && b != [] && c != [] && a[0] == b[0] && b[0] == c[0] {
      LexLeTransitive(a[1..], b[1..], c[1..]);
    }
  }

  lemma {:induction false} LexLeTotal(a: string, b: string)
    ensures LexLe(a, b) || LexLe(b, a)
    decreases |a|
  {
    if a != [] && b != [] && a[0] == b[0] {
      LexLeTotal(a[1..], b[1..]);
    }
  }

  /** A prefix (Dafny's `<=` on sequences) is never greater in Python's order. */
  lemma {:induction false} PrefixIsLexLe(a: string, b: string)
    requires a <= b
    ensures LexLe(a, b)
    decreases |a|
  {
    if a != [] {
      assert a[1..] <= b[1..];
      PrefixIsLexLe(a[1..], b[1..]);
    }
  }

  /** The default `"0"` is below exactly the non-empty strings whose first
      character is at least `'0'`. */
  lemma DefaultVersionBound(v: string)
    ensures LexLe("0", v) <==> v != [] && '0' <= v[0]
  {
    assert "0"[1..] == [];
  }

  /** The order compares characters, not release numbers: `"2.10" <= "2.9"`. */
  lemma VersionsCompareAsText()
    ensures LexLe("2.10", "2.9") && !LexLe("2.9", "2.10")
    ensures LexLe("10.0", "9.0")
  {
    assert "2.10"[1..][1..] == "10" && "2.9"[1..][1..] == "9";
  }

  /** `a` and `b` agree before position `k`, where `a` has the smaller character. */
  predicate SmallerAt(a: string, b: string, k: int) {
    0 <= k < |a| && k < |b| && a[..k] == b[..k] && a[k] < b[k]
  }

  /** Past a common first character, a difference moves one position down. */
  lemma SmallerAtTail(a: string, b: string, k: int)
    requires a != [] && b != [] && a[0] == b[0] && k > 0
    ensures SmallerAt(a, b, k) <==> SmallerAt(a[1..], b[1..], k - 1)
  {
    if k < |a| && k < |b| {
      var x, y := a[1..][..k - 1], b[1..][..k - 1];
      assert a[..k] == [a[0]] + x && b[..k] == [b[0]] + y;
      assert a[..k] == b[..k] ==> x == a[..k][1..] == b[..k][1..] == y;
      assert a[k] == a[1..][k - 1] && b[k] == b[1..][k - 1];
    }
  }

  /** The order as Python defines it: `a <= b` when `a` is a prefix of `b`,
      or when at the first position where they differ `a` has the smaller
      character. */
  lemma {:induction false} LexLeCharacterized(a: string, b: string)
    ensures LexLe(a, b) <==> a <= b || exists k :: SmallerAt(a, b, k)
    decreases |a|
  {
    if a != [] && b != [] {
      if a[0] != b[0] {
        assert SmallerAt(a, b, 0) <==> a[0] < b[0];
        forall k | SmallerAt(a, b, k)
          ensures k == 0
        {
          assert a[..k] == b[..k];
        }
      } else {
        var a', b' := a[1..], b[1..];
        LexLeCharacterized(a', b');
        assert a <= b <==> a' <= b' by {
          assert a == [a[0]] + a' && b == [b[0]] + b';
        }
        assert !SmallerAt(a, b, 0);
        if k' :| SmallerAt(a', b', k') {
          SmallerAtTail(a, b, k' + 1);
        }
        forall k | SmallerAt(a, b, k)
          ensures SmallerAt(a', b', k - 1)
        {
          SmallerAtTail(a, b, k);
        }
      }
    }
  }
}
