/** The case-insensitive expression matcher of the NPC parser, as its unit
    test pins it down: two expressions match when their words are equal up to
    letter case; their type labels play no part. The matcher compares words
    the way Java's `String.equalsIgnoreCase` does, here on ASCII text. */
module ExprMatcher {
  import opened Text

  /** A parsed expression: its word as typed and its grammatical type label
      ("VER" for a verb, "SUB" for a noun, ...). */
  datatype Expression = Expression(original: string, typeString: string)

  /** Java's per-character rule in `equalsIgnoreCase`. */
  predicate CharsMatch(c1: char, c2: char) {
    c1 == c2 || UpperChar(c1) == UpperChar(c2) || LowerChar(UpperChar(c1)) == LowerChar(UpperChar(c2))
  }

  /** `String.equalsIgnoreCase`: same length and every position matches. */
  predicate EqualsIgnoreCase(a: string, b: string) {
    |a| == |b| && forall i :: 0 <= i < |a| ==> CharsMatch(a[i], b[i])
  }

  lemma CharsMatchIsLowerEquality(c1: char, c2: char)
    ensures CharsMatch(c1, c2) <==> LowerChar(c1) == LowerChar(c2)
  {
  }

  /** The matcher: the words are compared ignoring letter case and the type
      labels are ignored. Its result agrees with the independent definition
      "the lower-cased words are equal". */
  function Match(e1: Expression, e2: Expression): (r: bool)
    ensures r <==> Lower(e1.original) == Lower(e2.original)
  {
    var a, b := e1.original, e2.original;
    if EqualsIgnoreCase(a, b) then
      assert Lower(a) == Lower(b) by {
        forall i | 0 <= i < |a| ensures Lower(a)[i] == Lower(b)[i] {
          CharsMatchIsLowerEquality(a[i], b[i]);
        }
      }
      true
    else
      assert Lower(a) != Lower(b) by {
        if Lower(a) == Lower(b) {
          forall i | 0 <= i < |a| ensures CharsMatch(a[i], b[i]) {
            CharsMatchIsLowerEquality(a[i], b[i]);
            assert Lower(a)[i] == Lower(b)[i];
          }
          assert false;
        }
      }
      false
  }

  /** Matching is an equivalence relation on expressions. */
  lemma MatchIsEquivalence(e1: Expression, e2: Expression, e3: Expression)
    ensures Match(e1, e1)
    ensures Match(e1, e2) == Match(e2, e1)
    ensures Match(e1, e2) && Match(e2, e3) ==> Match(e1, e3)
  {
  }

  /** The type label never changes the verdict. */
  lemma MatchIgnoresType(w: string, t1: string, t2: string, e: Expression)
    ensures Match(Expression(w, t1), e) == Match(Expression(w, t2), e)
    ensures Match(e, Expression(w, t1)) == Match(e, Expression(w, t2))
  {
  }

  /** Words of different lengths never match; in particular a proper prefix
      of a word does not match it. */
  lemma DifferentLengthsDoNotMatch(e1: Expression, e2: Expression)
    requires |e1.original| != |e2.original|
    ensures !Match(e1, e2)
  {
    assert |Lower(e1.original)| != |Lower(e2.original)|;
  }

  /** A word matches every re-casing of itself: changing the case of any
      subset of its letters keeps the match. */
  lemma MatchUpToCase(w: string, v: string, t1: string, t2: string)
    requires |w| == |v|
    requires forall i :: 0 <= i < |w| ==> v[i] == w[i] || v[i] == UpperChar(w[i]) || v[i] == LowerChar(w[i])
    ensures Match(Expression(w, t1), Expression(v, t2))
  {
    forall i | 0 <= i < |w| ensures Lower(w)[i] == Lower(v)[i] {
    }
  }

  /** The five assertions of the matcher's unit test. */
  lemma UnitTestCases()
    ensures Match(Expression("aBc", "VER"), Expression("abc", "VER"))
    ensures !Match(Expression("aBc", "VER"), Expression("ab", "VER"))
    ensures Match(Expression("aBc", "VER"), Expression("abc", "SUB"))
    ensures !Match(Expression("aBc", "VER"), Expression("X", "SUB"))
    ensures !Match(Expression("abc", "SUB"), Expression("X", "SUB"))
  {
    assert Lower("aBc") == "abc" by {
      assert Lower("aBc")[1] == LowerChar('B') == 'b';
    }
    assert Lower("abc") == "abc";
    DifferentLengthsDoNotMatch(Expression("aBc", "VER"), Expression("ab", "VER"));
    DifferentLengthsDoNotMatch(Expression("aBc", "VER"), Expression("X", "SUB"));
    DifferentLengthsDoNotMatch(Expression("abc", "SUB"), Expression("X", "SUB"));
  }
}
