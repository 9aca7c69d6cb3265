/**
 * An ASCII approximation of the text matching `Series.str.contains`
 * performs for a query that holds no regular-expression metacharacter:
 * literal substring search, with `case=False` approximated by lower-casing
 * the ASCII letters of both sides (the regex engine's Unicode case folding
 * is not modelled).
 */
module Text {

  /** ASCII lower-casing of one character; every other character is kept. */
  function LowerChar(c: char): char
  {
    if 'A' <= c <= 'Z' then (c as int + 32) as char else c
  }

  /** Lower-cases every character of `s`. */
  function Lower(s: string): (r: string)
    ensures |r| == |s|
    ensures forall i :: 0 <= i < |s| ==> r[i] == LowerChar(s[i])
  {
    if s == [] then [] else [LowerChar(s[0])] + Lower(s[1..])
  }

  /** `q` occurs in `t` at index `i`. */
  ghost predicate OccursAt(t: string, q: string, i: int)
  {
    0 <= i && i + |q| <= |t| && t[i..i + |q|] == q
  }

  /** `q` is a substring of `t`: a prefix of `t` or of one of its suffixes. */
  predicate Contains(t: string, q: string)
    decreases |t|
  {
    (|q| <= |t| && t[..|q|] == q) || (|t| > 0 && Contains(t[1..], q))
  }

  /** `str.contains(q, case=False)`: both sides are lower-cased first. */
  predicate ContainsIgnoringCase(t: string, q: string)
  {
    Contains(Lower(t), Lower(q))
  }

  lemma OccursInTail(t: string, q: string, i: int)
    requires |t| > 0 && i > 0
    ensures OccursAt(t, q, i) <==> OccursAt(t[1..], q, i - 1)
  {
    if i + |q| <= |t| {
      assert t[1..][i - 1..i - 1 + |q|] == t[i..i + |q|];
    }
  }

  /** The recursive search agrees with the index-based definition of a substring. */
  lemma {:induction false} ContainsIffOccurs(t: string, q: string)
    ensures Contains(t, q) <==> exists i :: OccursAt(t, q, i)
    decreases |t|
  {
    if |q| <= |t| && t[..|q|] == q {
      assert OccursAt(t, q, 0);
    } else if |t| > 0 {
      ContainsIffOccurs(t[1..], q);
      forall i | i > 0 ensures OccursAt(t, q, i) <==> OccursAt(t[1..], q, i - 1) {
        OccursInTail(t, q, i);
      }
      if Contains(t[1..], q) {
        var i :| OccursAt(t[1..], q, i);
        assert OccursAt(t, q, i + 1);
      } else {
        forall i ensures !OccursAt(t, q, i) {
          if i > 0 {
            assert !OccursAt(t[1..], q, i - 1);
          }
        }
      }
    } else {
      forall i ensures !OccursAt(t, q, i) {
      }
    }
  }

  lemma LowerSlice(s: string, i: int, j: int)
    requires 0 <= i <= j <= |s|
    ensures Lower(s)[i..j] == Lower(s[i..j])
  {
  }

  /** A case-sensitive hit is also a case-insensitive one. */
  lemma {:induction false} ContainsThenContainsIgnoringCase(t: string, q: string)
    requires Contains(t, q)
    ensures ContainsIgnoringCase(t, q)
  {
    ContainsIffOccurs(t, q);
    var i :| OccursAt(t, q, i);
    LowerSlice(t, i, i + |q|);
    assert OccursAt(Lower(t), Lower(q), i);
    ContainsIffOccurs(Lower(t), Lower(q));
  }
}
