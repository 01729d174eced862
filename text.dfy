/**
 * Strings as the data-access layer and the components compare them:
 * the lexicographic order that orders document ids and category names,
 * ASCII lower-casing, and `String.prototype.includes`.
 */
module Text {

  /** Strict lexicographic order on strings, comparing characters by code. */
  predicate StrLess(a: string, b: string)
  {
    if |a| == 0 then |b| > 0
    else if |b| == 0 then false
    else if a[0] == b[0] then StrLess(a[1..], b[1..])
    else a[0] < b[0]
  }

  lemma {:induction false} StrLessIrreflexive(a: string)
    ensures !StrLess(a, a)
  {
    if |a| > 0 { StrLessIrreflexive(a[1..]); }
  }

  lemma {:induction false} StrLessTransitive(a: string, b: string, c: string)
    requires StrLess(a, b) && StrLess(b, c)
    ensures StrLess(a, c)
  {
    if |a| > 0 && |b| > 0 && |c| > 0 && a[0] == b[0] && b[0] == c[0] {
      StrLessTransitive(a[1..], b[1..], c[1..]);
    }
  }

  lemma {:induction false} StrLessTotal(a: string, b: string)
    ensures a == b || StrLess(a, b) || StrLess(b, a)
  {
    if |a| > 0 && |b| > 0 && a[0] == b[0] {
      StrLessTotal(a[1..], b[1..]);
      if a[1..] == b[1..] {
        assert a == [a[0]] + a[1..];
        assert b == [b[0]] + b[1..];
      }
    }
  }

  lemma StrLessAsymmetric(a: string, b: string)
    ensures StrLess(a, b) ==> !StrLess(b, a)
  {
    if StrLess(a, b) && StrLess(b, a) {
      StrLessTransitive(a, b, a);
      StrLessIrreflexive(a);
    }
  }

  /** `x` is the least element of `s` in the lexicographic order. */
  predicate IsLeast(x: string, s: set<string>)
  {
    x in s && forall y :: y in s && y != x ==> StrLess(x, y)
  }

  lemma LeastOfInsert(x: string, z: string, s: set<string>)
    requires IsLeast(x, s) && z !in s
    ensures IsLeast(x, s + {z}) || IsLeast(z, s + {z})
  {
    StrLessTotal(x, z);
    if !StrLess(x, z) {
      forall y | y in s + {z} && y != z ensures StrLess(z, y) {
        if y != x { StrLessTransitive(z, x, y); }
      }
    }
  }

  lemma {:induction false} LeastExists(s: set<string>)
    requires s != {}
    ensures exists x :: IsLeast(x, s)
  {
    var z :| z in s;
    if s == {z} {
      assert IsLeast(z, s);
    } else {
      LeastExists(s - {z});
      var x :| IsLeast(x, s - {z});
      LeastOfInsert(x, z, s - {z});
      assert s == (s - {z}) + {z};
      if IsLeast(x, s) { assert IsLeast(x, s); } else { assert IsLeast(z, s); }
    }
  }

  lemma LeastUnique(x: string, x': string, s: set<string>)
    requires IsLeast(x, s) && IsLeast(x', s)
    ensures x == x'
  {
    if x != x' { StrLessAsymmetric(x, x'); }
  }

  /** The least string of a non-empty finite set. */
  function LeastString(s: set<string>): (x: string)
    requires s != {}
    ensures IsLeast(x, s)
  {
    LeastExists(s);
    assert forall x, x' :: IsLeast(x, s) && IsLeast(x', s) ==> x == x' by {
      forall x, x' | IsLeast(x, s) && IsLeast(x', s) ensures x == x' {
        LeastUnique(x, x', s);
      }
    }
    var x :| IsLeast(x, s);
    x
  }

  /** The elements of a finite set of strings in strictly ascending order. */
  function SortedStrings(s: set<string>): (r: seq<string>)
    ensures |r| == |s|
    ensures forall x :: x in r <==> x in s
    ensures forall i, j :: 0 <= i < j < |r| ==> StrLess(r[i], r[j])
    decreases |s|
  {
    if s == {} then []
    else
      var x := LeastString(s);
      [x] + SortedStrings(s - {x})
  }

  /** ASCII lower-casing of one character; other characters are unchanged. */
  function LowerChar(c: char): char
  {
    if 'A' <= c <= 'Z' then (c as int + 32) as char else c
  }

  /** Lower-casing of a string, one character at a time. */
  function Lower(s: string): (r: string)
    ensures |r| == |s|
    ensures forall i :: 0 <= i < |s| ==> r[i] == LowerChar(s[i])
  {
    if s == [] then [] else [LowerChar(s[0])] + Lower(s[1..])
  }

  lemma LowerIdempotent(s: string)
    ensures Lower(Lower(s)) == Lower(s)
  {
  }

  /** `p` is a prefix of `s`. */
  predicate IsPrefix(p: string, s: string)
  {
    |p| <= |s| && p == s[..|p|]
  }

  /** `s.includes(sub)`: `sub` occurs in `s` as a contiguous block. */
  predicate Contains(s: string, sub: string)
    decreases |s|
  {
    IsPrefix(sub, s) || (|s| > 0 && Contains(s[1..], sub))
  }

  /** `sub` occurs in `s` starting at index `i`. */
  ghost predicate OccursAt(s: string, sub: string, i: int)
  {
    0 <= i <= |s| - |sub| && s[i..i + |sub|] == sub
  }

  /** `Contains` agrees with the positional definition of a substring occurrence. */
  lemma {:induction false} ContainsAt(s: string, sub: string)
    ensures Contains(s, sub) <==> exists i :: OccursAt(s, sub, i)
    decreases |s|
  {
    if IsPrefix(sub, s) {
      assert OccursAt(s, sub, 0);
    } else if |s| == 0 {
      assert forall i :: !OccursAt(s, sub, i);
    } else {
      ContainsAt(s[1..], sub);
      if Contains(s[1..], sub) {
        var i :| OccursAt(s[1..], sub, i);
        assert s[i + 1..i + 1 + |sub|] == s[1..][i..i + |sub|];
        assert OccursAt(s, sub, i + 1);
      } else {
        forall i | OccursAt(s, sub, i) ensures false {
          if i != 0 {
            assert s[i..i + |sub|] == s[1..][i - 1..i - 1 + |sub|];
            assert OccursAt(s[1..], sub, i - 1);
          }
        }
      }
    }
  }

  /** Every string contains the empty string, as `includes("")` is true. */
  lemma ContainsEmpty(s: string)
    ensures Contains(s, "")
  {
    assert IsPrefix("", s);
  }

  /** `text.toLowerCase().includes(query.toLowerCase())`. */
  predicate ContainsIgnoringCase(text: string, query: string)
  {
    Contains(Lower(text), Lower(query))
  }

  /** Matching ignores case on both sides. */
  lemma ContainsIgnoringCaseOfLowered(text: string, query: string)
    ensures ContainsIgnoringCase(Lower(text), query) == ContainsIgnoringCase(text, query)
    ensures ContainsIgnoringCase(text, Lower(query)) == ContainsIgnoringCase(text, query)
  {
    LowerIdempotent(text);
    LowerIdempotent(query);
  }
}
