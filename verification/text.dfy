/**
 The string primitives the matcher is built from: ASCII lower-casing, substring
 containment (Python's `needle in haystack`), lexicographic comparison by code
 point (Python's `<` on `str`) and single-character replacement (Python's
 `str.replace` with one-character arguments).
 */
module Text {

  /** Lower-cases one ASCII letter; every other character is left alone. */
  function Lower(c: char): char
  {
    if 'A' <= c <= 'Z' then (c as int - 'A' as int + 'a' as int) as char else c
  }

  /** Lower-cases every character of `s`. */
  function LowerStr(s: string): (r: string)
    ensures |r| == |s|
  {
    seq(|s|, i requires 0 <= i < |s| => Lower(s[i]))
  }

  /** True when `s` contains no upper-case ASCII letter. */
  predicate IsLower(s: string)
  {
    forall i :: 0 <= i < |s| ==> !('A' <= s[i] <= 'Z')
  }

  /** Lower-casing turns each capital into its own small letter, keeps every
      other character where it was, leaves no upper-case letter behind, and
      doing it twice changes nothing. */
  lemma LowerStrIsLower(s: string)
    ensures IsLower(LowerStr(s))
    ensures LowerStr(LowerStr(s)) == LowerStr(s)
    ensures forall i :: 0 <= i < |s| && !('A' <= s[i] <= 'Z') ==> LowerStr(s)[i] == s[i]
    ensures forall i :: 0 <= i < |s| && 'A' <= s[i] <= 'Z' ==>
      LowerStr(s)[i] == "abcdefghijklmnopqrstuvwxyz"[s[i] as int - 'A' as int]
  {
  }

  /** Lower-casing distributes over concatenation. */
  lemma LowerStrConcat(a: string, b: string)
    ensures LowerStr(a + b) == LowerStr(a) + LowerStr(b)
  {
    assert forall i :: 0 <= i < |a + b| ==> LowerStr(a + b)[i] == (LowerStr(a) + LowerStr(b))[i];
  }

  /* ---------------------------------------------------------------------- */
  /* Substring containment                                                  */
  /* ---------------------------------------------------------------------- */

  /** `needle` occurs in `hay` starting at position `i`. */
  ghost predicate OccursAt(needle: string, hay: string, i: int)
  {
    0 <= i && i + |needle| <= |hay| && hay[i..i + |needle|] == needle
  }

  /** Python's `needle in hay`: scans `hay` left to right for a position where
      `needle` is a prefix of what remains. The empty needle is in every string. */
  function Contains(needle: string, hay: string): bool
    decreases |hay|
  {
    if needle <= hay then true
    else if |hay| == 0 then false
    else Contains(needle, hay[1..])
  }

  /** The scan agrees with the positional definition of a substring, in both
      directions. */
  lemma {:induction false} ContainsIffOccurs(needle: string, hay: string)
    ensures Contains(needle, hay) <==> exists i :: OccursAt(needle, hay, i)
    decreases |hay|
  {
    if needle <= hay {
      assert hay[0..|needle|] == needle;
      assert OccursAt(needle, hay, 0);
    } else if |hay| == 0 {
      assert |needle| > 0;
    } else {
      var tail := hay[1..];
      ContainsIffOccurs(needle, tail);
      forall i | OccursAt(needle, tail, i)
        ensures OccursAt(needle, hay, i + 1)
      {
        assert hay[i + 1..i + 1 + |needle|] == tail[i..i + |needle|];
      }
      assert OccursAt(needle, hay, 0) ==> needle <= hay;
      forall i | OccursAt(needle, hay, i)
        ensures OccursAt(needle, tail, i - 1)
      {
        assert i != 0;
        assert tail[i - 1..i - 1 + |needle|] == hay[i..i + |needle|];
      }
    }
  }

  /** Every string contains the empty string and itself. */
  lemma ContainsTrivial(s: string)
    ensures Contains("", s)
    ensures Contains(s, s)
  {
  }

  /** A needle longer than the haystack is never contained in it. */
  lemma {:induction false} ContainsNotLonger(needle: string, hay: string)
    requires |hay| < |needle|
    ensures !Contains(needle, hay)
    decreases |hay|
  {
    if |hay| > 0 {
      ContainsNotLonger(needle, hay[1..]);
    }
  }

  /* ---------------------------------------------------------------------- */
  /* Lexicographic order by code point                                      */
  /* ---------------------------------------------------------------------- */

  /** Python's `a < b` on strings: the first differing character decides; when
      one string is a prefix of the other, the shorter one is smaller. (Dafny's
      own `<` on sequences is the proper-prefix relation, which is not this.) */
  function Less(a: string, b: string): bool
    decreases |a|
  {
    if |b| == 0 then false
    else if |a| == 0 then true
    else if a[0] != b[0] then a[0] < b[0]
    else Less(a[1..], b[1..])
  }

  /** `a` and `b` agree before position `k` and `a` has the smaller character at `k`. */
  ghost predicate FirstDifferenceAt(a: string, b: string, k: int)
  {
    0 <= k < |a| && k < |b| && a[..k] == b[..k] && a[k] < b[k]
  }

  /** `Less` holds exactly when `a` is a proper prefix of `b` or the first
      position where they differ holds a smaller character in `a`. */
  lemma {:induction false} LessIffPrefixOrDifference(a: string, b: string)
    ensures Less(a, b) <==> (a < b || exists k :: FirstDifferenceAt(a, b, k))
    decreases |a|
  {
    if |b| == 0 {
    } else if |a| == 0 {
      assert a < b;
    } else if a[0] != b[0] {
      if a[0] < b[0] {
        assert FirstDifferenceAt(a, b, 0);
      } else {
        assert !(a <= b);
        forall k | 0 < k <= |a| && k <= |b|
          ensures a[..k] != b[..k]
        {
          assert a[..k][0] == a[0] && b[..k][0] == b[0];
        }
      }
    } else {
      var a', b' := a[1..], b[1..];
      LessIffPrefixOrDifference(a', b');
      assert a < b <==> a' < b' by {
        assert a == [a[0]] + a' && b == [b[0]] + b';
      }
      if exists k :: FirstDifferenceAt(a', b', k) {
        var k :| FirstDifferenceAt(a', b', k);
        assert a[..k + 1] == [a[0]] + a'[..k];
        assert b[..k + 1] == [b[0]] + b'[..k];
        assert FirstDifferenceAt(a, b, k + 1);
      }
      if exists k :: FirstDifferenceAt(a, b, k) {
        var k :| FirstDifferenceAt(a, b, k);
        assert k != 0;
        assert a'[..k - 1] == a[1..k] && b'[..k - 1] == b[1..k];
        assert a[1..k] == a[..k][1..] && b[1..k] == b[..k][1..];
        assert FirstDifferenceAt(a', b', k - 1);
      }
    }
  }

  /** No string is less than itself. */
  lemma {:induction false} LessIrreflexive(a: string)
    ensures !Less(a, a)
    decreases |a|
  {
    if |a| > 0 {
      LessIrreflexive(a[1..]);
    }
  }

  /** A string never sorts before one of its own prefixes. */
  lemma {:induction false} PrefixNotLess(a: string, rest: string)
    ensures !Less(a + rest, a)
    decreases |a|
  {
    if |a| > 0 {
      assert (a + rest)[1..] == a[1..] + rest;
      PrefixNotLess(a[1..], rest);
    }
  }

  /** `Less` is transitive. */
  lemma {:induction false} LessTransitive(a: string, b: string, c: string)
    requires Less(a, b) && Less(b, c)
    ensures Less(a, c)
    decreases |a|
  {
    if |a| > 0 && a[0] == b[0] && b[0] == c[0] {
      LessTransitive(a[1..], b[1..], c[1..]);
    }
  }

  /** Any two distinct strings are ordered one way or the other, and never both. */
  lemma {:induction false} LessTotal(a: string, b: string)
    ensures a == b || Less(a, b) || Less(b, a)
    ensures !(Less(a, b) && Less(b, a))
    decreases |a|
  {
    if |a| > 0 && |b| > 0 && a[0] == b[0] {
      LessTotal(a[1..], b[1..]);
      if a[1..] == b[1..] {
        assert a == [a[0]] + a[1..] && b == [b[0]] + b[1..];
      }
    }
  }

  /* ---------------------------------------------------------------------- */
  /* Single-character replacement                                           */
  /* ---------------------------------------------------------------------- */

  /** Python's `s.replace(from, to)` for one-character `from` and `to`. */
  function Replace(s: string, from: char, to: char): string
    decreases |s|
  {
    if |s| == 0 then []
    else [if s[0] == from then to else s[0]] + Replace(s[1..], from, to)
  }

  /** Replacement keeps the length, rewrites exactly the occurrences of `from`,
      and leaves no `from` behind when `from` and `to` differ. */
  lemma {:induction false} ReplacePointwise(s: string, from: char, to: char)
    ensures |Replace(s, from, to)| == |s|
    ensures forall i :: 0 <= i < |s| ==>
      Replace(s, from, to)[i] == (if s[i] == from then to else s[i])
    ensures from != to ==> from !in Replace(s, from, to)
    decreases |s|
  {
    if |s| > 0 {
      ReplacePointwise(s[1..], from, to);
    }
  }

  /** Replacing `from` by `to` and back again restores a string that had no
      `to` in it to begin with. */
  lemma {:induction false} ReplaceRoundTrip(s: string, from: char, to: char)
    requires to !in s
    ensures Replace(Replace(s, from, to), to, from) == s
    decreases |s|
  {
    if |s| > 0 {
      assert to !in s[1..];
      ReplaceRoundTrip(s[1..], from, to);
    }
  }
}
