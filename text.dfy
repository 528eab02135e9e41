/**
 * The two Kotlin string operations the search filters rely on:
 * `isBlank()` and `contains(other, ignoreCase = true)`.
 * Both are modelled on the ASCII range: non-ASCII characters are never
 * whitespace and are compared exactly, without case folding.
 */
module Text {
  import opened Wrappers

  /** The ASCII-range characters Kotlin's `Char.isWhitespace` accepts. */
  predicate IsWhitespace(c: char)
  {
    c == ' ' || ('\t' <= c <= '\r') || ('\U{1C}' <= c <= '\U{1F}')
  }

  /** `isBlank()`: empty, or whitespace only. */
  predicate IsBlank(s: string)
  {
    forall i :: 0 <= i < |s| ==> IsWhitespace(s[i])
  }

  /** ASCII lower-casing of one character; everything else is left as it is. */
  function FoldChar(c: char): (r: char)
    ensures 'A' <= c <= 'Z' ==> r as int == c as int + 32
    ensures !('A' <= c <= 'Z') ==> r == c
    ensures !('A' <= r <= 'Z')
  {
    if 'A' <= c <= 'Z' then (c as int + 32) as char else c
  }

  function Lower(s: string): (r: string)
    ensures |r| == |s|
    ensures forall i :: 0 <= i < |s| ==> r[i] == FoldChar(s[i])
  {
    seq(|s|, i requires 0 <= i < |s| => FoldChar(s[i]))
  }

  /** Character equality under `ignoreCase = true`. */
  predicate CharEqualsIgnoreCase(a: char, b: char)
  {
    FoldChar(a) == FoldChar(b)
  }

  /** `regionMatches(i, other, 0, |other|, ignoreCase = true)`: `q` occurs in `s` at index `i`. */
  predicate RegionMatches(s: string, q: string, i: nat)
  {
    i + |q| <= |s| && forall k :: 0 <= k < |q| ==> CharEqualsIgnoreCase(s[i + k], q[k])
  }

  /**
   * `indexOf(q, from, ignoreCase = true)`: the first index at or after `from`
   * where `q` occurs in `s` ignoring case, or None.
   */
  function IndexOfIgnoreCase(s: string, q: string, from: nat): (r: Option<nat>)
    decreases |s| - from
    ensures r.Some? ==> from <= r.value && RegionMatches(s, q, r.value)
    ensures r.Some? ==> forall j :: from <= j < r.value ==> !RegionMatches(s, q, j)
    ensures r.None? ==> forall j :: from <= j ==> !RegionMatches(s, q, j)
  {
    if from + |q| > |s| then None
    else if RegionMatches(s, q, from) then Some(from)
    else IndexOfIgnoreCase(s, q, from + 1)
  }

  /** `s.contains(q, ignoreCase = true)`. */
  predicate ContainsIgnoreCase(s: string, q: string)
  {
    IndexOfIgnoreCase(s, q, 0).Some?
  }

  /** Containment means an occurrence at some index. */
  lemma ContainsIffOccurs(s: string, q: string)
    ensures ContainsIgnoreCase(s, q) <==> exists i: nat :: RegionMatches(s, q, i)
  {
    var r := IndexOfIgnoreCase(s, q, 0);
    if r.Some? {
      assert RegionMatches(s, q, r.value);
    }
  }

  /** `p` occurs in `t` at index `i`, by exact comparison. */
  predicate SubstringAt(t: string, p: string, i: int)
  {
    0 <= i <= |t| - |p| && t[i..i + |p|] == p
  }

  /** Containment ignoring case is plain substring containment after lower-casing both sides. */
  lemma ContainsIffLowerSubstring(s: string, q: string)
    ensures ContainsIgnoreCase(s, q) <==> exists i :: SubstringAt(Lower(s), Lower(q), i)
  {
    ContainsIffOccurs(s, q);
    if ContainsIgnoreCase(s, q) {
      var i: nat :| RegionMatches(s, q, i);
      assert Lower(s)[i..i + |q|] == Lower(q);
      assert SubstringAt(Lower(s), Lower(q), i);
    }
    if exists i :: SubstringAt(Lower(s), Lower(q), i) {
      var i :| SubstringAt(Lower(s), Lower(q), i);
      forall k | 0 <= k < |q| ensures CharEqualsIgnoreCase(s[i + k], q[k]) {
        assert Lower(s)[i..i + |q|][k] == Lower(q)[k];
      }
      assert RegionMatches(s, q, i as nat);
    }
  }

  /** Only the lower-cased query matters: "COFFEE" and "coffee" select the same titles. */
  lemma QueryCaseIrrelevant(s: string, q1: string, q2: string)
    requires Lower(q1) == Lower(q2)
    ensures ContainsIgnoreCase(s, q1) <==> ContainsIgnoreCase(s, q2)
  {
    ContainsIffLowerSubstring(s, q1);
    ContainsIffLowerSubstring(s, q2);
  }

  /** The empty query occurs in every title (index 0). */
  lemma EmptyQueryContained(s: string)
    ensures ContainsIgnoreCase(s, "")
  {
    assert RegionMatches(s, "", 0);
  }

  /** A string in which the query's first character never occurs (ignoring case) does not match. */
  lemma MissingFirstCharNoMatch(s: string, q: string)
    requires q != []
    requires forall i :: 0 <= i < |s| ==> !CharEqualsIgnoreCase(s[i], q[0])
    ensures !ContainsIgnoreCase(s, q)
  {
    forall i: nat ensures !RegionMatches(s, q, i) {
      if i + |q| <= |s| {
        assert !CharEqualsIgnoreCase(s[i + 0], q[0]);
      }
    }
    ContainsIffOccurs(s, q);
  }

  /**
   * A non-blank query holds a character that is not whitespace, so it is not
   * empty: the filters never see the empty query, which every title contains.
   */
  lemma NonBlankNotEmpty(q: string)
    requires !IsBlank(q)
    ensures q != []
    ensures exists i :: 0 <= i < |q| && !IsWhitespace(q[i])
  {
  }

  /** A query is blank exactly when each of its parts is. */
  lemma {:induction false} BlankConcat(s: string, t: string)
    ensures IsBlank(s + t) <==> IsBlank(s) && IsBlank(t)
  {
    if IsBlank(s + t) {
      forall i | 0 <= i < |s| ensures IsWhitespace(s[i]) {
        assert (s + t)[i] == s[i];
      }
      forall i | 0 <= i < |t| ensures IsWhitespace(t[i]) {
        assert (s + t)[|s| + i] == t[i];
      }
    }
  }

  /** Concrete cases: the empty query and spaces, tabs and newlines are blank; a letter is not. */
  lemma BlankExamples()
    ensures IsBlank("") && IsBlank(" ") && IsBlank(" \t\n")
    ensures !IsBlank("a") && !IsBlank(" a ")
  {
    assert !IsWhitespace("a"[0]);
    assert !IsWhitespace(" a "[1]);
  }
}
