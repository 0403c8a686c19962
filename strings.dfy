/** Ordinal string operations of System.String that the mod relies on:
    IndexOf, Contains, EndsWith, Replace (string and char forms) and
    IsNullOrWhiteSpace. A string is a sequence of `char`; a Dafny `char` is a
    Unicode scalar value, where .NET counts UTF-16 code units. */
module Strings {

  import opened Wrappers

  /** `p` occurs in `s` starting at position `i`. */
  predicate OccursAt(s: string, p: string, i: int)
  {
    0 <= i && i + |p| <= |s| && s[i..i + |p|] == p
  }

  /** The first occurrence of `p` in `s` at or after position `from`. */
  function FindFrom(s: string, p: string, from: nat): (r: Option<nat>)
    ensures r.Some? ==> from <= r.value && OccursAt(s, p, r.value)
    ensures r.Some? ==> forall j :: from <= j < r.value ==> !OccursAt(s, p, j)
    ensures r.None? ==> forall j :: from <= j ==> !OccursAt(s, p, j)
    decreases |s| - from
  {
    if from + |p| > |s| then None
    else if OccursAt(s, p, from) then Some(from)
    else FindFrom(s, p, from + 1)
  }

  /** String.IndexOf(string), answered with None where C# answers -1. */
  function IndexOf(s: string, p: string): Option<nat>
  {
    FindFrom(s, p, 0)
  }

  /** String.Contains(string). */
  predicate Contains(s: string, p: string)
  {
    IndexOf(s, p).Some?
  }

  /** String.EndsWith(string). */
  predicate EndsWith(s: string, suffix: string)
  {
    |suffix| <= |s| && s[|s| - |suffix|..] == suffix
  }

  /** String.IsNullOrWhiteSpace, with char.IsWhiteSpace given as `whiteSpace`. */
  predicate IsNullOrWhiteSpace(s: string, whiteSpace: char -> bool)
  {
    forall i :: 0 <= i < |s| ==> whiteSpace(s[i])
  }

  /** Occurrences in a suffix are occurrences in the whole string, shifted. */
  lemma OccursInSuffix(s: string, p: string, b: nat, j: int)
    requires b <= |s|
    ensures OccursAt(s[b..], p, j) <==> 0 <= j && OccursAt(s, p, b + j)
  {
  }

  /** Occurrences in a prefix are the occurrences in the whole string that end inside it. */
  lemma OccursInPrefix(s: string, p: string, e: nat, j: int)
    requires e <= |s|
    ensures OccursAt(s[..e], p, j) <==> OccursAt(s, p, j) && j + |p| <= e
  {
  }

  /** String.Replace(oldValue, newValue): one left-to-right scan that replaces
      every non-overlapping occurrence of `oldValue` it meets. C# throws on an
      empty `oldValue`, hence the precondition. */
  function Replace(s: string, oldValue: string, newValue: string): string
    requires |oldValue| > 0
    decreases |s|
  {
    if |s| < |oldValue| then s
    else if s[..|oldValue|] == oldValue then newValue + Replace(s[|oldValue|..], oldValue, newValue)
    else [s[0]] + Replace(s[1..], oldValue, newValue)
  }

  /** A string without the pattern comes back unchanged. */
  lemma {:induction false} ReplaceWithoutOccurrence(s: string, oldValue: string, newValue: string)
    requires |oldValue| > 0
    ensures !Contains(s, oldValue) ==> Replace(s, oldValue, newValue) == s
    decreases |s|
  {
    if |s| >= |oldValue| && !Contains(s, oldValue) {
      assert !OccursAt(s, oldValue, 0);
      NoOccurrenceInTail(s, oldValue);
      ReplaceWithoutOccurrence(s[1..], oldValue, newValue);
    }
  }

  /** A string without `p` has a tail without `p`. */
  lemma NoOccurrenceInTail(s: string, p: string)
    requires |s| > 0
    ensures !Contains(s, p) ==> !Contains(s[1..], p)
  {
    if !Contains(s, p) {
      forall j | 0 <= j
        ensures !OccursAt(s[1..], p, j)
      {
        OccursInSuffix(s, p, 1, j);
      }
    }
  }

  /** Replace at work: the text before the first occurrence is kept, that
      occurrence becomes `newValue`, and the scan resumes right after it. */
  lemma ReplaceAtFirstOccurrence(s: string, oldValue: string, newValue: string, i: nat)
    requires |oldValue| > 0
    requires IndexOf(s, oldValue) == Some(i)
    ensures i + |oldValue| <= |s|
    ensures Replace(s, oldValue, newValue) ==
            s[..i] + newValue + Replace(s[i + |oldValue|..], oldValue, newValue)
  {
    ReplaceUpTo(s, oldValue, newValue, i);
  }

  /** ReplaceAtFirstOccurrence, with the first occurrence stated position by position. */
  lemma {:induction false} ReplaceUpTo(s: string, oldValue: string, newValue: string, i: nat)
    requires |oldValue| > 0
    requires OccursAt(s, oldValue, i) && forall j :: 0 <= j < i ==> !OccursAt(s, oldValue, j)
    ensures Replace(s, oldValue, newValue) ==
            s[..i] + newValue + Replace(s[i + |oldValue|..], oldValue, newValue)
    decreases i
  {
    if i > 0 {
      assert !OccursAt(s, oldValue, 0);
      FirstOccurrenceInTail(s, oldValue, i);
      ReplaceUpTo(s[1..], oldValue, newValue, i - 1);
      ReplaceStep(s, oldValue, newValue, i);
    } else {
      ReplaceAtMatch(s, oldValue, newValue);
      assert s[..i] == [];
    }
  }

  /** Where the pattern starts, the scan emits `newValue` and resumes after it. */
  lemma ReplaceAtMatch(s: string, oldValue: string, newValue: string)
    requires 0 < |oldValue| <= |s| && s[..|oldValue|] == oldValue
    ensures Replace(s, oldValue, newValue) == newValue + Replace(s[|oldValue|..], oldValue, newValue)
  {
  }

  /** One step of ReplaceUpTo: a character copied in front of the tail's equation. */
  lemma ReplaceStep(s: string, oldValue: string, newValue: string, i: nat)
    requires 0 < i && 0 < |oldValue| && i + |oldValue| <= |s| && s[..|oldValue|] != oldValue
    requires Replace(s[1..], oldValue, newValue) ==
             s[1..][..i - 1] + newValue + Replace(s[1..][i - 1 + |oldValue|..], oldValue, newValue)
    ensures Replace(s, oldValue, newValue) ==
            s[..i] + newValue + Replace(s[i + |oldValue|..], oldValue, newValue)
  {
    ReplaceSkipsChar(s, oldValue, newValue);
    var before, after := s[1..][..i - 1], s[1..][i - 1 + |oldValue|..];
    assert after == s[i + |oldValue|..];
    assert [s[0]] + before == s[..i];
    Regroup([s[0]], before, newValue, Replace(after, oldValue, newValue));
  }

  /** Concatenation regrouped. */
  lemma Regroup(a: string, b: string, c: string, d: string)
    ensures a + (b + c + d) == (a + b) + c + d
  {
  }

  /** A first occurrence past position 0 is, in the tail, one position earlier. */
  lemma FirstOccurrenceInTail(s: string, p: string, i: nat)
    requires i > 0 && OccursAt(s, p, i) && forall j :: 0 <= j < i ==> !OccursAt(s, p, j)
    ensures OccursAt(s[1..], p, i - 1) && forall j :: 0 <= j < i - 1 ==> !OccursAt(s[1..], p, j)
  {
    OccursInSuffix(s, p, 1, i - 1);
    forall j | 0 <= j < i - 1
      ensures !OccursAt(s[1..], p, j)
    {
      OccursInSuffix(s, p, 1, j);
    }
  }

  /** Where the pattern does not start, the scan copies one character and moves on. */
  lemma ReplaceSkipsChar(s: string, oldValue: string, newValue: string)
    requires 0 < |oldValue| <= |s| && s[..|oldValue|] != oldValue
    ensures Replace(s, oldValue, newValue) == [s[0]] + Replace(s[1..], oldValue, newValue)
  {
  }

  /** A prefix of the replaced text that holds no first character of `newValue`
      was copied from the input unchanged. */
  lemma {:induction false} PrefixSurvivesReplace(t: string, oldValue: string, newValue: string, q: string)
    requires |oldValue| > 0 && |newValue| > 0 && newValue[0] !in q
    requires |q| <= |Replace(t, oldValue, newValue)|
    requires Replace(t, oldValue, newValue)[..|q|] == q
    ensures |q| <= |t| && t[..|q|] == q
    decreases |t|
  {
    if |t| >= |oldValue| && |q| > 0 {
      if t[..|oldValue|] == oldValue {
        ReplaceStartsWithNewValue(t, oldValue, newValue);
        assert false;
      } else {
        var rest := Replace(t[1..], oldValue, newValue);
        assert Replace(t, oldValue, newValue) == [t[0]] + rest;
        assert Replace(t, oldValue, newValue)[..|q|] == [t[0]] + rest[..|q| - 1];
        assert rest[..|q| - 1] == q[1..];
        PrefixSurvivesReplace(t[1..], oldValue, newValue, q[1..]);
      }
    }
  }

  /** A string that starts with the pattern is replaced starting with `newValue`. */
  lemma ReplaceStartsWithNewValue(t: string, oldValue: string, newValue: string)
    requires 0 < |oldValue| <= |t| && t[..|oldValue|] == oldValue && |newValue| > 0
    ensures |Replace(t, oldValue, newValue)| > 0 && Replace(t, oldValue, newValue)[0] == newValue[0]
  {
  }

  /** When `newValue` cannot start or end an occurrence of `oldValue` (its first
      character is not in `oldValue`, and the first character of `oldValue` is
      not in it), a single scan leaves no occurrence behind. */
  lemma {:induction false} ReplaceLeavesNone(s: string, oldValue: string, newValue: string)
    requires |oldValue| > 0 && |newValue| > 0
    requires newValue[0] !in oldValue && oldValue[0] !in newValue
    ensures !Contains(Replace(s, oldValue, newValue), oldValue)
    decreases |s|
  {
    if |s| < |oldValue| {
      NoneInShorter(s, oldValue);
    } else if s[..|oldValue|] == oldValue {
      var rest := Replace(s[|oldValue|..], oldValue, newValue);
      ReplaceLeavesNone(s[|oldValue|..], oldValue, newValue);
      NoneAfterValue(newValue, rest, oldValue);
    } else {
      var rest := Replace(s[1..], oldValue, newValue);
      ReplaceLeavesNone(s[1..], oldValue, newValue);
      var q := oldValue[1..];
      if |q| <= |rest| && s[0] == oldValue[0] && rest[..|q|] == q {
        PrefixSurvivesReplace(s[1..], oldValue, newValue, q);
        assert false;
      }
      NoneAfterChar(s[0], rest, oldValue);
    }
  }

  /** A string shorter than the pattern does not contain it. */
  lemma NoneInShorter(s: string, p: string)
    requires |s| < |p|
    ensures !Contains(s, p)
  {
  }

  /** `v + rest` has no occurrence of `p` when `rest` has none and `v` does not
      hold the first character of `p`. */
  lemma NoneAfterValue(v: string, rest: string, p: string)
    requires |p| > 0 && p[0] !in v && !Contains(rest, p)
    ensures !Contains(v + rest, p)
  {
    forall j | 0 <= j
      ensures !OccursAt(v + rest, p, j)
    {
      if j >= |v| {
        OccursInSuffix(v + rest, p, |v|, j - |v|);
        assert (v + rest)[|v|..] == rest;
      }
    }
  }

  /** `[c] + rest` has no occurrence of `p` when `rest` has none and `c` followed
      by `rest` does not start with `p`. */
  lemma NoneAfterChar(c: char, rest: string, p: string)
    requires |p| > 0 && !Contains(rest, p)
    requires !(|p| - 1 <= |rest| && c == p[0] && rest[..|p| - 1] == p[1..])
    ensures !Contains([c] + rest, p)
  {
    forall j | 0 <= j
      ensures !OccursAt([c] + rest, p, j)
    {
      if j >= 1 {
        OccursInSuffix([c] + rest, p, 1, j - 1);
        assert ([c] + rest)[1..] == rest;
      }
    }
  }

  /** Replacing by a value no longer than the pattern never lengthens the
      string, and by one of equal length keeps its length. */
  lemma {:induction false} ReplaceLength(s: string, oldValue: string, newValue: string)
    requires |oldValue| > 0
    ensures |newValue| <= |oldValue| ==> |Replace(s, oldValue, newValue)| <= |s|
    ensures |newValue| == |oldValue| ==> |Replace(s, oldValue, newValue)| == |s|
    decreases |s|
  {
    if |s| >= |oldValue| {
      if s[..|oldValue|] == oldValue {
        ReplaceLength(s[|oldValue|..], oldValue, newValue);
      } else {
        ReplaceLength(s[1..], oldValue, newValue);
      }
    }
  }

  /** String.Replace(char, char). */
  function ReplaceChar(s: string, oldChar: char, newChar: char): (r: string)
    ensures |r| == |s|
    ensures forall i :: 0 <= i < |s| ==> r[i] == (if s[i] == oldChar then newChar else s[i])
  {
    if s == [] then []
    else [if s[0] == oldChar then newChar else s[0]] + ReplaceChar(s[1..], oldChar, newChar)
  }

  /** Swapping `a` for `b` and back restores any string that had no `b`. */
  lemma ReplaceCharRoundTrip(s: string, a: char, b: char)
    requires b !in s
    ensures ReplaceChar(ReplaceChar(s, a, b), b, a) == s
  {
  }
}
