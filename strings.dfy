/** Python's str.split(sep) and sep.join(parts) for a non-empty separator,
    with the laws the callers rely on. */
module Strings {
  import opened Wrappers

  /** sep occurs in s starting at index i. */
  predicate OccursAt(s: string, sep: string, i: nat)
  {
    i + |sep| <= |s| && s[i..i + |sep|] == sep
  }

  /** Python's `sep in s`. */
  predicate Contains(s: string, sep: string)
  {
    exists i: nat | i <= |s| :: OccursAt(s, sep, i)
  }

  /** The first index at or after i where sep occurs (str.find from i). */
  function FindFrom(s: string, sep: string, i: nat): (r: Option<nat>)
    requires |sep| > 0 && i <= |s|
    ensures r.Some? ==> i <= r.value && OccursAt(s, sep, r.value)
    ensures forall j: nat :: i <= j && (r.None? || j < r.value) ==> !OccursAt(s, sep, j)
    decreases |s| - i
  {
    if i + |sep| > |s| then None
    else if s[i..i + |sep|] == sep then Some(i)
    else FindFrom(s, sep, i + 1)
  }

  /** s.split(sep): the pieces between the non-overlapping occurrences of
      sep found from left to right. */
  function Split(s: string, sep: string): (parts: seq<string>)
    requires |sep| > 0
    ensures |parts| >= 1
    ensures !Contains(parts[0], sep) && !Contains(parts[|parts| - 1], sep)
    decreases |s|
  {
    match FindFrom(s, sep, 0)
    case None => [s]
    case Some(i) =>
      NoOccurrenceBefore(s, sep, i);
      [s[..i]] + Split(s[i + |sep|..], sep)
  }

  /** sep.join(parts): the parts in order, one separator between each two. */
  function Join(parts: seq<string>, sep: string): string
  {
    if |parts| == 0 then ""
    else if |parts| == 1 then parts[0]
    else parts[0] + sep + Join(parts[1..], sep)
  }

  /** A join starts with the first part and ends with the last, and joining
      nothing gives the empty string. */
  lemma {:induction false} JoinEnds(parts: seq<string>, sep: string)
    ensures |parts| == 0 ==> Join(parts, sep) == ""
    ensures |parts| > 0 ==>
      var s := Join(parts, sep);
      && |parts[0]| <= |s| && s[..|parts[0]|] == parts[0]
      && |parts[|parts| - 1]| <= |s| && s[|s| - |parts[|parts| - 1]|..] == parts[|parts| - 1]
  {
    if |parts| > 1 {
      var rest := Join(parts[1..], sep);
      JoinEnds(parts[1..], sep);
      var s := parts[0] + sep + rest;
      assert s[..|parts[0]|] == parts[0];
      assert s[|s| - |rest|..] == rest;
      assert rest[|rest| - |parts[|parts| - 1]|..] == parts[|parts| - 1];
      assert s[|s| - |parts[|parts| - 1]|..] == rest[|rest| - |parts[|parts| - 1]|..];
    }
  }

  /** A prefix of s that ends before the first occurrence of sep has none. */
  lemma NoOccurrenceBefore(s: string, sep: string, k: nat)
    requires |sep| > 0 && k <= |s|
    requires forall j: nat :: j < k ==> !OccursAt(s, sep, j)
    ensures !Contains(s[..k], sep)
  {
    forall j: nat | OccursAt(s[..k], sep, j)
      ensures false
    {
      assert s[..k][j..j + |sep|] == s[j..j + |sep|];
      assert OccursAt(s, sep, j);
    }
  }

  /** Every prefix of a string without sep is without sep. */
  lemma PrefixHasNoOccurrence(s: string, sep: string, k: nat)
    requires |sep| > 0 && k <= |s| && !Contains(s, sep)
    ensures !Contains(s[..k], sep)
  {
    NoOccurrenceBefore(s, sep, k);
  }

  /** An occurrence inside a suffix is an occurrence in the whole string. */
  lemma OccursInSuffix(s: string, sep: string, k: nat, j: nat)
    requires k <= |s|
    ensures OccursAt(s[k..], sep, j) <==> OccursAt(s, sep, k + j)
  {
    if j + |sep| <= |s| - k {
      assert s[k..][j..j + |sep|] == s[k + j..k + j + |sep|];
    }
  }

  /** A single character occurs at i exactly when s[i] is that character. */
  lemma OccursChar(s: string, c: char, i: nat)
    ensures OccursAt(s, [c], i) <==> i < |s| && s[i] == c
  {
    if i < |s| {
      assert s[i..i + 1] == [s[i]];
    }
  }

  /** A string that does not hold the character c does not contain [c]. */
  lemma NoCharNoOccurrence(s: string, c: char)
    requires c !in s
    ensures !Contains(s, [c])
  {
    forall j: nat | OccursAt(s, [c], j)
      ensures false
    {
      OccursChar(s, c, j);
    }
  }

  /** find returns the first occurrence. */
  lemma FindFirst(s: string, sep: string, k: nat)
    requires |sep| > 0 && OccursAt(s, sep, k)
    requires forall j: nat :: j < k ==> !OccursAt(s, sep, j)
    ensures FindFrom(s, sep, 0) == Some(k)
  {
  }

  /** Splitting and joining again gives back the string, for every
      separator: sep.join(s.split(sep)) == s. */
  lemma {:induction false} JoinSplit(s: string, sep: string)
    requires |sep| > 0
    ensures Join(Split(s, sep), sep) == s
    decreases |s|
  {
    match FindFrom(s, sep, 0)
    case None =>
    case Some(i) =>
      var rest := Split(s[i + |sep|..], sep);
      JoinSplit(s[i + |sep|..], sep);
      assert Split(s, sep) == [s[..i]] + rest;
      assert ([s[..i]] + rest)[1..] == rest;
      assert s == s[..i] + sep + s[i + |sep|..];
  }

  /** Joining lines free of the separator character and splitting again
      gives back the lines: s.split(c) inverts c.join. */
  lemma {:induction false} SplitJoinChar(parts: seq<string>, c: char)
    requires |parts| >= 1
    requires forall k :: 0 <= k < |parts| ==> c !in parts[k]
    ensures Split(Join(parts, [c]), [c]) == parts
  {
    var s := Join(parts, [c]);
    if |parts| == 1 {
      NoCharNoOccurrence(parts[0], c);
      match FindFrom(s, [c], 0)
      case None =>
      case Some(i) => assert Contains(s, [c]);
    } else {
      var p, rest := parts[0], Join(parts[1..], [c]);
      assert s == p + [c] + rest;
      OccursChar(s, c, |p|);
      forall j: nat | j < |p|
        ensures !OccursAt(s, [c], j)
      {
        OccursChar(s, c, j);
        assert s[j] == p[j];
      }
      FindFirst(s, [c], |p|);
      assert s[..|p|] == p;
      assert s[|p| + 1..] == rest;
      SplitJoinChar(parts[1..], c);
    }
  }
}
