/**
 * The string operations the bot applies to symbols and quotes:
 * `toUpperCase`, `toLowerCase`, `trim`, `endsWith` and `replace` with a
 * string pattern (first occurrence only). Case mapping and white space are
 * modelled on ASCII.
 */
module Text {

  import opened Wrappers

  predicate IsLowerLetter(c: char) { 'a' <= c <= 'z' }

  predicate IsUpperLetter(c: char) { 'A' <= c <= 'Z' }

  /** The white space `trim` removes: space, tab, line feed, vertical tab, form feed, carriage return. */
  predicate IsSpace(c: char) { c == ' ' || 9 <= c as int <= 13 }

  function UpperChar(c: char): char {
    if IsLowerLetter(c) then (c as int - 32) as char else c
  }

  function LowerChar(c: char): char {
    if IsUpperLetter(c) then (c as int + 32) as char else c
  }

  /** `s.toUpperCase()` */
  function Upper(s: string): (r: string)
    ensures |r| == |s|
    ensures forall i :: 0 <= i < |s| ==> r[i] == UpperChar(s[i])
  {
    if s == [] then [] else [UpperChar(s[0])] + Upper(s[1..])
  }

  /** `s.toLowerCase()` */
  function Lower(s: string): (r: string)
    ensures |r| == |s|
    ensures forall i :: 0 <= i < |s| ==> r[i] == LowerChar(s[i])
  {
    if s == [] then [] else [LowerChar(s[0])] + Lower(s[1..])
  }

  lemma UpperIdempotent(s: string)
    ensures Upper(Upper(s)) == Upper(s)
  {
    assert forall i :: 0 <= i < |s| ==> Upper(Upper(s))[i] == Upper(s)[i];
  }

  lemma LowerIdempotent(s: string)
    ensures Lower(Lower(s)) == Lower(s)
  {
    assert forall i :: 0 <= i < |s| ==> Lower(Lower(s))[i] == Lower(s)[i];
  }

  /** Case mapping only looks at each letter: lowering first does not change the upper-cased result, and vice versa. */
  lemma UpperOfLower(s: string)
    ensures Upper(Lower(s)) == Upper(s)
    ensures Lower(Upper(s)) == Lower(s)
  {
    assert forall i :: 0 <= i < |s| ==> Upper(Lower(s))[i] == Upper(s)[i];
    assert forall i :: 0 <= i < |s| ==> Lower(Upper(s))[i] == Lower(s)[i];
  }

  /** A string without upper-case letters is its own lower-case form. */
  lemma LowerFixesNonUpper(s: string)
    requires forall i :: 0 <= i < |s| ==> !IsUpperLetter(s[i])
    ensures Lower(s) == s
  {
    assert forall i :: 0 <= i < |s| ==> Lower(s)[i] == s[i];
  }

  lemma UpperConcat(a: string, b: string)
    ensures Upper(a + b) == Upper(a) + Upper(b)
  {
    forall i | 0 <= i < |a + b|
      ensures Upper(a + b)[i] == (Upper(a) + Upper(b))[i]
    {
      if i < |a| {
        assert (a + b)[i] == a[i];
      } else {
        assert (a + b)[i] == b[i - |a|];
      }
    }
  }

  lemma LowerConcat(a: string, b: string)
    ensures Lower(a + b) == Lower(a) + Lower(b)
  {
    forall i | 0 <= i < |a + b|
      ensures Lower(a + b)[i] == (Lower(a) + Lower(b))[i]
    {
      if i < |a| {
        assert (a + b)[i] == a[i];
      } else {
        assert (a + b)[i] == b[i - |a|];
      }
    }
  }

  /** `s` contains no lower-case letter, so upper-casing leaves it as it is. */
  predicate NoLowerLetter(s: string) {
    forall i :: 0 <= i < |s| ==> !IsLowerLetter(s[i])
  }

  lemma UpperHasNoLower(s: string)
    ensures NoLowerLetter(Upper(s))
  {
  }

  lemma UpperOfNoLower(s: string)
    requires NoLowerLetter(s)
    ensures Upper(s) == s
  {
    assert forall i :: 0 <= i < |s| ==> Upper(s)[i] == s[i];
  }

  /** `s.endsWith(suffix)` */
  predicate EndsWith(s: string, suffix: string) {
    |suffix| <= |s| && s[|s| - |suffix|..] == suffix
  }

  /** `s` ends with `suffix` exactly when it is some string followed by `suffix`. */
  lemma EndsWithMeansSuffix(s: string, suffix: string)
    ensures EndsWith(s, suffix) <==> exists i :: 0 <= i <= |s| && s == s[..i] + suffix
  {
    if |suffix| <= |s| && s[|s| - |suffix|..] == suffix {
      var i := |s| - |suffix|;
      assert s == s[..i] + s[i..];
    }
    if exists i :: 0 <= i <= |s| && s == s[..i] + suffix {
      var i :| 0 <= i <= |s| && s == s[..i] + suffix;
      assert s[i..] == suffix;
    }
  }

  /** Leading white space removed. */
  function TrimStart(s: string): (r: string)
    ensures |r| <= |s| && r == s[|s| - |r|..]
    ensures forall i :: 0 <= i < |s| - |r| ==> IsSpace(s[i])
    ensures r == [] || !IsSpace(r[0])
  {
    if s != [] && IsSpace(s[0]) then TrimStart(s[1..]) else s
  }

  /** Trailing white space removed. */
  function TrimEnd(s: string): (r: string)
    ensures |r| <= |s| && r == s[..|r|]
    ensures forall i :: |r| <= i < |s| ==> IsSpace(s[i])
    ensures r == [] || !IsSpace(r[|r| - 1])
  {
    if s != [] && IsSpace(s[|s| - 1]) then TrimEnd(s[..|s| - 1]) else s
  }

  /** `s.trim()`: no longer than the input, starts and ends on non-space, and leaves a string that already does so unchanged. */
  function Trim(s: string): (r: string)
    ensures |r| <= |s|
    ensures r == [] || (!IsSpace(r[0]) && !IsSpace(r[|r| - 1]))
    ensures s == [] || (!IsSpace(s[0]) && !IsSpace(s[|s| - 1])) ==> r == s
  {
    TrimEnd(TrimStart(s))
  }

  /** Where the trimmed string starts inside the untrimmed one. */
  function TrimOffset(s: string): nat {
    |s| - |TrimStart(s)|
  }

  /** The trimmed string is a slice of the input with only white space cut away on either side, and starts and ends on non-space. */
  lemma TrimSpec(s: string)
    ensures var r := Trim(s);
      var i := TrimOffset(s);
      && (r == [] || (!IsSpace(r[0]) && !IsSpace(r[|r| - 1])))
      && i + |r| <= |s| && r == s[i..i + |r|]
      && (forall k :: 0 <= k < i ==> IsSpace(s[k]))
      && (forall k :: i + |r| <= k < |s| ==> IsSpace(s[k]))
  {
    var t := TrimStart(s);
    var i := |s| - |t|;
    TrimEndOfSuffix(s, i, t);
  }

  /** Trimming the end of the suffix `t == s[i..]`: the result is `s[i..i + |r|]` and all of `s` after it is white space. */
  lemma TrimEndOfSuffix(s: string, i: int, t: string)
    requires 0 <= i <= |s| && t == s[i..]
    ensures var r := TrimEnd(t);
      && (r == [] || !IsSpace(r[|r| - 1]))
      && (r != [] ==> r[0] == t[0])
      && i + |r| <= |s| && r == s[i..i + |r|]
      && (forall k :: i + |r| <= k < |s| ==> IsSpace(s[k]))
  {
    var r := TrimEnd(t);
    assert r == t[..|r|];
    forall k | i + |r| <= k < |s|
      ensures IsSpace(s[k])
    {
      assert s[k] == t[k - i];
    }
  }

  lemma TrimStartOfTrimmed(s: string)
    requires s == [] || !IsSpace(s[0])
    ensures TrimStart(s) == s
  {
  }

  lemma TrimEndOfTrimmed(s: string)
    requires s == [] || !IsSpace(s[|s| - 1])
    ensures TrimEnd(s) == s
  {
  }

  /** `trim` is idempotent. */
  lemma TrimIdempotent(s: string)
    ensures Trim(Trim(s)) == Trim(s)
  {
    var r := Trim(s);
    TrimSpec(s);
    TrimStartOfTrimmed(r);
    TrimEndOfTrimmed(r);
  }

  /** Upper-casing maps white space to white space and non-space to non-space. */
  lemma UpperKeepsSpace(c: char)
    ensures IsSpace(UpperChar(c)) <==> IsSpace(c)
  {
  }

  /** `pattern` occurs in `s` starting at index `i`. */
  predicate OccursAt(s: string, pattern: string, i: int) {
    0 <= i && i + |pattern| <= |s| && s[i..i + |pattern|] == pattern
  }

  /** `s.indexOf(pattern, from)`: the first occurrence at or after `from`. */
  function IndexFrom(s: string, pattern: string, from: nat): (r: Option<nat>)
    ensures r.Some? ==> from <= r.value && OccursAt(s, pattern, r.value)
    ensures r.Some? ==> forall k :: from <= k < r.value ==> !OccursAt(s, pattern, k)
    ensures r.None? ==> forall k :: from <= k ==> !OccursAt(s, pattern, k)
    decreases |s| - from
  {
    if from + |pattern| > |s| then None
    else if s[from..from + |pattern|] == pattern then Some(from)
    else IndexFrom(s, pattern, from + 1)
  }

  /** `s.replace(pattern, '')`: only the FIRST occurrence of `pattern` is removed. */
  function RemoveFirst(s: string, pattern: string): (r: string)
    ensures (forall k :: !OccursAt(s, pattern, k)) ==> r == s
    ensures forall i :: OccursAt(s, pattern, i) && (forall k :: 0 <= k < i ==> !OccursAt(s, pattern, k)) ==>
      r == s[..i] + s[i + |pattern|..]
    ensures forall i :: OccursAt(s, pattern, i) ==> |r| == |s| - |pattern|
  {
    match IndexFrom(s, pattern, 0)
    case None => s
    case Some(i) => s[..i] + s[i + |pattern|..]
  }
}
