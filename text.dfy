/** String primitives the components rely on, stated the way JavaScript defines them. */
module Text {

  /** ECMAScript WhiteSpace and LineTerminator code points: the set matched by the
      regular-expression class `\s` and removed by `String.prototype.trim`. */
  predicate IsSpace(c: char) {
    || c == '\t' || c == '\n' || c == '\U{000B}' || c == '\U{000C}' || c == '\r'
    || c == ' ' || c == '\U{00A0}' || c == '\U{1680}'
    || ('\U{2000}' <= c <= '\U{200A}')
    || c == '\U{2028}' || c == '\U{2029}' || c == '\U{202F}' || c == '\U{205F}'
    || c == '\U{3000}' || c == '\U{FEFF}'
  }

  /** The class `\d`: ASCII digits only. */
  predicate IsDigit(c: char) {
    '0' <= c <= '9'
  }

  predicate IsUpper(c: char) {
    'A' <= c <= 'Z'
  }

  predicate IsLetter(c: char) {
    IsUpper(c) || 'a' <= c <= 'z'
  }

  predicate AllSpace(s: string) {
    forall k | 0 <= k < |s| :: IsSpace(s[k])
  }

  predicate NoSpace(s: string) {
    forall k | 0 <= k < |s| :: !IsSpace(s[k])
  }

  /** `s.replace(/\s/g, '')`: every whitespace character removed. */
  function StripSpaces(s: string): (r: string)
    ensures |r| <= |s|
    ensures NoSpace(r)
  {
    if s == [] then []
    else if IsSpace(s[0]) then StripSpaces(s[1..])
    else [s[0]] + StripSpaces(s[1..])
  }

  lemma {:induction false} StripSpacesConcat(a: string, b: string)
    ensures StripSpaces(a + b) == StripSpaces(a) + StripSpaces(b)
  {
    if a == [] {
      assert a + b == b;
    } else {
      assert (a + b)[0] == a[0] && (a + b)[1..] == a[1..] + b;
      StripSpacesConcat(a[1..], b);
      var head := if IsSpace(a[0]) then [] else [a[0]];
      assert StripSpaces(a + b) == head + StripSpaces(a[1..] + b);
      assert StripSpaces(a) == head + StripSpaces(a[1..]);
    }
  }

  lemma {:induction false} StripSpacesOfNoSpace(s: string)
    requires NoSpace(s)
    ensures StripSpaces(s) == s
  {
    if s != [] {
      StripSpacesOfNoSpace(s[1..]);
    }
  }

  lemma {:induction false} StripSpacesOfAllSpace(s: string)
    requires AllSpace(s)
    ensures StripSpaces(s) == []
  {
    if s != [] {
      StripSpacesOfAllSpace(s[1..]);
    }
  }

  /** Removing whitespace keeps exactly the non-whitespace characters, in order:
      a character of the result is a non-whitespace character of the input. */
  lemma {:induction false} StripSpacesFrom(s: string, k: nat)
    requires k < |StripSpaces(s)|
    ensures StripSpaces(s)[k] in s
  {
    if !IsSpace(s[0]) && k == 0 {
    } else if IsSpace(s[0]) {
      StripSpacesFrom(s[1..], k);
    } else {
      StripSpacesFrom(s[1..], k - 1);
    }
  }

  /** `String.prototype.trimStart`. */
  function TrimStart(s: string): (r: string)
    ensures |r| <= |s| && r == s[|s| - |r|..]
    ensures AllSpace(s[..|s| - |r|])
    ensures r == [] || !IsSpace(r[0])
  {
    if s != [] && IsSpace(s[0]) then TrimStart(s[1..]) else s
  }

  /** `String.prototype.trimEnd`. */
  function TrimEnd(s: string): (r: string)
    ensures |r| <= |s| && r == s[..|r|]
    ensures AllSpace(s[|r|..])
    ensures r == [] || !IsSpace(r[|r| - 1])
  {
    if s != [] && IsSpace(s[|s| - 1]) then TrimEnd(s[..|s| - 1]) else s
  }

  /** `String.prototype.trim`. */
  function Trim(s: string): string {
    TrimEnd(TrimStart(s))
  }

  /** A string trims to nothing (`s.trim() === ""`) exactly when every character in it is
      whitespace. */
  lemma TrimEmptyIffAllSpace(s: string)
    ensures Trim(s) == [] <==> AllSpace(s)
  {
    var t := TrimStart(s);
    if AllSpace(s) {
      TrimStartOfAllSpace(s);
    } else {
      var k :| 0 <= k < |s| && !IsSpace(s[k]);
      assert forall j | 0 <= j < |s| - |t| :: IsSpace(s[j]);
      assert t != [] && !IsSpace(t[0]);
      var r := TrimEnd(t);
      assert forall j | |r| <= j < |t| :: IsSpace(t[j]);
    }
  }

  lemma {:induction false} TrimStartOfAllSpace(s: string)
    requires AllSpace(s)
    ensures TrimStart(s) == []
  {
    if s != [] {
      TrimStartOfAllSpace(s[1..]);
    }
  }

  /** ASCII part of `String.prototype.toLowerCase`. */
  function LowerChar(c: char): (d: char)
    ensures IsUpper(c) ==> d as int == c as int + 32
    ensures !IsUpper(c) ==> d == c
  {
    if IsUpper(c) then (c as int + 32) as char else c
  }

  /** `toLowerCase` on ASCII: no capital letter is left, and everything that is not a letter
      stays where it was. */
  function Lower(s: string): (r: string)
    ensures |r| == |s|
    ensures forall k | 0 <= k < |r| :: !IsUpper(r[k])
    ensures forall k | 0 <= k < |s| :: !IsLetter(s[k]) ==> r[k] == s[k]
  {
    seq(|s|, k requires 0 <= k < |s| => LowerChar(s[k]))
  }

  /** Lower-casing twice is lower-casing once. */
  lemma LowerIdempotent(s: string)
    ensures Lower(Lower(s)) == Lower(s)
  {
  }

  /** Lower-casing does not change a string that has no ASCII letters. */
  lemma LowerOfNoLetters(s: string)
    requires forall k | 0 <= k < |s| :: !IsLetter(s[k])
    ensures Lower(s) == s
  {
  }

  /** Lower-casing keeps a character a letter exactly when it was one. */
  lemma LowerKeepsLetters(s: string)
    ensures forall k | 0 <= k < |s| :: IsLetter(Lower(s)[k]) <==> IsLetter(s[k])
  {
  }

  /** `haystack.includes(needle)`. */
  predicate Includes(haystack: string, needle: string) {
    exists i | 0 <= i <= |haystack| - |needle| :: OccursAt(haystack, needle, i)
  }

  predicate OccursAt(haystack: string, needle: string, i: nat)
    requires i + |needle| <= |haystack|
  {
    haystack[i..i + |needle|] == needle
  }

  lemma IncludesEmpty(haystack: string)
    ensures Includes(haystack, [])
  {
    assert OccursAt(haystack, [], 0);
  }

  /** A needle found in a haystack has only characters of the haystack. */
  lemma IncludesChars(haystack: string, needle: string)
    requires Includes(haystack, needle)
    ensures forall k | 0 <= k < |needle| :: needle[k] in haystack
  {
    var i :| 0 <= i <= |haystack| - |needle| && OccursAt(haystack, needle, i);
    forall k | 0 <= k < |needle| ensures needle[k] in haystack {
      assert needle[k] == haystack[i + k];
    }
  }

  /** Number of occurrences of `c` in `s`. */
  function CountOf(c: char, s: string): (n: nat)
    ensures n <= |s|
  {
    if s == [] then 0 else (if s[0] == c then 1 else 0) + CountOf(c, s[1..])
  }

  lemma {:induction false} CountOfConcat(c: char, a: string, b: string)
    ensures CountOf(c, a + b) == CountOf(c, a) + CountOf(c, b)
  {
    if a == [] {
      assert a + b == b;
    } else {
      assert (a + b)[0] == a[0] && (a + b)[1..] == a[1..] + b;
      CountOfConcat(c, a[1..], b);
      assert CountOf(c, a + b) == (if a[0] == c then 1 else 0) + CountOf(c, a[1..] + b);
    }
  }

  lemma {:induction false} CountOfZero(c: char, s: string)
    ensures CountOf(c, s) == 0 <==> c !in s
  {
    if s != [] {
      CountOfZero(c, s[1..]);
      assert s == [s[0]] + s[1..];
    }
  }

  /** Index of the first `c` in `s`, or `|s|` when there is none. */
  function IndexOf(c: char, s: string): (i: nat)
    ensures i <= |s|
    ensures i < |s| ==> s[i] == c
    ensures c !in s[..i]
    ensures i == |s| <==> c !in s
  {
    if s == [] then 0
    else if s[0] == c then 0
    else
      var j := IndexOf(c, s[1..]);
      assert s[..j + 1] == [s[0]] + s[1..][..j];
      j + 1
  }
}
