/** The JavaScript string built-ins the popup relies on (trim, toUpperCase, includes,
    split, substring), on strings as sequences of characters. */
module Text {

  /** The characters String.prototype.trim strips: ECMAScript WhiteSpace and LineTerminator. */
  predicate IsSpace(c: char)
  {
    || c == ' ' || c == '\t' || c == '\n' || c == '\r'
    || c == '\U{000B}' || c == '\U{000C}' || c == '\U{00A0}' || c == '\U{1680}'
    || ('\U{2000}' <= c <= '\U{200A}')
    || c == '\U{2028}' || c == '\U{2029}' || c == '\U{202F}' || c == '\U{205F}'
    || c == '\U{3000}' || c == '\U{FEFF}'
  }

  /** True when every character of s is white space (the empty string included). */
  predicate Blank(s: string)
  {
    forall i :: 0 <= i < |s| ==> IsSpace(s[i])
  }

  /** How many white-space characters s starts with. */
  function LeadingSpaces(s: string): (k: nat)
    ensures k <= |s|
    ensures forall i :: 0 <= i < k ==> IsSpace(s[i])
    ensures k < |s| ==> !IsSpace(s[k])
  {
    if s != [] && IsSpace(s[0]) then 1 + LeadingSpaces(s[1..]) else 0
  }

  /** Where the run of white space that ends s begins. */
  function TrailingStart(s: string): (e: nat)
    ensures e <= |s|
    ensures forall i :: e <= i < |s| ==> IsSpace(s[i])
    ensures e > 0 ==> !IsSpace(s[e - 1])
  {
    if s != [] && IsSpace(s[|s| - 1]) then TrailingStart(s[..|s| - 1]) else |s|
  }

  /** String.prototype.trim: s without its leading and trailing white space. The result is
      empty exactly when the input is blank, and otherwise starts and ends with a character
      that is not white space. */
  function Trim(s: string): (r: string)
    ensures |r| <= |s|
    ensures r == [] <==> Blank(s)
    ensures r == [] || (!IsSpace(r[0]) && !IsSpace(r[|r| - 1]))
  {
    var a := LeadingSpaces(s);
    var e := TrailingStart(s);
    if e <= a then [] else s[a..e]
  }

  /** A string with no white space at either end is its own trim. */
  lemma TrimOfTrimmed(s: string)
    requires s == [] || (!IsSpace(s[0]) && !IsSpace(s[|s| - 1]))
    ensures Trim(s) == s
  {
    if s != [] {
      assert LeadingSpaces(s) == 0;
      assert TrailingStart(s) == |s|;
      assert s[0..|s|] == s;
    }
  }

  /** Trimming a trimmed string changes nothing. */
  lemma TrimIdempotent(s: string)
    ensures Trim(Trim(s)) == Trim(s)
  {
    TrimOfTrimmed(Trim(s));
  }

  predicate IsLower(c: char)
  {
    'a' <= c <= 'z'
  }

  /** The upper-case form of an ASCII letter; every other character is its own. */
  function UpperChar(c: char): (u: char)
    ensures !IsLower(u)
    ensures IsSpace(u) <==> IsSpace(c)
    ensures IsLower(c) ==> u as int == c as int - 32
    ensures !IsLower(c) ==> u == c
  {
    if IsLower(c) then (c as int - 32) as char else c
  }

  /** String.prototype.toUpperCase, restricted to ASCII letters: the same length, each
      character mapped by UpperChar. */
  function ToUpper(s: string): (r: string)
    ensures |r| == |s|
    ensures forall i :: 0 <= i < |s| ==> r[i] == UpperChar(s[i])
  {
    if s == [] then [] else [UpperChar(s[0])] + ToUpper(s[1..])
  }

  /** An upper-cased string has no lower-case ASCII letter left, so upper-casing again is
      the identity. */
  lemma ToUpperIdempotent(s: string)
    ensures forall i :: 0 <= i < |s| ==> !IsLower(ToUpper(s)[i])
    ensures ToUpper(ToUpper(s)) == ToUpper(s)
  {
  }

  /** Upper-casing a string with no white space at either end (a trimmed one) leaves it
      trimmed. */
  lemma TrimToUpperOfTrimmed(s: string)
    requires s == [] || (!IsSpace(s[0]) && !IsSpace(s[|s| - 1]))
    ensures Trim(ToUpper(s)) == ToUpper(s)
  {
    var u := ToUpper(s);
    if s != [] {
      assert !IsSpace(u[0]) && !IsSpace(u[|u| - 1]);
    }
    TrimOfTrimmed(u);
  }

  /** pat occurs in s starting at index i. */
  predicate OccursAt(s: string, pat: string, i: int)
  {
    0 <= i && i + |pat| <= |s| && s[i..i + |pat|] == pat
  }

  /** String.prototype.includes. */
  predicate Contains(s: string, pat: string)
    decreases |s|
  {
    |pat| <= |s| && (s[..|pat|] == pat || (s != [] && Contains(s[1..], pat)))
  }

  /** Contains means what it says: pat occurs at some position of s. */
  lemma {:induction false} ContainsIff(s: string, pat: string)
    ensures Contains(s, pat) <==> exists i :: OccursAt(s, pat, i)
    decreases |s|
  {
    if Contains(s, pat) {
      if s[..|pat|] == pat {
        assert OccursAt(s, pat, 0);
      } else {
        ContainsIff(s[1..], pat);
        var i :| OccursAt(s[1..], pat, i);
        assert s[1..][i..i + |pat|] == s[i + 1..i + 1 + |pat|];
        assert OccursAt(s, pat, i + 1);
      }
    }
    if exists i :: OccursAt(s, pat, i) {
      var i :| OccursAt(s, pat, i);
      if i > 0 {
        assert s[1..][i - 1..i - 1 + |pat|] == s[i..i + |pat|];
        assert OccursAt(s[1..], pat, i - 1);
        ContainsIff(s[1..], pat);
      }
    }
  }

  /** Whatever surrounds it, a string that has pat written into it contains pat. */
  lemma {:induction false} ContainsInfix(x: string, pat: string, y: string)
    ensures Contains(x + pat + y, pat)
    decreases |x|
  {
    var s := x + pat + y;
    if x == [] {
      assert s[..|pat|] == pat;
    } else {
      assert s[1..] == x[1..] + pat + y;
      ContainsInfix(x[1..], pat, y);
    }
  }

  /** An occurrence inside a slice is an occurrence in the slice, shifted. */
  lemma OccursInSlice(s: string, pat: string, p: int, a: int, b: int)
    requires OccursAt(s, pat, p) && 0 <= a <= p && p + |pat| <= b <= |s|
    ensures OccursAt(s[a..b], pat, p - a)
  {
    var x := s[a..b][p - a..p - a + |pat|];
    forall k | 0 <= k < |pat| ensures x[k] == pat[k] {
      assert x[k] == s[p + k] == s[p..p + |pat|][k];
    }
  }

  /** Where pat occurs, its first and last characters sit in s. */
  lemma OccurrenceEnds(s: string, pat: string, p: int)
    requires OccursAt(s, pat, p) && pat != []
    ensures s[p] == pat[0] && s[p + |pat| - 1] == pat[|pat| - 1]
  {
    assert s[p..p + |pat|][0] == s[p];
    assert s[p..p + |pat|][|pat| - 1] == s[p + |pat| - 1];
  }

  /** Trim(s) is the slice s[a..b] with only white space outside it. */
  lemma TrimSlice(s: string) returns (a: nat, b: nat)
    ensures a <= b <= |s| && Trim(s) == s[a..b]
    ensures forall i :: 0 <= i < a ==> IsSpace(s[i])
    ensures forall i :: b <= i < |s| ==> IsSpace(s[i])
  {
    a := LeadingSpaces(s);
    var e := TrailingStart(s);
    b := if e <= a then a else e;
  }

  /** Trimming never cuts into an occurrence of a pattern that starts and ends with a
      character other than white space. */
  lemma ContainsSurvivesTrim(s: string, pat: string)
    requires pat != [] && !IsSpace(pat[0]) && !IsSpace(pat[|pat| - 1])
    requires Contains(s, pat)
    ensures Contains(Trim(s), pat)
  {
    var a, b := TrimSlice(s);
    ContainsIff(s, pat);
    var p :| OccursAt(s, pat, p);
    OccurrenceEnds(s, pat, p);
    OccursInSlice(s, pat, p, a, b);
    ContainsIff(s[a..b], pat);
  }

  /** The index of the first occurrence of c in s, or |s| when there is none. */
  function IndexOf(s: string, c: char): (k: nat)
    ensures k <= |s|
    ensures k < |s| ==> s[k] == c
    ensures forall i :: 0 <= i < k ==> s[i] != c
    ensures k == |s| <==> c !in s
  {
    if s == [] then 0 else if s[0] == c then 0 else 1 + IndexOf(s[1..], c)
  }

  /** String.prototype.split with a one-character separator: the segments between
      separators, so one more segment than there are separators. */
  function Split(s: string, sep: char): (parts: seq<string>)
    ensures |parts| >= 1
    ensures forall p :: p in parts ==> sep !in p
    ensures |parts| >= 2 <==> sep in s
  {
    if s == [] then [""]
    else
      var rest := Split(s[1..], sep);
      if s[0] == sep then [""] + rest
      else [[s[0]] + rest[0]] + rest[1..]
  }

  /** Array.prototype.join with a one-character separator. */
  function Join(parts: seq<string>, sep: char): (s: string)
  {
    if parts == [] then ""
    else if |parts| == 1 then parts[0]
    else parts[0] + [sep] + Join(parts[1..], sep)
  }

  /** Prepending to the first segment prepends to the joined string. */
  lemma JoinPrepend(x: string, parts: seq<string>, sep: char)
    requires parts != []
    ensures Join([x + parts[0]] + parts[1..], sep) == x + Join(parts, sep)
  {
    var q := [x + parts[0]] + parts[1..];
    assert q[0] == x + parts[0] && q[1..] == parts[1..];
    if |parts| > 1 {
      assert Join(q, sep) == (x + parts[0]) + [sep] + Join(parts[1..], sep);
    }
  }

  /** Split loses nothing: joining the segments with the separator gives back the input. */
  lemma {:induction false} JoinSplit(s: string, sep: char)
    ensures Join(Split(s, sep), sep) == s
  {
    if s != [] {
      var rest := Split(s[1..], sep);
      JoinSplit(s[1..], sep);
      if s[0] == sep {
        assert Split(s, sep) == [""] + rest;
        assert ([""] + rest)[1..] == rest;
      } else {
        assert Split(s, sep) == [[s[0]] + rest[0]] + rest[1..];
        JoinPrepend([s[0]], rest, sep);
        assert [s[0]] + s[1..] == s;
      }
    }
  }

  /** The first segment of a split is everything before the first separator; when there is
      a separator, the remaining segments are the split of what follows it. */
  lemma {:induction false} SplitAtFirst(s: string, sep: char)
    ensures Split(s, sep)[0] == s[..IndexOf(s, sep)]
    ensures IndexOf(s, sep) < |s| ==> Split(s, sep)[1..] == Split(s[IndexOf(s, sep) + 1..], sep)
  {
    if s != [] && s[0] != sep {
      SplitAtFirst(s[1..], sep);
      var k := IndexOf(s[1..], sep);
      assert [s[0]] + s[1..][..k] == s[..k + 1];
      if k < |s[1..]| {
        assert s[1..][k + 1..] == s[k + 2..];
      }
    }
  }

  /** String.prototype.substring(0, n) for n >= 0: the first n characters, or all of s
      when it is shorter. */
  function Prefix(s: string, n: nat): (r: string)
    ensures |r| == if n <= |s| then n else |s|
    ensures r <= s
  {
    if n <= |s| then s[..n] else s
  }

  /** String.prototype.substring(|s| - n) for n >= 0: the last n characters, or all of s
      when it is shorter (a negative start counts as 0). */
  function Suffix(s: string, n: nat): (r: string)
    ensures |r| == if n <= |s| then n else |s|
    ensures r == s[|s| - |r|..]
  {
    if n <= |s| then s[|s| - n..] else s
  }
}
