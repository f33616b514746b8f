/**
 * The JavaScript string operations the client relies on, over `string`: a JavaScript string is
 * modelled as a sequence of Unicode characters.
 */
module Text {
  import opened Wrappers

  /** The characters that `.` in a JavaScript regular expression does not match. */
  predicate IsLineTerminator(c: char) {
    c == '\n' || c == '\r' || c == '\U{2028}' || c == '\U{2029}'
  }

  /** JavaScript's `\s` class: WhiteSpace and LineTerminator. `String.prototype.trim` strips the same set. */
  predicate IsSpace(c: char) {
    || c == ' ' || c == '\t' || c == '\U{000B}' || c == '\U{000C}'
    || IsLineTerminator(c)
    || c == '\U{00A0}' || c == '\U{1680}' || ('\U{2000}' <= c <= '\U{200A}')
    || c == '\U{202F}' || c == '\U{205F}' || c == '\U{3000}' || c == '\U{FEFF}'
  }

  /** JavaScript's `\d` class. */
  predicate IsDigit(c: char) {
    '0' <= c <= '9'
  }

  predicate NoSpaces(s: string) {
    forall i :: 0 <= i < |s| ==> !IsSpace(s[i])
  }

  predicate AllSpaces(s: string) {
    forall i :: 0 <= i < |s| ==> IsSpace(s[i])
  }

  lemma AllSpacesCons(c: char, s: string)
    requires IsSpace(c) && AllSpaces(s)
    ensures AllSpaces([c] + s)
  {
    forall k | 0 < k <= |s| ensures IsSpace(([c] + s)[k]) {
      assert ([c] + s)[k] == s[k - 1];
    }
  }

  lemma AllSpacesSnoc(s: string, c: char)
    requires AllSpaces(s) && IsSpace(c)
    ensures AllSpaces(s + [c])
  {
    forall k | 0 <= k < |s| ensures IsSpace((s + [c])[k]) {
      assert (s + [c])[k] == s[k];
    }
  }

  predicate NoLineTerminators(s: string) {
    forall i :: 0 <= i < |s| ==> !IsLineTerminator(s[i])
  }

  predicate AllDigits(s: string) {
    forall i :: 0 <= i < |s| ==> IsDigit(s[i])
  }

  lemma NoSpacesHasNoLineTerminators(s: string)
    requires NoSpaces(s)
    ensures NoLineTerminators(s)
  {
  }

  /** Every slice of a text without white space has none either. */
  lemma NoSpacesSlice(s: string, lo: nat, hi: nat)
    requires NoSpaces(s) && lo <= hi <= |s|
    ensures NoSpaces(s[lo..hi])
  {
    forall k | 0 <= k < hi - lo ensures !IsSpace(s[lo..hi][k]) {
      assert s[lo..hi][k] == s[lo + k];
    }
  }

  /** `s.replace(/\s/g, '')`: every white-space character removed, the rest kept in order. */
  function StripSpaces(s: string): (r: string)
    ensures NoSpaces(r)
    ensures |r| <= |s|
    decreases |s|
  {
    if s == [] then []
    else (if IsSpace(s[0]) then [] else [s[0]]) + StripSpaces(s[1..])
  }

  lemma {:induction false} StripSpacesAppend(a: string, b: string)
    ensures StripSpaces(a + b) == StripSpaces(a) + StripSpaces(b)
    decreases |a|
  {
    if a == [] {
      assert a + b == b;
    } else {
      assert (a + b)[1..] == a[1..] + b;
      StripSpacesAppend(a[1..], b);
    }
  }

  /** A text without white space is left as it is. */
  lemma {:induction false} StripSpacesNoSpaces(s: string)
    requires NoSpaces(s)
    ensures StripSpaces(s) == s
    decreases |s|
  {
    if s != [] {
      NoSpacesSlice(s, 1, |s|);
      assert s[1..|s|] == s[1..];
      StripSpacesNoSpaces(s[1..]);
    }
  }

  /** White space removed around a space that follows a space-free text. */
  lemma StripAfterSpace(a: string, b: string)
    requires NoSpaces(a)
    ensures StripSpaces(a + " " + b) == a + StripSpaces(b)
  {
    assert StripSpaces(" ") == [] + StripSpaces(" "[1..]);
    StripSpacesNoSpaces(a);
    StripSpacesAppend(a, " ");
    assert StripSpaces(a + " ") == a + [] == a;
    StripSpacesAppend(a + " ", b);
  }

  /** Removing white space twice removes nothing more. */
  lemma StripSpacesIdempotent(s: string)
    ensures StripSpaces(StripSpaces(s)) == StripSpaces(s)
  {
    StripSpacesNoSpaces(StripSpaces(s));
  }

  /** `s.trimStart()`. */
  function TrimStart(s: string): (r: string)
    ensures r == [] || !IsSpace(r[0])
    ensures |r| <= |s| && r == s[|s| - |r|..]
    ensures AllSpaces(s[..|s| - |r|])
    ensures s == [] || !IsSpace(s[0]) ==> r == s
    decreases |s|
  {
    if s != [] && IsSpace(s[0]) then
      var r := TrimStart(s[1..]);
      assert s[..|s| - |r|] == [s[0]] + s[1..][..|s| - 1 - |r|];
      AllSpacesCons(s[0], s[1..][..|s| - 1 - |r|]);
      r
    else
      assert s[..0] == [];
      s
  }

  /** `s.trimEnd()`. */
  function TrimEnd(s: string): (r: string)
    ensures r == [] || !IsSpace(r[|r| - 1])
    ensures |r| <= |s| && r == s[..|r|]
    ensures AllSpaces(s[|r|..])
    ensures s == [] || !IsSpace(s[|s| - 1]) ==> r == s
    decreases |s|
  {
    if s != [] && IsSpace(s[|s| - 1]) then
      var r := TrimEnd(s[..|s| - 1]);
      assert s[|r|..] == s[..|s| - 1][|r|..] + [s[|s| - 1]];
      AllSpacesSnoc(s[..|s| - 1][|r|..], s[|s| - 1]);
      r
    else
      assert s[|s|..] == [];
      s
  }

  /** `s.trim()`: white space removed from both ends and nowhere else. */
  function Trim(s: string): (r: string)
    ensures r == [] || (!IsSpace(r[0]) && !IsSpace(r[|r| - 1]))
    ensures |r| <= |s|
    ensures s == [] || (!IsSpace(s[0]) && !IsSpace(s[|s| - 1])) ==> r == s
  {
    var t := TrimStart(s);
    var r := TrimEnd(t);
    assert r != [] ==> r[0] == t[0];
    r
  }

  /** `r` is the slice of `s` at `i`, and everything of `s` before and after it is white space. */
  predicate SpacesAround(s: string, i: nat, r: string) {
    && i + |r| <= |s| && r == s[i..i + |r|]
    && AllSpaces(s[..i]) && AllSpaces(s[i + |r|..])
  }

  /** Trimming removes white space at the two ends and nothing else: the result is the slice of `s` between them. */
  lemma TrimRemovesOnlyEnds(s: string)
    ensures SpacesAround(s, |s| - |TrimStart(s)|, Trim(s))
  {
    var t := TrimStart(s);
    var r := TrimEnd(t);
    SliceOfSuffix(s, t, r);
    TrimUnfold(s);
  }

  lemma TrimUnfold(s: string)
    ensures Trim(s) == TrimEnd(TrimStart(s))
  {
  }

  /** A prefix `r` of a suffix `t` of `s`, with only white space around each, has only white space around it in `s`. */
  lemma SliceOfSuffix(s: string, t: string, r: string)
    requires |t| <= |s| && t == s[|s| - |t|..] && AllSpaces(s[..|s| - |t|])
    requires |r| <= |t| && r == t[..|r|] && AllSpaces(t[|r|..])
    ensures SpacesAround(s, |s| - |t|, r)
  {
    var i := |s| - |t|;
    assert s[i + |r|..] == t[|r|..];
  }

  /** `s.replace(/\D/g, '')`: only the decimal digits are kept, in order. */
  function KeepDigits(s: string): (r: string)
    ensures AllDigits(r)
    ensures |r| <= |s|
    ensures AllDigits(s) ==> r == s
    decreases |s|
  {
    if s == [] then []
    else (if IsDigit(s[0]) then [s[0]] else []) + KeepDigits(s[1..])
  }

  /** Digits are kept piece by piece: the digits of a concatenation are the digits of each part, in order. */
  lemma {:induction false} KeepDigitsAppend(a: string, b: string)
    ensures KeepDigits(a + b) == KeepDigits(a) + KeepDigits(b)
    decreases |a|
  {
    if a == [] {
      assert a + b == b;
    } else {
      assert (a + b)[1..] == a[1..] + b;
      KeepDigitsAppend(a[1..], b);
    }
  }

  /** One character is kept exactly when it is a digit. */
  lemma KeepDigitsChar(c: char)
    ensures KeepDigits([c]) == if IsDigit(c) then [c] else []
  {
    assert [c][1..] == [];
  }

  /**
   * `s.substring(0, n)` / `s.slice(0, n)` for a non-negative `n`, on texts and on arrays; also
   * what `maxLength={n}` lets through.
   */
  function Take<T>(s: seq<T>, n: nat): (r: seq<T>)
    ensures |r| == if |s| <= n then |s| else n
    ensures r <= s
  {
    if |s| <= n then s else s[..n]
  }

  /** Extending a prefix by one element, alone or after other elements. */
  lemma TakeSnoc<T>(acc: seq<T>, s: seq<T>, i: nat)
    requires i < |s|
    ensures s[..i + 1] == s[..i] + [s[i]]
    ensures acc + s[..i + 1] == (acc + s[..i]) + [s[i]]
  {
    assert s[..i + 1] == s[..i] + [s[i]];
  }

  /** Putting a sequence back together from its head and tail, in front of another one. */
  lemma ConsAppend<T>(s: seq<T>, b: seq<T>)
    requires s != []
    ensures [s[0]] + (s[1..] + b) == s + b
  {
    assert [s[0]] + s[1..] == s;
  }

  /** A slice of a suffix is the corresponding slice of the whole. */
  lemma SliceOfDrop<T>(s: seq<T>, d: nat, lo: nat, hi: nat)
    requires d <= lo <= hi <= |s|
    ensures s[d..][lo - d..hi - d] == s[lo..hi]
  {
  }

  lemma AppendAssoc<T>(a: seq<T>, b: seq<T>, c: seq<T>)
    ensures a + (b + c) == (a + b) + c
  {
  }

  function UpperChar(c: char): char {
    if 'a' <= c <= 'z' then (c as int - 'a' as int + 'A' as int) as char else c
  }

  function LowerChar(c: char): char {
    if 'A' <= c <= 'Z' then (c as int - 'A' as int + 'a' as int) as char else c
  }

  /** `s.toUpperCase()` on the ASCII letters. */
  function ToUpper(s: string): (r: string)
    ensures |r| == |s|
    ensures forall i :: 0 <= i < |s| ==> r[i] == UpperChar(s[i])
  {
    seq(|s|, i requires 0 <= i < |s| => UpperChar(s[i]))
  }

  /** Upper-casing an upper-cased text changes nothing. */
  lemma ToUpperIdempotent(s: string)
    ensures ToUpper(ToUpper(s)) == ToUpper(s)
  {
    assert forall i :: 0 <= i < |s| ==> UpperChar(UpperChar(s[i])) == UpperChar(s[i]);
  }

  /** A text without lower-case letters is its own upper-casing. */
  lemma ToUpperNoLowercase(s: string)
    requires forall i :: 0 <= i < |s| ==> !('a' <= s[i] <= 'z')
    ensures ToUpper(s) == s
  {
  }

  /** `s.toLowerCase()` on the ASCII letters. */
  function ToLower(s: string): (r: string)
    ensures |r| == |s|
    ensures forall i :: 0 <= i < |s| ==> r[i] == LowerChar(s[i])
  {
    seq(|s|, i requires 0 <= i < |s| => LowerChar(s[i]))
  }

  /** Lower-casing forgets an upper-casing: comparisons of lower-cased texts ignore case. */
  lemma LowerOfUpper(s: string)
    ensures ToLower(ToUpper(s)) == ToLower(s)
  {
    assert forall i :: 0 <= i < |s| ==> LowerChar(UpperChar(s[i])) == LowerChar(s[i]);
  }

  /** `s.includes(sub)`: `sub` occurs at some position of `s`. */
  predicate Contains(s: string, sub: string)
    decreases |s|
  {
    sub <= s || (s != [] && Contains(s[1..], sub))
  }

  /** Every string contains the empty string, so an empty search query matches everything. */
  lemma ContainsEmpty(s: string)
    ensures Contains(s, "")
  {
  }

  lemma {:induction false} ContainsAt(s: string, sub: string, k: nat)
    requires k + |sub| <= |s| && s[k..k + |sub|] == sub
    ensures Contains(s, sub)
    decreases k
  {
    if k > 0 {
      assert s[1..][k - 1..k - 1 + |sub|] == s[k..k + |sub|];
      ContainsAt(s[1..], sub, k - 1);
    }
  }

  /** A text contains only texts made of its own characters. */
  lemma {:induction false} ContainsOwnChars(s: string, sub: string, k: nat)
    requires Contains(s, sub) && k < |sub|
    ensures sub[k] in s
    decreases |s|
  {
    if sub <= s {
      assert s[k] == sub[k];
    } else {
      ContainsOwnChars(s[1..], sub, k);
      assert s[1..] <= s[1..] && sub[k] in s[1..];
    }
  }

  /** `s.replace(pat, rep)` with a string pattern: only the first occurrence is replaced. */
  function ReplaceFirst(s: string, pat: string, rep: string): (r: string)
    ensures !Contains(s, pat) ==> r == s
    decreases |s|
  {
    if pat <= s then rep + s[|pat|..]
    else if s == [] then s
    else [s[0]] + ReplaceFirst(s[1..], pat, rep)
  }

  /** `pat` occurs in `s` at position `j`. */
  predicate OccursAt(s: string, pat: string, j: nat) {
    j + |pat| <= |s| && s[j..j + |pat|] == pat
  }

  /** `pat` does not occur in `s` at any position before `k`. */
  predicate NoOccurrenceBefore(s: string, pat: string, k: nat) {
    forall j: nat :: j < k ==> !OccursAt(s, pat, j)
  }

  /** When `pat` first occurs at `k`, exactly that occurrence is replaced and the text around it is kept. */
  lemma {:induction false} ReplaceFirstAt(s: string, pat: string, rep: string, k: nat)
    requires OccursAt(s, pat, k) && NoOccurrenceBefore(s, pat, k)
    ensures ReplaceFirst(s, pat, rep) == s[..k] + rep + s[k + |pat|..]
    decreases k
  {
    if k == 0 {
      ReplaceFirstAtStart(s, pat, rep);
    } else {
      NoOccurrenceTail(s, pat, k);
      ReplaceFirstSkip(s, pat, rep);
      ReplaceFirstAt(s[1..], pat, rep, k - 1);
      ConsSlices(s, k, |pat|, rep);
    }
  }

  /** An occurrence at the very start is the one replaced. */
  lemma ReplaceFirstAtStart(s: string, pat: string, rep: string)
    requires OccursAt(s, pat, 0)
    ensures ReplaceFirst(s, pat, rep) == s[..0] + rep + s[|pat|..]
  {
    assert s[0..|pat|] == s[..|pat|];
    assert pat <= s;
    assert s[..0] + rep == rep;
  }

  /** Without an occurrence at the start, the first character is kept and the search goes on in the tail. */
  lemma ReplaceFirstSkip(s: string, pat: string, rep: string)
    requires s != [] && !(pat <= s)
    ensures ReplaceFirst(s, pat, rep) == [s[0]] + ReplaceFirst(s[1..], pat, rep)
  {
  }

  /** The first occurrence at `k > 0`: none at the start, and in the tail the first one is at `k - 1`. */
  lemma NoOccurrenceTail(s: string, pat: string, k: nat)
    requires 0 < k && OccursAt(s, pat, k) && NoOccurrenceBefore(s, pat, k)
    ensures s != [] && !(pat <= s)
    ensures OccursAt(s[1..], pat, k - 1) && NoOccurrenceBefore(s[1..], pat, k - 1)
  {
    assert !OccursAt(s, pat, 0);
    assert s[0..|pat|] == s[..|pat|];
    var t := s[1..];
    assert t[k - 1..k - 1 + |pat|] == s[k..k + |pat|];
    forall j: nat | j < k - 1 ensures !OccursAt(t, pat, j) {
      assert !OccursAt(s, pat, j + 1);
      if j + |pat| <= |t| {
        assert t[j..j + |pat|] == s[j + 1..j + 1 + |pat|];
      }
    }
  }

  /** The head of `s` put back in front of the tail's slices around `rep`. */
  lemma ConsSlices(s: string, k: nat, n: nat, rep: string)
    requires 0 < k && k + n <= |s|
    ensures [s[0]] + (s[1..][..k - 1] + rep + s[1..][k - 1 + n..]) == s[..k] + rep + s[k + n..]
  {
    var a, c := s[1..][..k - 1], s[1..][k - 1 + n..];
    assert a == s[1..k] && c == s[k + n..];
    AppendAssoc([s[0]], a + rep, c);
    AppendAssoc([s[0]], a, rep);
    assert [s[0]] + a == s[..k];
  }

  function DigitsValue(s: string): (n: nat)
    requires AllDigits(s)
    decreases |s|
  {
    if s == [] then 0 else DigitsValue(s[..|s| - 1]) * 10 + (s[|s| - 1] as int - '0' as int)
  }

  /**
   * `Number(s)` for the texts a numeric input yields: the empty text is 0, an optional minus
   * followed by decimal digits is that integer, anything else is `NaN` (None).
   */
  function NumberOf(s: string): (r: Option<int>)
    ensures s == "" ==> r == Some(0)
    ensures s != "" && AllDigits(s) ==> r == Some(DigitsValue(s))
    ensures r.Some? && s != "" ==> AllDigits(s) || (s[0] == '-' && |s| > 1)
  {
    if s == "" then Some(0)
    else if AllDigits(s) then Some(DigitsValue(s))
    else if s[0] == '-' && |s| > 1 && AllDigits(s[1..]) then var v: int := DigitsValue(s[1..]); Some(-v)
    else None
  }

  /** The leading run of decimal digits of `s`. */
  function LeadingDigits(s: string): (r: string)
    ensures r <= s && AllDigits(r)
    ensures AllDigits(s) ==> r == s
    decreases |s|
  {
    if s != [] && IsDigit(s[0]) then [s[0]] + LeadingDigits(s[1..]) else []
  }

  /**
   * `parseFloat(s)` on text without sign, decimal point, exponent or leading white space: the
   * value of the leading digits, `NaN` (None) when there are none.
   */
  function ParseFloat(s: string): (r: Option<int>)
    ensures s != "" && AllDigits(s) ==> r == Some(DigitsValue(s))
    ensures s == "" || !IsDigit(s[0]) ==> r == None
  {
    var d := LeadingDigits(s);
    if d == "" then None else Some(DigitsValue(d))
  }

  function DigitChar(d: nat): char
    requires d < 10
  {
    ('0' as int + d) as char
  }

  /** `n.toString()` for a natural number. */
  function NatToString(n: nat): (r: string)
    ensures r != [] && AllDigits(r)
    ensures DigitsValue(r) == n
    decreases n
  {
    if n < 10 then [DigitChar(n)]
    else
      var r := NatToString(n / 10) + [DigitChar(n % 10)];
      assert r[..|r| - 1] == NatToString(n / 10);
      r
  }

  /** `i.toString()` for any integer. */
  function IntToString(i: int): (r: string)
    ensures r != []
    ensures NumberOf(r) == Some(i)
  {
    if i >= 0 then NatToString(i)
    else
      var r := "-" + NatToString(-i);
      assert r[1..] == NatToString(-i);
      assert !IsDigit(r[0]);
      r
  }

  /** `parts.join(sep)`. */
  function JoinWith(parts: seq<string>, sep: string): (r: string)
    decreases |parts|
  {
    if |parts| == 0 then []
    else if |parts| == 1 then parts[0]
    else parts[0] + sep + JoinWith(parts[1..], sep)
  }

  /** `parts.join('')`. */
  function Concat(parts: seq<string>): (r: string)
    decreases |parts|
  {
    if parts == [] then [] else parts[0] + Concat(parts[1..])
  }
}
