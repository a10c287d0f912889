/**
 * The Python `str` builtins the core relies on, restricted to ASCII text:
 * `strip`, `upper`, `lower`, `isspace`, `isdigit`, `zfill`, `split()[0]`,
 * `replace(" ", "")`, `startswith`, `in` on strings, and the regular
 * expression word boundary `\b`.
 */
module Text {
  import opened Wrappers

  /** `str.isspace()` on one ASCII character: space, \t \n \v \f \r and the separators 0x1c-0x1f. */
  predicate IsSpace(c: char) {
    c == ' ' || 9 <= c as int <= 13 || 28 <= c as int <= 31
  }

  predicate IsDigit(c: char) { '0' <= c <= '9' }

  predicate IsUpperLetter(c: char) { 'A' <= c <= 'Z' }

  predicate IsLowerLetter(c: char) { 'a' <= c <= 'z' }

  /** A word character of a regular expression: letters, digits and the underscore. */
  predicate IsWordChar(c: char) {
    IsDigit(c) || IsUpperLetter(c) || IsLowerLetter(c) || c == '_'
  }

  /** `str.isdigit()`: non-empty and every character a digit. */
  predicate IsAllDigits(s: string) {
    |s| > 0 && forall i :: 0 <= i < |s| ==> IsDigit(s[i])
  }

  /** Only whitespace (the empty string included): what `^\s*$` matches. */
  predicate IsBlank(s: string) {
    forall i :: 0 <= i < |s| ==> IsSpace(s[i])
  }

  function UpperChar(c: char): (d: char)
    ensures IsSpace(d) <==> IsSpace(c)
    ensures IsDigit(d) <==> IsDigit(c)
    ensures !IsLowerLetter(d)
    ensures d == ' ' <==> c == ' '
    ensures !IsLowerLetter(c) ==> d == c
  {
    if IsLowerLetter(c) then (c as int - 32) as char else c
  }

  function LowerChar(c: char): (d: char)
    ensures !IsUpperLetter(d)
    ensures !IsUpperLetter(c) ==> d == c
  {
    if IsUpperLetter(c) then (c as int + 32) as char else c
  }

  /** `str.upper()` on ASCII text. */
  function Upper(s: string): (r: string)
    ensures |r| == |s|
  {
    seq(|s|, i requires 0 <= i < |s| => UpperChar(s[i]))
  }

  /** `str.lower()` on ASCII text. */
  function Lower(s: string): (r: string)
    ensures |r| == |s|
  {
    seq(|s|, i requires 0 <= i < |s| => LowerChar(s[i]))
  }

  /** `str.lstrip()`. */
  function TrimLeft(s: string): (r: string)
    ensures |r| <= |s| && r == s[|s| - |r|..]
    ensures r == [] || !IsSpace(r[0])
    ensures forall i :: 0 <= i < |s| - |r| ==> IsSpace(s[i])
  {
    if |s| > 0 && IsSpace(s[0]) then TrimLeft(s[1..]) else s
  }

  /** `str.rstrip()`. */
  function TrimRight(s: string): (r: string)
    ensures |r| <= |s| && r == s[..|r|]
    ensures r == [] || !IsSpace(r[|r| - 1])
    ensures forall i :: |r| <= i < |s| ==> IsSpace(s[i])
  {
    if |s| > 0 && IsSpace(s[|s| - 1]) then TrimRight(s[..|s| - 1]) else s
  }

  /** `str.strip()`. */
  function Strip(s: string): string {
    TrimRight(TrimLeft(s))
  }

  /** `str(v).strip().upper()`, the canonical text form used throughout the source. */
  function StripUpper(s: string): string {
    Upper(Strip(s))
  }

  /** `s.replace(" ", "")`: only the space character is removed. */
  function RemoveSpaces(s: string): (r: string)
    ensures |r| <= |s|
    ensures forall i :: 0 <= i < |r| ==> r[i] != ' '
  {
    if s == [] then [] else (if s[0] == ' ' then [] else [s[0]]) + RemoveSpaces(s[1..])
  }

  function Zeros(n: nat): (z: string)
    ensures |z| == n && forall i :: 0 <= i < n ==> z[i] == '0'
  {
    seq(n, _ => '0')
  }

  /** `s.zfill(w)`: pads with '0' on the left; a leading sign stays in front of the padding. */
  function ZFill(s: string, w: nat): string {
    if |s| >= w then s
    else if |s| > 0 && (s[0] == '+' || s[0] == '-') then [s[0]] + Zeros(w - |s|) + s[1..]
    else Zeros(w - |s|) + s
  }

  /** `sub in s`. */
  function Contains(s: string, sub: string): bool
    decreases |s|
  {
    sub <= s || (|s| > 0 && Contains(s[1..], sub))
  }

  /** `s.startswith(p)`. */
  predicate StartsWith(s: string, p: string) { p <= s }

  /** `s.startswith(tuple(ps))`. */
  predicate StartsWithAny(s: string, ps: seq<string>) {
    exists k :: 0 <= k < |ps| && StartsWith(s, ps[k])
  }

  /** `w` occurs at position `i` of `s` with a word boundary `\b` on each side. */
  predicate WordAt(s: string, i: nat, w: string) {
    i + |w| <= |s| && w <= s[i..]
    && (i == 0 || !IsWordChar(s[i - 1]))
    && (i + |w| == |s| || !IsWordChar(s[i + |w|]))
  }

  function HasWordFrom(s: string, i: nat, w: string): bool
    decreases |s| + 1 - i
  {
    i <= |s| && (WordAt(s, i, w) || HasWordFrom(s, i + 1, w))
  }

  /** `re.search(r"\b" + w + r"\b", s)` for a literal word `w`. */
  function ContainsWord(s: string, w: string): bool {
    HasWordFrom(s, 0, w)
  }

  function WordEnd(s: string, i: nat): (j: nat)
    requires i <= |s|
    ensures i <= j <= |s|
    ensures forall k :: i <= k < j ==> !IsSpace(s[k])
    ensures j == |s| || IsSpace(s[j])
    decreases |s| - i
  {
    if i < |s| && !IsSpace(s[i]) then WordEnd(s, i + 1) else i
  }

  /** `s.split()[0]` when `s.split()` is non-empty, None when it is empty. */
  function FirstWord(s: string): (r: Option<string>)
    ensures r.Some? ==> |r.value| > 0 && forall k :: 0 <= k < |r.value| ==> !IsSpace(r.value[k])
  {
    var t := TrimLeft(s);
    if t == [] then None else Some(t[..WordEnd(t, 0)])
  }

  // ---------------------------------------------------------------------
  // Facts about the builtins.

  lemma StripBlank(s: string)
    ensures Strip(s) == [] <==> IsBlank(s)
  {
    var t := TrimLeft(s);
    if Strip(s) == [] {
      assert t == [];
    } else {
      var r := Strip(s);
      assert r[0] == s[|s| - |t|];
    }
  }

  /** A stripped non-empty string has no whitespace at either end. */
  lemma StripEdges(s: string)
    ensures Strip(s) != [] ==> !IsSpace(Strip(s)[0]) && !IsSpace(Strip(s)[|Strip(s)| - 1])
  {
    var t := TrimLeft(s);
    if Strip(s) != [] {
      assert Strip(s)[0] == t[0];
    }
  }

  /** Strip leaves alone a string with no whitespace at its ends. */
  lemma StripFixes(s: string)
    requires s == [] || (!IsSpace(s[0]) && !IsSpace(s[|s| - 1]))
    ensures Strip(s) == s
  {
  }

  lemma UpperIdempotent(s: string)
    ensures Upper(Upper(s)) == Upper(s)
  {
  }

  lemma UpperEdges(s: string)
    ensures |s| > 0 ==> (IsSpace(Upper(s)[0]) <==> IsSpace(s[0]))
    ensures |s| > 0 ==> (IsSpace(Upper(s)[|s| - 1]) <==> IsSpace(s[|s| - 1]))
  {
  }

  /** `str(v).strip().upper()` is a fixed point of itself. */
  lemma StripUpperCanonical(s: string)
    ensures Strip(StripUpper(s)) == StripUpper(s)
    ensures Upper(StripUpper(s)) == StripUpper(s)
    ensures StripUpper(StripUpper(s)) == StripUpper(s)
  {
    StripEdges(s);
    UpperEdges(Strip(s));
    StripFixes(StripUpper(s));
    UpperIdempotent(Strip(s));
  }

  lemma StripUpperBlank(s: string)
    ensures StripUpper(s) == [] <==> IsBlank(s)
  {
    StripBlank(s);
  }

  lemma UpperPreservesAllDigits(s: string)
    ensures IsAllDigits(Upper(s)) <==> IsAllDigits(s)
  {
    if IsAllDigits(Upper(s)) {
      forall i | 0 <= i < |s| ensures IsDigit(s[i]) {
        assert IsDigit(Upper(s)[i]);
      }
    }
  }

  lemma ZFillLength(s: string, w: nat)
    ensures |ZFill(s, w)| == if |s| >= w then |s| else w
  {
  }

  /** Without a leading sign, zfill only prepends zeros. */
  lemma ZFillUnsigned(s: string, w: nat)
    requires |s| == 0 || (s[0] != '+' && s[0] != '-')
    ensures ZFill(s, w) == Zeros(if |s| >= w then 0 else w - |s|) + s
  {
    if |s| >= w {
      assert Zeros(0) + s == s;
    }
  }

  lemma RemoveSpacesAppend(a: string, b: string)
    ensures RemoveSpaces(a + b) == RemoveSpaces(a) + RemoveSpaces(b)
  {
    if a == [] {
      assert a + b == b;
    } else {
      assert (a + b)[1..] == a[1..] + b;
      RemoveSpacesAppend(a[1..], b);
    }
  }

  /** Removing spaces from text that has none changes nothing. */
  lemma RemoveSpacesNone(s: string)
    requires forall i :: 0 <= i < |s| ==> s[i] != ' '
    ensures RemoveSpaces(s) == s
  {
    if s != [] {
      RemoveSpacesNone(s[1..]);
    }
  }

  lemma UpperNoSpace(s: string)
    requires forall i :: 0 <= i < |s| ==> s[i] != ' '
    ensures forall i :: 0 <= i < |Upper(s)| ==> Upper(s)[i] != ' '
  {
  }

  /** Text with no lower-case letter and no whitespace at either end. */
  predicate Canonical(v: string) {
    (forall i :: 0 <= i < |v| ==> !IsLowerLetter(v[i]))
    && (v == [] || (!IsSpace(v[0]) && !IsSpace(v[|v| - 1])))
  }

  lemma CanonicalFixed(v: string)
    requires Canonical(v)
    ensures StripUpper(v) == v
  {
    StripFixes(v);
  }

  lemma StripUpperIsCanonical(s: string)
    ensures Canonical(StripUpper(s))
  {
    StripEdges(s);
    UpperEdges(Strip(s));
  }
}
