/**
 * The location-code finder: the 4-character code normaliser, the allow-list
 * validator, the free-text token extractor, the combined-address key and the
 * address -> code index built from the master location table.
 */
module LocationCodes {
  import opened Wrappers
  import opened Text
  import opened Dicts

  // ---------------------------------------------------------------------
  // format_code_4

  /**
   * Forces a code into the standard form: None for a missing or blank code;
   * an all-digit code is zero-filled and cut to its LAST four digits; any
   * other code is upper-cased and zero-filled to at least four characters.
   */
  function FormatCode4(code: Option<string>): (r: Option<string>)
    ensures r.None? <==> (code.None? || IsBlank(code.value))
    ensures r.Some? ==> |r.value| >= 4
  {
    if code.None? then None
    else
      StripUpperBlank(code.value);
      var s := StripUpper(code.value);
      if s == "" then None else Some(Pad4(s))
  }

  /** The padding step of format_code_4 on stripped, upper-cased, non-empty text. */
  function Pad4(s: string): (v: string)
    ensures |v| >= 4
  {
    if IsAllDigits(s) then
      var z := ZFill(s, 4);
      z[|z| - 4..]
    else ZFill(s, 4)
  }

  /** An all-digit code becomes exactly four digits: its last four, zero-filled on the left when shorter. */
  lemma Pad4Digits(s: string)
    requires IsAllDigits(s)
    ensures |Pad4(s)| == 4 && IsAllDigits(Pad4(s))
    ensures |s| >= 4 ==> Pad4(s) == s[|s| - 4..]
    ensures |s| < 4 ==> Pad4(s) == Zeros(4 - |s|) + s
  {
    ZFillUnsigned(s, 4);
    var z := ZFill(s, 4);
    if |s| < 4 {
      assert z == Zeros(4 - |s|) + s;
      forall i | 0 <= i < |z| ensures IsDigit(z[i]) {
        if i >= 4 - |s| {
          assert z[i] == s[i - (4 - |s|)];
        }
      }
    } else {
      assert z == s;
    }
  }

  /**
   * Any other non-empty code is zero-filled, never truncated: the result has
   * max(4, |s|) characters; without a leading sign it is zeros followed by
   * `s` (so `s` is a suffix of it), and a leading '+' or '-' stays in front
   * of the zeros ("-5" becomes "-005").
   */
  lemma Pad4Other(s: string)
    requires |s| > 0 && !IsAllDigits(s)
    ensures Pad4(s) == ZFill(s, 4)
    ensures |Pad4(s)| == (if |s| >= 4 then |s| else 4)
    ensures s[0] != '+' && s[0] != '-' ==> Pad4(s) == Zeros(|Pad4(s)| - |s|) + s
    ensures s[0] == '+' || s[0] == '-' ==> Pad4(s)[0] == s[0] && Pad4(s)[|Pad4(s)| - |s| + 1..] == s[1..]
  {
    ZFillLength(s, 4);
    if s[0] != '+' && s[0] != '-' {
      ZFillUnsigned(s, 4);
    } else if |s| < 4 {
      var z := [s[0]] + Zeros(4 - |s|) + s[1..];
      assert ZFill(s, 4) == z;
      assert z[|z| - |s| + 1..] == s[1..];
    }
  }

  lemma Pad4Canonical(s: string)
    requires s != [] && Canonical(s)
    ensures Canonical(Pad4(s))
    ensures !IsAllDigits(s) ==> !IsAllDigits(Pad4(s))
  {
    var v := Pad4(s);
    if IsAllDigits(s) {
      Pad4Digits(s);
    } else if |s| >= 4 {
      Pad4Other(s);
      assert v == s;
    } else {
      Pad4Other(s);
      var z := Zeros(4 - |s|);
      if s[0] != '+' && s[0] != '-' {
        assert v == z + s;
        ConcatNoLower(z, s);
        var i :| 0 <= i < |s| && !IsDigit(s[i]);
        assert v[|z| + i] == s[i];
        assert v[|v| - 1] == s[|s| - 1];
      } else {
        var t := s[1..];
        assert v == [s[0]] + (z + t);
        ConcatNoLower(z, t);
        ConcatNoLower([s[0]], z + t);
        if |s| > 1 {
          assert v[|v| - 1] == s[|s| - 1];
        }
      }
    }
  }

  /** A concatenation of texts without lower-case letters has none. */
  lemma ConcatNoLower(a: string, b: string)
    requires forall i :: 0 <= i < |a| ==> !IsLowerLetter(a[i])
    requires forall i :: 0 <= i < |b| ==> !IsLowerLetter(b[i])
    ensures forall i :: 0 <= i < |a + b| ==> !IsLowerLetter((a + b)[i])
  {
    forall i | 0 <= i < |a + b| ensures !IsLowerLetter((a + b)[i]) {
      if i < |a| { assert (a + b)[i] == a[i]; } else { assert (a + b)[i] == b[i - |a|]; }
    }
  }

  lemma Pad4Idempotent(s: string)
    requires s != [] && Canonical(s)
    ensures Pad4(Pad4(s)) == Pad4(s)
  {
    var v := Pad4(s);
    Pad4Canonical(s);
    if IsAllDigits(s) {
      Pad4Digits(s);
      Pad4Digits(v);
    } else {
      Pad4Other(s);
      Pad4Other(v);
    }
  }

  /** On non-blank input, format_code_4 is Pad4 of the stripped, upper-cased text. */
  lemma FormatCode4OfText(code: Option<string>)
    requires code.Some? && !IsBlank(code.value)
    ensures StripUpper(code.value) != []
    ensures FormatCode4(code) == Some(Pad4(StripUpper(code.value)))
  {
    StripUpperBlank(code.value);
  }

  lemma FormatCode4IsCanonical(code: Option<string>)
    requires FormatCode4(code).Some?
    ensures Canonical(FormatCode4(code).value)
  {
    StripUpperIsCanonical(code.value);
    Pad4Canonical(StripUpper(code.value));
  }

  /** format_code_4 is idempotent on its non-None results. */
  lemma FormatCode4Idempotent(code: Option<string>)
    requires FormatCode4(code).Some?
    ensures FormatCode4(FormatCode4(code)) == FormatCode4(code)
  {
    var s := StripUpper(code.value);
    var v := FormatCode4(code).value;
    StripUpperIsCanonical(code.value);
    Pad4Canonical(s);
    CanonicalFixed(v);
    StripUpperBlank(v);
    Pad4Idempotent(s);
  }

  /** The all-digit examples of the source's docstring. */
  lemma Pad4DigitExamples()
    ensures Pad4("95") == "0095" && Pad4("0000095") == "0095"
  {
    Pad4Digits("95");
    assert Zeros(2) + "95" == "0095";
  }

  /** The alphanumeric examples of the source's docstring, and a signed code. */
  lemma Pad4AlnumExamples()
    ensures Pad4("T60") == "0T60" && Pad4("-5") == "-005"
  {
    assert !IsDigit("T60"[0]) && !IsDigit("-5"[0]);
  }

  /** Surrounding whitespace and case do not matter; blank text gives None. */
  lemma FormatCode4Examples()
    ensures FormatCode4(Some(" 11k ")) == Some("011K")
    ensures FormatCode4(Some(" ")) == None
  {
    assert TrimLeft(" 11k ") == "11k ";
    assert TrimRight("11k ") == "11k";
    assert Upper("11k") == "11K";
    assert !IsDigit("11K"[2]);
    FormatsAs(" 11k ", "11K", "011K");
    assert IsBlank(" ");
  }

  lemma FormatsAs(code: string, s: string, v: string)
    requires StripUpper(code) == s && s != [] && Pad4(s) == v
    ensures FormatCode4(Some(code)) == Some(v)
  {
    StripUpperBlank(code);
  }
  // ---------------------------------------------------------------------
  // combine_addr

  /**
   * The combined-address key: first word of the street, first word of the
   * city and the whole state, concatenated without spaces and upper-cased;
   * None when any part is missing or blank.
   */
  function CombineAddr(street: Option<string>, city: Option<string>, state: Option<string>): Option<string> {
    if street.None? || city.None? || state.None? then None
    else
      var st := Strip(street.value);
      var ct := Strip(city.value);
      var ss := Strip(state.value);
      if st == "" || ct == "" || ss == "" then None
      else
        match (FirstWord(st), FirstWord(ct))
        case (Some(a), Some(b)) => Some(Upper(RemoveSpaces(a + b + ss)))
        case _ => None
  }

  /** The first word of stripped non-empty text always exists, so the `not street_parts` test never fires. */
  lemma FirstWordOfStripped(s: string)
    requires Strip(s) != []
    ensures FirstWord(Strip(s)).Some?
  {
    StripEdges(s);
  }

  /** The key is absent exactly when one of the three parts is missing or blank. */
  lemma CombineAddrAbsent(street: Option<string>, city: Option<string>, state: Option<string>)
    ensures CombineAddr(street, city, state).None? <==>
            (street.None? || city.None? || state.None?
             || IsBlank(street.value) || IsBlank(city.value) || IsBlank(state.value))
  {
    if street.Some? && city.Some? && state.Some? {
      StripBlank(street.value);
      StripBlank(city.value);
      StripBlank(state.value);
      if Strip(street.value) != [] && Strip(city.value) != [] {
        FirstWordOfStripped(street.value);
        FirstWordOfStripped(city.value);
      }
    }
  }

  /** The parts a present key is built from. */
  lemma CombineAddrParts(street: Option<string>, city: Option<string>, state: Option<string>)
    requires CombineAddr(street, city, state).Some?
    ensures FirstWord(Strip(street.value)).Some? && FirstWord(Strip(city.value)).Some? && Strip(state.value) != []
    ensures CombineAddr(street, city, state).value
            == Upper(RemoveSpaces(FirstWord(Strip(street.value)).value + FirstWord(Strip(city.value)).value
                                  + Strip(state.value)))
  {
  }

  lemma RemoveSpacesKeepsLast(s: string)
    requires |s| > 0 && s[|s| - 1] != ' '
    ensures |RemoveSpaces(s)| > 0 && RemoveSpaces(s)[|RemoveSpaces(s)| - 1] == s[|s| - 1]
  {
    var n := |s| - 1;
    assert s == s[..n] + [s[n]];
    RemoveSpacesAppend(s[..n], [s[n]]);
    assert RemoveSpaces([s[n]]) == [s[n]];
  }

  /** Removing the spaces of two words and a state keeps the words and the state's last character. */
  lemma JoinedParts(a: string, b: string, ss: string)
    requires forall k :: 0 <= k < |a| ==> !IsSpace(a[k])
    requires forall k :: 0 <= k < |b| ==> !IsSpace(b[k])
    requires |ss| > 0 && !IsSpace(ss[|ss| - 1])
    ensures RemoveSpaces(a + b + ss) == a + b + RemoveSpaces(ss)
    ensures |RemoveSpaces(ss)| > 0 && RemoveSpaces(ss)[|RemoveSpaces(ss)| - 1] == ss[|ss| - 1]
  {
    RemoveSpacesNone(a);
    RemoveSpacesNone(b);
    RemoveSpacesAppend(a + b, ss);
    RemoveSpacesAppend(a, b);
    RemoveSpacesKeepsLast(ss);
  }

  /** A text without spaces or edge whitespace, already upper-case, is its own lookup key. */
  lemma LookupKeyFixed(j: string)
    requires |j| > 0 && !IsSpace(j[0]) && !IsSpace(j[|j| - 1])
    requires forall k :: 0 <= k < |j| ==> j[k] != ' '
    ensures LookupKey(Upper(j)) == Upper(j)
  {
    var k := Upper(j);
    UpperNoSpace(j);
    RemoveSpacesNone(k);
    UpperIdempotent(j);
    UpperEdges(j);
    StripFixes(k);
  }

  lemma UpperPrefix(a: string, rest: string)
    ensures Upper(a) <= Upper(a + rest)
  {
    assert forall i :: 0 <= i < |a| ==> Upper(a + rest)[i] == Upper(a)[i];
  }

  /** The shape of a key joined from a first word, a second word and a stripped state. */
  lemma JoinedKeyShape(a: string, b: string, ss: string)
    requires |a| > 0 && forall k :: 0 <= k < |a| ==> !IsSpace(a[k])
    requires forall k :: 0 <= k < |b| ==> !IsSpace(b[k])
    requires |ss| > 0 && !IsSpace(ss[|ss| - 1])
    ensures var k := Upper(RemoveSpaces(a + b + ss));
            && |k| > 0
            && (forall i :: 0 <= i < |k| ==> k[i] != ' ')
            && Upper(a) <= k
            && LookupKey(k) == k
  {
    JoinedParts(a, b, ss);
    var rest := b + RemoveSpaces(ss);
    var j := a + rest;
    assert RemoveSpaces(a + b + ss) == j;
    assert j[0] == a[0] && j[|j| - 1] == ss[|ss| - 1];
    LookupKeyFixed(j);
    UpperNoSpace(j);
    UpperPrefix(a, rest);
  }

  /**
   * A key is non-empty, has no space, starts with the upper-cased first word
   * of the street and has no whitespace at either end, so the normalisation
   * applied by a lookup leaves it unchanged.
   */
  lemma CombineAddrShape(street: Option<string>, city: Option<string>, state: Option<string>)
    requires CombineAddr(street, city, state).Some?
    ensures var k := CombineAddr(street, city, state).value;
            && |k| > 0
            && (forall i :: 0 <= i < |k| ==> k[i] != ' ')
            && Upper(FirstWord(Strip(street.value)).value) <= k
            && LookupKey(k) == k
  {
    CombineAddrParts(street, city, state);
    StripEdges(state.value);
    JoinedKeyShape(FirstWord(Strip(street.value)).value, FirstWord(Strip(city.value)).value, Strip(state.value));
  }

  /** "100 Main St" has the first word "100". */
  lemma FirstWordExample()
    ensures FirstWord("100 Main St") == Some("100")
  {
    var s := "100 Main St";
    assert TrimLeft(s) == s;
    assert WordEnd(s, 0) == WordEnd(s, 1) == WordEnd(s, 2) == WordEnd(s, 3) == 3;
    assert s[..3] == "100";
  }

  // The token scans of extract_from_text

  /** A character of `[A-Z0-9]`. */
  predicate IsTokenChar(c: char) { IsDigit(c) || IsUpperLetter(c) }

  /** A non-empty run of `[A-Z0-9]`. */
  predicate IsRun(tok: string) {
    |tok| > 0 && forall k :: 0 <= k < |tok| ==> IsTokenChar(tok[k])
  }

  function RunEnd(t: string, i: nat): (j: nat)
    requires i <= |t|
    ensures i <= j <= |t|
    ensures forall k :: i <= k < j ==> IsTokenChar(t[k])
    ensures j == |t| || !IsTokenChar(t[j])
    decreases |t| - i
  {
    if i < |t| && IsTokenChar(t[i]) then RunEnd(t, i + 1) else i
  }

  /** `re.findall(r"[A-Z0-9]+", t[i..])`: the maximal runs, left to right. */
  function AlnumRuns(t: string, i: nat): (runs: seq<string>)
    requires i <= |t|
    ensures forall k :: 0 <= k < |runs| ==> IsRun(runs[k])
    decreases |t| - i
  {
    if i == |t| then []
    else if !IsTokenChar(t[i]) then AlnumRuns(t, i + 1)
    else
      var j := RunEnd(t, i);
      [t[i..j]] + AlnumRuns(t, j)
  }

  /** The number of digits `t[i..]` starts with, at most `n`. */
  function DigitEnd(t: string, i: nat, n: nat): (j: nat)
    requires i <= |t|
    ensures i <= j <= |t| && j - i <= n
    ensures forall k :: i <= k < j ==> IsDigit(t[k])
    ensures n > 0 && i < |t| && IsDigit(t[i]) ==> j > i
    decreases n
  {
    if n > 0 && i < |t| && IsDigit(t[i]) then DigitEnd(t, i + 1, n - 1) else i
  }

  function LetterEnd(t: string, i: nat, n: nat): (j: nat)
    requires i <= |t|
    ensures i <= j <= |t| && j - i <= n
    ensures forall k :: i <= k < j ==> IsUpperLetter(t[k])
    decreases n
  {
    if n > 0 && i < |t| && IsUpperLetter(t[i]) then LetterEnd(t, i + 1, n - 1) else i
  }

  function LeadingDigits(s: string): (d: nat)
    ensures d <= |s|
  {
    if |s| > 0 && IsDigit(s[0]) then 1 + LeadingDigits(s[1..]) else 0
  }

  /** The shape `\d{1,4}[A-Z]{0,2}`: one to four digits, then at most two letters. */
  predicate IsCodeShape(tok: string) {
    var d := LeadingDigits(tok);
    1 <= d <= 4 && |tok| - d <= 2 && forall k :: d <= k < |tok| ==> IsUpperLetter(tok[k])
  }

  lemma {:induction false} LeadingDigitsExact(s: string, d: nat)
    requires d <= |s|
    requires forall k :: 0 <= k < d ==> IsDigit(s[k])
    requires d == |s| || !IsDigit(s[d])
    ensures LeadingDigits(s) == d
  {
    if d > 0 {
      LeadingDigitsExact(s[1..], d - 1);
    }
  }

  /**
   * `re.findall(r"\d{1,4}[A-Z]{0,2}|\d{1,4}", t[i..])`: at each digit, the
   * longest match of up to four digits followed by up to two letters; the
   * scan resumes after the match. The second alternative never matches where
   * the first does not.
   */
  function CodeShapes(t: string, i: nat): (shapes: seq<string>)
    requires i <= |t|
    ensures forall k :: 0 <= k < |shapes| ==> IsCodeShape(shapes[k])
    decreases |t| - i
  {
    if i == |t| then []
    else if !IsDigit(t[i]) then CodeShapes(t, i + 1)
    else
      var d := DigitEnd(t, i, 4);
      var e := LetterEnd(t, d, 2);
      var tok := t[i..e];
      LeadingDigitsExact(tok, d - i);
      [tok] + CodeShapes(t, e)
  }

  /** The candidate tokens of `text`: `set(tokens + extra)` over the upper-cased text. */
  function Tokens(text: string): set<string> {
    var u := Upper(text);
    set t | t in AlnumRuns(u, 0) + CodeShapes(u, 0)
  }

  lemma TokensShape(text: string, t: string)
    requires t in Tokens(text)
    ensures IsRun(t) || IsCodeShape(t)
  {
  }

  /** The scan of `[A-Z0-9]+` from `i` finds every maximal run that starts at or after `i`. */
  lemma {:induction false} RunFound(t: string, i: nat, a: nat, b: nat)
    requires i <= a < b <= |t|
    requires forall k :: a <= k < b ==> IsTokenChar(t[k])
    requires a == i || !IsTokenChar(t[a - 1])
    requires b == |t| || !IsTokenChar(t[b])
    ensures t[a..b] in AlnumRuns(t, i)
    decreases |t| - i
  {
    if i == a {
      var j := RunEnd(t, i);
      assert j == b;
    } else if !IsTokenChar(t[i]) {
      RunFound(t, i + 1, a, b);
    } else {
      var j := RunEnd(t, i);
      assert j <= a - 1;
      RunFound(t, j, a, b);
    }
  }

  /**
   * The code-shape scan from `i` finds a shape at every digit that starts at
   * or after `i` and follows no digit: up to four digits, then up to two
   * letters.
   */
  lemma {:induction false} ShapeFound(t: string, i: nat, a: nat)
    requires i <= a < |t| && IsDigit(t[a])
    requires a == i || !IsDigit(t[a - 1])
    ensures t[a..LetterEnd(t, DigitEnd(t, a, 4), 2)] in CodeShapes(t, i)
    decreases |t| - i
  {
    if i < a {
      if !IsDigit(t[i]) {
        ShapeFound(t, i + 1, a);
      } else {
        var d := DigitEnd(t, i, 4);
        var e := LetterEnd(t, d, 2);
        assert d <= a - 1;
        assert e <= a;
        ShapeFound(t, e, a);
      }
    }
  }

  /** Every maximal `[A-Z0-9]` run of the upper-cased text is a candidate token. */
  lemma TokensHaveRuns(text: string, a: nat, b: nat)
    requires a < b <= |Upper(text)|
    requires forall k :: a <= k < b ==> IsTokenChar(Upper(text)[k])
    requires a == 0 || !IsTokenChar(Upper(text)[a - 1])
    requires b == |Upper(text)| || !IsTokenChar(Upper(text)[b])
    ensures Upper(text)[a..b] in Tokens(text)
  {
    RunFound(Upper(text), 0, a, b);
  }

  /**
   * A code stuck to a word is also a candidate: at a digit that follows no
   * digit, up to four digits and up to two letters after them form a token.
   */
  lemma TokensHaveShapes(text: string, a: nat)
    requires a < |Upper(text)| && IsDigit(Upper(text)[a])
    requires a == 0 || !IsDigit(Upper(text)[a - 1])
    ensures var u := Upper(text); u[a..LetterEnd(u, DigitEnd(u, a, 4), 2)] in Tokens(text)
  {
    ShapeFound(Upper(text), 0, a);
  }

  /** "CINTAS0095" offers both the whole run and the code "0095" stuck to the word. */
  lemma TokensCintasExample()
    ensures "CINTAS0095" in Tokens("CINTAS0095")
    ensures "0095" in Tokens("CINTAS0095")
  {
    var s := "CINTAS0095";
    var u := Upper(s);
    assert forall k :: 0 <= k < |s| ==> !IsLowerLetter(s[k]);
    assert u == s;
    TokensHaveRuns(s, 0, 10);
    assert u[0..10] == s;
    assert DigitEnd(u, 9, 1) == 10;
    assert DigitEnd(u, 8, 2) == 10;
    assert DigitEnd(u, 7, 3) == 10;
    assert DigitEnd(u, 6, 4) == 10;
    TokensHaveShapes(s, 6);
    assert u[6..10] == "0095";
  }

  /** A non-empty finite set of strings has an element of greatest length. */
  lemma {:induction false} LongestExists(s: set<string>)
    requires s != {}
    ensures exists t :: t in s && forall u :: u in s ==> |u| <= |t|
    decreases |s|
  {
    var x :| x in s;
    if s != {x} {
      var rest := s - {x};
      LongestExists(rest);
      var y :| y in rest && forall u :: u in rest ==> |u| <= |y|;
      if |x| <= |y| {
        assert forall u :: u in s ==> |u| <= |y|;
      } else {
        assert forall u :: u in s ==> |u| <= |x|;
      }
    }
  }

  // ---------------------------------------------------------------------
  // The reference sets and the address index

  /**
   * A row of the master location table: the Loc_Address, Loc_City, Loc_ST
   * and Loc Code cells, None for NaN (a missing address column reads as "").
   */
  datatype MasterRow = MasterRow(street: Option<string>, city: Option<string>, state: Option<string>,
                                 locCode: Option<string>)

  /** `astype(str)` of a cell: NaN becomes the text "nan". */
  function CellText(v: Option<string>): string {
    if v.Some? then v.value else "nan"
  }

  function MasterKey(row: MasterRow): Option<string> {
    CombineAddr(row.street, row.city, row.state)
  }

  function MasterCode(row: MasterRow): string {
    StripUpper(CellText(row.locCode))
  }

  /**
   * The (key, code) pair of one master row: a present key is a non-empty
   * text without spaces that the lookup normalisation leaves as it is, and
   * the code is in normal form.
   */
  function MasterPair(row: MasterRow): (p: (Option<string>, string))
    ensures p == (MasterKey(row), MasterCode(row))
    ensures Canonical(p.1)
    ensures p.0.Some? ==> |p.0.value| > 0 && LookupKey(p.0.value) == p.0.value
                          && forall j :: 0 <= j < |p.0.value| ==> p.0.value[j] != ' '
  {
    StripUpperIsCanonical(CellText(row.locCode));
    var key := MasterKey(row);
    assert key.Some? ==> |key.value| > 0 && LookupKey(key.value) == key.value
                         && forall j :: 0 <= j < |key.value| ==> key.value[j] != ' ' by {
      if key.Some? {
        CombineAddrShape(row.street, row.city, row.state);
      }
    }
    (key, MasterCode(row))
  }

  /** The (key, code) pair of each master row, in table order. */
  function MasterPairs(rows: seq<MasterRow>): (pairs: seq<(Option<string>, string)>)
    ensures |pairs| == |rows|
    ensures forall i :: 0 <= i < |rows| ==> pairs[i] == (MasterKey(rows[i]), MasterCode(rows[i]))
    ensures forall i :: 0 <= i < |rows| ==> Canonical(pairs[i].1)
    ensures forall i :: 0 <= i < |rows| && pairs[i].0.Some? ==>
              var k := pairs[i].0.value; |k| > 0 && LookupKey(k) == k && forall j :: 0 <= j < |k| ==> k[j] != ' '
  {
    seq(|rows|, i requires 0 <= i < |rows| => MasterPair(rows[i]))
  }

  /** Whether a pair enters the index: its key is neither None nor "". */
  predicate Keeps(p: (Option<string>, string)) {
    p.0.Some? && p.0.value != ""
  }

  /** `dict((k, c) for k, c in pairs if k not in [None, ""])`: a later pair overwrites an earlier one. */
  function IndexPairs(pairs: seq<(Option<string>, string)>): map<string, string>
    decreases |pairs|
  {
    if |pairs| == 0 then map[]
    else
      var m := IndexPairs(pairs[..|pairs| - 1]);
      var last := pairs[|pairs| - 1];
      if Keeps(last) then m[last.0.value := last.1] else m
  }

  function AddressIndex(rows: seq<MasterRow>): map<string, string> {
    IndexPairs(MasterPairs(rows))
  }

  /** The index holds exactly the keys of the kept pairs. */
  lemma {:induction false} IndexPairsKeys(pairs: seq<(Option<string>, string)>, k: string)
    ensures k in IndexPairs(pairs) <==> k != "" && exists i :: 0 <= i < |pairs| && pairs[i].0 == Some(k)
    decreases |pairs|
  {
    if |pairs| > 0 {
      var init := pairs[..|pairs| - 1];
      IndexPairsKeys(init, k);
      if k != "" && exists i :: 0 <= i < |pairs| && pairs[i].0 == Some(k) {
        var i :| 0 <= i < |pairs| && pairs[i].0 == Some(k);
        if i < |init| { assert init[i] == pairs[i]; }
      }
      if k in IndexPairs(init) {
        var i :| 0 <= i < |init| && init[i].0 == Some(k);
        assert pairs[i] == init[i];
      }
    }
  }

  /** For a key shared by several pairs, the LAST pair's code is the one kept. */
  lemma {:induction false} IndexPairsLastWins(pairs: seq<(Option<string>, string)>, i: nat)
    requires i < |pairs| && Keeps(pairs[i])
    requires forall j :: i < j < |pairs| ==> pairs[j].0 != pairs[i].0
    ensures pairs[i].0.value in IndexPairs(pairs)
    ensures IndexPairs(pairs)[pairs[i].0.value] == pairs[i].1
    decreases |pairs|
  {
    if i < |pairs| - 1 {
      var init := pairs[..|pairs| - 1];
      assert forall j :: i < j < |init| ==> init[j] == pairs[j];
      IndexPairsLastWins(init, i);
    }
  }

  /** A key is in the address index exactly when some master row combines to it. */
  lemma AddressIndexKeys(rows: seq<MasterRow>, k: string)
    ensures k in AddressIndex(rows) <==> k != "" && exists i :: 0 <= i < |rows| && MasterKey(rows[i]) == Some(k)
  {
    var pairs := MasterPairs(rows);
    IndexPairsKeys(pairs, k);
    if k != "" && exists i :: 0 <= i < |rows| && MasterKey(rows[i]) == Some(k) {
      var i :| 0 <= i < |rows| && MasterKey(rows[i]) == Some(k);
      assert pairs[i].0 == Some(k);
    }
  }

  /** The cleaned codes list: `str(c).strip().upper()` of each present cell. */
  function CleanCodes(codes: seq<Option<string>>): (clean: seq<Option<string>>)
    ensures |clean| == |codes|
    ensures forall i :: 0 <= i < |codes| ==> clean[i] == if codes[i].Some? then Some(StripUpper(codes[i].value)) else None
    ensures forall i :: 0 <= i < |codes| ==> (clean[i].None? <==> codes[i].None?)
    ensures forall i :: 0 <= i < |codes| && clean[i].Some? ==> Canonical(clean[i].value)
  {
    assert forall s :: Canonical(StripUpper(s)) by {
      forall s {
        StripUpperIsCanonical(s);
      }
    }
    seq(|codes|, i requires 0 <= i < |codes| => if codes[i].Some? then Some(StripUpper(codes[i].value)) else None)
  }

  /** `set(codes_list)` after dropna, strip and upper. */
  function RawCodes(codes: seq<Option<string>>): set<string> {
    SomeSet(CleanCodes(codes))
  }

  /** The raw set holds exactly the cleaned forms of the present cells. */
  lemma RawCodesMembers(codes: seq<Option<string>>, c: string)
    ensures c in RawCodes(codes) <==> exists i :: 0 <= i < |codes| && codes[i].Some? && StripUpper(codes[i].value) == c
  {
    var clean := CleanCodes(codes);
    SomeSetMembers(clean, c);
    if exists i :: 0 <= i < |codes| && codes[i].Some? && StripUpper(codes[i].value) == c {
      var i :| 0 <= i < |codes| && codes[i].Some? && StripUpper(codes[i].value) == c;
      assert clean[i] == Some(c);
    }
  }

  /** format_code_4 of a raw code. */
  function FormatRaw(c: string): Option<string> {
    FormatCode4(Some(c))
  }

  /** The set built by `for c in raw_set: f = format_code_4(c); if f: fmt4_set.add(f)`. */
  function FormattedCodes(raw: set<string>): set<string> {
    OptionImage(raw, FormatRaw)
  }

  /** The loop of __init__ that cleans the codes list. */
  method BuildRawCodes(codesList: seq<Option<string>>) returns (raw: set<string>)
    ensures raw == RawCodes(codesList)
  {
    raw := {};
    ghost var clean := CleanCodes(codesList);
    var i := 0;
    while i < |codesList|
      invariant 0 <= i <= |codesList|
      invariant raw == SomeSet(clean[..i])
    {
      assert clean[..i + 1][..i] == clean[..i];
      if codesList[i].Some? {
        raw := raw + {StripUpper(codesList[i].value)};
      }
      i := i + 1;
    }
    assert clean[..i] == clean;
  }

  /** A loop adding the truthy results of `f` over a set, as __init__ does with format_code_4. */
  method CollectTruthy<A>(s: set<A>, f: A -> Option<string>) returns (out: set<string>)
    requires forall x :: x in s && f(x).Some? ==> f(x).value != ""
    ensures out == OptionImage(s, f)
  {
    out := {};
    var remaining := s;
    while remaining != {}
      invariant remaining <= s
      invariant out == OptionImage(s - remaining, f)
      decreases remaining
    {
      var c :| c in remaining;
      var v := f(c);
      OptionImageAdd(s - remaining, c, f);
      assert (s - remaining) + {c} == s - (remaining - {c});
      if v.Some? && v.value != "" {
        out := out + {v.value};
      }
      remaining := remaining - {c};
    }
    assert s - remaining == s;
  }

  /** The loop of __init__ that formats every raw code. */
  method BuildFormattedCodes(raw: set<string>) returns (fmt4: set<string>)
    ensures fmt4 == FormattedCodes(raw)
  {
    assert forall x :: x in raw && FormatRaw(x).Some? ==> |FormatRaw(x).value| >= 4;
    fmt4 := CollectTruthy(raw, FormatRaw);
  }

  /** The dict comprehension of __init__: pairs in order, skipping a key that is None or "". */
  method CollectIndex(pairs: seq<(Option<string>, string)>) returns (index: map<string, string>)
    ensures index == IndexPairs(pairs)
  {
    index := map[];
    var j := 0;
    while j < |pairs|
      invariant 0 <= j <= |pairs|
      invariant index == IndexPairs(pairs[..j])
    {
      assert pairs[..j + 1][..j] == pairs[..j];
      if pairs[j].0.Some? && pairs[j].0.value != "" {
        index := index[pairs[j].0.value := pairs[j].1];
      }
      j := j + 1;
    }
    assert pairs[..j] == pairs;
  }

  /** address_to_code: the master keys zipped with the master codes. */
  method BuildAddressIndex(masterTable: seq<MasterRow>) returns (index: map<string, string>)
    ensures index == AddressIndex(masterTable)
  {
    var pairs := MasterPairs(masterTable);
    index := CollectIndex(pairs);
  }

  /**
   * The finder: the allowed codes in raw and in 4-character form and the
   * address index, built once by the constructor and only read afterwards.
   */
  class LocationCodesFinder {
    const codesSetRaw: set<string>
    const codesSet4: set<string>
    const addressToCode: map<string, string>

    /** codes_set_4 holds the formatted form of every raw code. */
    ghost predicate Valid() {
      codesSet4 == FormattedCodes(codesSetRaw)
    }

    constructor (masterTable: seq<MasterRow>, codesList: seq<Option<string>>)
      ensures Valid()
      ensures codesSetRaw == RawCodes(codesList)
      ensures codesSet4 == FormattedCodes(RawCodes(codesList))
      ensures addressToCode == AddressIndex(masterTable)
    {
      var raw := BuildRawCodes(codesList);
      var fmt4 := BuildFormattedCodes(raw);
      var index := BuildAddressIndex(masterTable);
      codesSetRaw := raw;
      codesSet4 := fmt4;
      addressToCode := index;
    }

    /**
     * validate_code_in_list: the formatted code when it is allowed, else
     * None. The second test, against the raw set, returns the same formatted
     * code.
     */
    function ValidateCodeInList(code: Option<string>): (r: Option<string>)
      ensures r.Some? ==> r == FormatCode4(code)
      ensures r.Some? ==> r.value in codesSet4 || StripUpper(code.value) in codesSetRaw
      ensures Valid() ==> (r.Some? <==> FormatCode4(code).Some? && FormatCode4(code).value in codesSet4)
    {
      var formatted := FormatCode4(code);
      if formatted.None? then None
      else if formatted.value in codesSet4 then formatted
      else
        var raw := StripUpper(code.value);
        StripUpperCanonical(code.value);
        assert Valid() && raw in codesSetRaw && FormatCode4(Some(raw)).Some? ==> FormatCode4(Some(raw)).value in codesSet4 by {
          if Valid() && raw in codesSetRaw && FormatCode4(Some(raw)).Some? {
            RawFormatted(this, raw);
          }
        }
        if raw in codesSetRaw then FormatCode4(Some(raw)) else None
    }

    /** extract_from_org_dest_type: each field validated on its own. */
    function ExtractFromOrgDestType(orgTypeCode: Option<string>, destTypeCode: Option<string>)
      : (r: (Option<string>, Option<string>))
      ensures r.0.Some? ==> r.0 == FormatCode4(orgTypeCode)
      ensures r.1.Some? ==> r.1 == FormatCode4(destTypeCode)
    {
      (ValidateCodeInList(orgTypeCode), ValidateCodeInList(destTypeCode))
    }

    /** extract_from_address: the formatted code stored under the normalised key. */
    function ExtractFromAddress(combined: Option<string>): (r: Option<string>)
      ensures r.Some? ==> combined.Some? && LookupKey(combined.value) in addressToCode
                          && r == FormatCode4(Some(addressToCode[LookupKey(combined.value)]))
    {
      if combined.None? then None
      else
        var key := LookupKey(combined.value);
        if key == "" then None
        else FormatCode4(if key in addressToCode then Some(addressToCode[key]) else None)
    }

    /** The relation extract_from_text promises between its input and its result. */
    ghost predicate IsTextExtraction(text: Option<string>, r: Option<string>) {
      if text.None? then r.None?
      else
        var toks := Tokens(text.value);
        && (r.None? <==> forall t :: t in toks ==> ValidateCodeInList(Some(t)).None?)
        && (r.Some? ==> exists t :: t in toks && ValidateCodeInList(Some(t)) == r
                                   && forall u :: u in toks && |u| > |t| ==> ValidateCodeInList(Some(u)).None?)
    }

    /**
     * extract_from_text: tries the tokens longest first and returns the first
     * one that validates. Tokens of equal length are tried in an unspecified
     * order, modelled by choosing any longest untried token.
     */
    method ExtractFromText(text: Option<string>) returns (r: Option<string>)
      ensures IsTextExtraction(text, r)
    {
      if text.None? {
        return None;
      }
      var u := Upper(text.value);
      var tokens := AlnumRuns(u, 0) + CodeShapes(u, 0);
      var remaining := set t | t in tokens;
      ghost var all := remaining;
      while remaining != {}
        invariant remaining <= all && all == Tokens(text.value)
        invariant forall t :: t in all && t !in remaining ==> ValidateCodeInList(Some(t)).None?
        decreases remaining
      {
        LongestExists(remaining);
        var tok :| tok in remaining && forall s :: s in remaining ==> |s| <= |tok|;
        var v := ValidateCodeInList(Some(tok));
        if v.Some? {
          return v;
        }
        remaining := remaining - {tok};
      }
      return None;
    }
  }

  /** The key normalisation of extract_from_address: spaces removed, upper-cased, stripped. */
  function LookupKey(s: string): string {
    Strip(Upper(RemoveSpaces(s)))
  }

  // ---------------------------------------------------------------------
  // Properties of the finder

  /** Every raw code that formats has its formatted form in a well-built finder's codes_set_4. */
  lemma RawFormatted(f: LocationCodesFinder, c: string)
    requires f.Valid() && c in f.codesSetRaw && FormatCode4(Some(c)).Some?
    ensures FormatCode4(Some(c)).value in f.codesSet4
  {
    OptionImageMember(f.codesSetRaw, c, FormatRaw);
  }

  /**
   * With a well-built finder, validation succeeds exactly when the formatted
   * code is in codes_set_4: the fallback on the raw set never changes the
   * outcome.
   */
  lemma ValidateCodeInListSpec(f: LocationCodesFinder, code: Option<string>)
    requires f.Valid()
    ensures f.ValidateCodeInList(code).Some? <==> (FormatCode4(code).Some? && FormatCode4(code).value in f.codesSet4)
    ensures f.ValidateCodeInList(code).Some? ==> f.ValidateCodeInList(code) == FormatCode4(code)
  {
    var formatted := FormatCode4(code);
    if formatted.Some? {
      var raw := StripUpper(code.value);
      StripUpperCanonical(code.value);
      if raw in f.codesSetRaw && FormatCode4(Some(raw)).Some? {
        RawFormatted(f, raw);
      }
    }
  }

  /** The two fields are validated independently of each other. */
  lemma OrgDestIndependent(f: LocationCodesFinder, o: Option<string>, d: Option<string>, o': Option<string>, d': Option<string>)
    ensures f.ExtractFromOrgDestType(o, d).0 == f.ExtractFromOrgDestType(o, d').0 == f.ValidateCodeInList(o)
    ensures f.ExtractFromOrgDestType(o, d).1 == f.ExtractFromOrgDestType(o', d).1 == f.ValidateCodeInList(d)
  {
  }

  /**
   * Looking up the key of an address finds the code of the last master row
   * with that key, formatted; a key that no master row has finds None.
   */
  lemma ExtractFromAddressOfCombined(f: LocationCodesFinder, rows: seq<MasterRow>,
                                     street: Option<string>, city: Option<string>, state: Option<string>)
    requires f.addressToCode == AddressIndex(rows)
    requires CombineAddr(street, city, state).Some?
    ensures var k := CombineAddr(street, city, state).value;
            f.ExtractFromAddress(Some(k))
            == if k in AddressIndex(rows) then FormatCode4(Some(AddressIndex(rows)[k])) else None
  {
    CombineAddrShape(street, city, state);
  }

  /** An address that matches master row `i`, and no later row, resolves to row i's code. */
  lemma AddressRoundTrip(f: LocationCodesFinder, rows: seq<MasterRow>, i: nat)
    requires f.addressToCode == AddressIndex(rows)
    requires i < |rows| && MasterKey(rows[i]).Some?
    requires forall j :: i < j < |rows| ==> MasterKey(rows[j]) != MasterKey(rows[i])
    ensures f.ExtractFromAddress(MasterKey(rows[i])) == FormatCode4(Some(MasterCode(rows[i])))
  {
    var pairs := MasterPairs(rows);
    ExtractFromAddressOfCombined(f, rows, rows[i].street, rows[i].city, rows[i].state);
    CombineAddrShape(rows[i].street, rows[i].city, rows[i].state);
    IndexPairsLastWins(pairs, i);
  }

  /**
   * When every validating token of greatest length validates to the same
   * code `v`, extraction returns `v`, whatever order equal-length tokens are
   * tried in.
   */
  lemma ExtractionDetermined(f: LocationCodesFinder, text: string, t: string, v: string, r: Option<string>)
    requires f.IsTextExtraction(Some(text), r)
    requires t in Tokens(text) && f.ValidateCodeInList(Some(t)) == Some(v)
    requires forall u :: u in Tokens(text) && f.ValidateCodeInList(Some(u)).Some? && |u| >= |t|
                         ==> f.ValidateCodeInList(Some(u)) == Some(v)
    ensures r == Some(v)
  {
    var toks := Tokens(text);
    assert r.Some?;
    var w :| w in toks && f.ValidateCodeInList(Some(w)) == r
             && forall u :: u in toks && |u| > |w| ==> f.ValidateCodeInList(Some(u)).None?;
    assert |w| >= |t|;
  }

  /** A text-extracted code is an allowed code in standard form, the format of one of the text's tokens. */
  lemma ExtractionIsAllowed(f: LocationCodesFinder, text: Option<string>, r: Option<string>)
    requires f.Valid() && f.IsTextExtraction(text, r) && r.Some?
    ensures text.Some? && r.value in f.codesSet4
    ensures exists t :: t in Tokens(text.value) && FormatCode4(Some(t)) == r
  {
    var t :| t in Tokens(text.value) && f.ValidateCodeInList(Some(t)) == r
             && forall u :: u in Tokens(text.value) && |u| > |t| ==> f.ValidateCodeInList(Some(u)).None?;
    ValidateCodeInListSpec(f, Some(t));
  }
}
