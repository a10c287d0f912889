/**
 * The helpers of main_logic.py used by the resolution steps: column-name
 * matching, the blank test, the second location-code normaliser and the
 * Excel text guard.
 */
module Utilities {
  import opened Wrappers
  import opened Text
  import opened Dicts

  /** A character `_norm_col` keeps: `[a-z0-9]`. */
  predicate IsNormChar(c: char) { IsLowerLetter(c) || IsDigit(c) }

  /** `re.sub(r"[^a-z0-9]+", "", s.lower())`. */
  function NormCol(s: string): (r: string)
    ensures |r| <= |s|
    ensures forall i :: 0 <= i < |r| ==> IsNormChar(r[i])
  {
    if s == [] then []
    else
      var c := LowerChar(s[0]);
      (if IsNormChar(c) then [c] else []) + NormCol(s[1..])
  }

  /** Text that is already normalised is its own normal form. */
  lemma {:induction false} NormColFixed(s: string)
    requires forall i :: 0 <= i < |s| ==> IsNormChar(s[i])
    ensures NormCol(s) == s
  {
    if s != [] {
      NormColFixed(s[1..]);
    }
  }

  lemma NormColIdempotent(s: string)
    ensures NormCol(NormCol(s)) == NormCol(s)
  {
    NormColFixed(NormCol(s));
  }

  /** The normal form of a concatenation is the concatenation of the normal forms. */
  lemma {:induction false} NormColConcat(a: string, b: string)
    ensures NormCol(a + b) == NormCol(a) + NormCol(b)
  {
    if a == [] {
      assert a + b == b;
    } else {
      assert (a + b)[0] == a[0];
      assert (a + b)[1..] == a[1..] + b;
      NormColConcat(a[1..], b);
    }
  }

  /** A character that is not `[a-z0-9]` once lower-cased is removed, wherever it stands. */
  lemma NormColDrops(a: string, c: char, b: string)
    requires !IsNormChar(LowerChar(c))
    ensures NormCol(a + [c] + b) == NormCol(a + b)
  {
    NormColConcat(a + [c], b);
    NormColConcat(a, [c]);
    NormColConcat(a, b);
  }

  /** Any other character is kept, lower-cased, between the normal forms of its two sides. */
  lemma NormColKeeps(a: string, c: char, b: string)
    requires IsNormChar(LowerChar(c))
    ensures NormCol(a + [c] + b) == NormCol(a) + [LowerChar(c)] + NormCol(b)
  {
    NormColConcat(a + [c], b);
    NormColConcat(a, [c]);
    assert NormCol([c]) == [LowerChar(c)] + NormCol([]);
  }

  /** Upper-casing the name first changes nothing: the comparison ignores case. */
  lemma {:induction false} NormColUpper(s: string)
    ensures NormCol(Upper(s)) == NormCol(s)
  {
    if s != [] {
      assert Upper(s)[1..] == Upper(s[1..]);
      assert LowerChar(UpperChar(s[0])) == LowerChar(s[0]);
      NormColUpper(s[1..]);
    }
  }

  /** Case and spaces do not matter: "a B" and "AB" meet. */
  lemma NormColExample()
    ensures NormCol("a B") == NormCol("AB") == "ab"
  {
    assert NormCol("B") == "b";
    assert NormCol(" B") == "b";
  }

  /** The (normal form, column) pairs of the table's columns. */
  function NormPairs(columns: seq<string>): (pairs: seq<(string, string)>)
    ensures |pairs| == |columns|
    ensures forall i :: 0 <= i < |columns| ==> pairs[i] == (NormCol(columns[i]), columns[i])
  {
    seq(|columns|, i requires 0 <= i < |columns| => (NormCol(columns[i]), columns[i]))
  }

  /** `{_norm_col(c): c for c in columns}`: the last column with a given normal form wins. */
  function NormMap(columns: seq<string>): map<string, string> {
    DictFromPairs(NormPairs(columns))
  }

  /** The normal forms in the map are those of the columns. */
  lemma NormMapKeys(columns: seq<string>, key: string)
    ensures key in NormMap(columns) <==> exists j :: 0 <= j < |columns| && NormCol(columns[j]) == key
  {
    var pairs := NormPairs(columns);
    DictFromPairsKeys(pairs, key);
    if exists j :: 0 <= j < |columns| && NormCol(columns[j]) == key {
      var j :| 0 <= j < |columns| && NormCol(columns[j]) == key;
      assert pairs[j].0 == key;
    }
  }

  /** A normal form maps to the last column that has it. */
  lemma NormMapValue(columns: seq<string>, key: string)
    requires key in NormMap(columns)
    ensures exists j :: 0 <= j < |columns| && NormCol(columns[j]) == key && NormMap(columns)[key] == columns[j]
                        && forall l :: j < l < |columns| ==> NormCol(columns[l]) != key
  {
    var pairs := NormPairs(columns);
    DictFromPairsValue(pairs, key);
    var j :| 0 <= j < |pairs| && pairs[j].0 == key && DictFromPairs(pairs)[key] == pairs[j].1
             && forall l :: j < l < |pairs| ==> pairs[l].0 != key;
    assert forall l :: j < l < |columns| ==> NormCol(columns[l]) != key by {
      forall l | j < l < |columns| ensures NormCol(columns[l]) != key {
        assert pairs[l].0 != key;
      }
    }
  }

  /** The candidate loop of `_pick_col`, from candidate `k` on. */
  function PickFrom(normMap: map<string, string>, candidates: seq<string>, k: nat): (r: Option<string>)
    requires k <= |candidates|
    ensures r.None? <==> forall j :: k <= j < |candidates| ==> NormCol(candidates[j]) !in normMap
    ensures r.Some? ==> exists j :: k <= j < |candidates| && NormCol(candidates[j]) in normMap
                                    && r.value == normMap[NormCol(candidates[j])]
                                    && forall l :: k <= l < j ==> NormCol(candidates[l]) !in normMap
    decreases |candidates| - k
  {
    if k == |candidates| then None
    else
      var key := NormCol(candidates[k]);
      if key in normMap then Some(normMap[key]) else PickFrom(normMap, candidates, k + 1)
  }

  /** `_pick_col(df, candidates)`: the column matching the first candidate that any column matches. */
  function PickCol(columns: seq<string>, candidates: seq<string>): Option<string> {
    PickFrom(NormMap(columns), candidates, 0)
  }

  /** No column is picked exactly when no candidate has the normal form of any column. */
  lemma PickColNone(columns: seq<string>, candidates: seq<string>)
    ensures PickCol(columns, candidates).None? <==>
            forall j, c :: 0 <= j < |candidates| && 0 <= c < |columns| ==> NormCol(columns[c]) != NormCol(candidates[j])
  {
    forall j | 0 <= j < |candidates| {
      NormMapKeys(columns, NormCol(candidates[j]));
    }
  }

  /**
   * A picked column is the LAST column of the table whose normal form equals
   * that of the FIRST candidate matched by some column.
   */
  lemma PickColSome(columns: seq<string>, candidates: seq<string>)
    requires PickCol(columns, candidates).Some?
    ensures exists j, c :: 0 <= j < |candidates| && 0 <= c < |columns|
                           && PickCol(columns, candidates) == Some(columns[c])
                           && NormCol(columns[c]) == NormCol(candidates[j])
                           && (forall l :: c < l < |columns| ==> NormCol(columns[l]) != NormCol(candidates[j]))
                           && (forall l, c' :: 0 <= l < j && 0 <= c' < |columns| ==> NormCol(columns[c']) != NormCol(candidates[l]))
  {
    var m := NormMap(columns);
    var r := PickCol(columns, candidates);
    var j :| 0 <= j < |candidates| && NormCol(candidates[j]) in m && r.value == m[NormCol(candidates[j])]
             && forall l :: 0 <= l < j ==> NormCol(candidates[l]) !in m;
    NormMapValue(columns, NormCol(candidates[j]));
    var c :| 0 <= c < |columns| && NormCol(columns[c]) == NormCol(candidates[j]) && m[NormCol(candidates[j])] == columns[c]
             && forall l :: c < l < |columns| ==> NormCol(columns[l]) != NormCol(candidates[j]);
    forall l | 0 <= l < j {
      NormMapKeys(columns, NormCol(candidates[l]));
    }
  }

  /** `clean_blank`: a missing or whitespace-only cell becomes NA. */
  function CleanBlank(v: Option<string>): (r: Option<string>)
    ensures r.None? <==> (v.None? || IsBlank(v.value))
    ensures r.None? <==> (v.None? || Strip(v.value) == "")
    ensures r.Some? ==> r == v && Strip(r.value) != ""
  {
    if v.None? then None
    else
      StripBlank(v.value);
      if IsBlank(v.value) then None else v
  }

  /**
   * `_normalize_loc_code`: None or blank gives "", an all-digit code is
   * zero-filled to at least 4 digits (never truncated), anything else is
   * returned stripped and upper-cased.
   */
  function NormalizeLocCode(v: Option<string>): string {
    if v.None? then "" else NormalizeText(StripUpper(v.value))
  }

  /** The steps of `_normalize_loc_code` after `str(v).strip().upper()`. */
  function NormalizeText(s: string): string {
    if s == "" then ""
    else if IsAllDigits(s) then ZFill(s, 4)
    else s
  }

  /** `_normalize_loc_code_series`: NA cells become "" before normalising. */
  function NormalizeCell(v: Option<string>): string {
    NormalizeLocCode(Some(v.GetOr("")))
  }

  /** On canonical text: digits get leading zeros up to four, anything else is kept. */
  lemma NormalizeTextCases(s: string)
    requires Canonical(s)
    ensures IsAllDigits(s) ==> NormalizeText(s) == Zeros(if |s| >= 4 then 0 else 4 - |s|) + s
    ensures IsAllDigits(s) ==> IsAllDigits(NormalizeText(s)) && |NormalizeText(s)| >= 4
    ensures !IsAllDigits(s) ==> NormalizeText(s) == s
    ensures Canonical(NormalizeText(s))
  {
    if IsAllDigits(s) {
      ZFillUnsigned(s, 4);
      var z := Zeros(if |s| >= 4 then 0 else 4 - |s|);
      var n := z + s;
      forall i | 0 <= i < |n| ensures IsDigit(n[i]) {
        if i >= |z| { assert n[i] == s[i - |z|]; }
      }
    }
  }

  /** The cases of `_normalize_loc_code`, stated on the stripped upper-case text of the input. */
  lemma NormalizeLocCodeCases(v: Option<string>)
    ensures v.None? || IsBlank(v.value) ==> NormalizeLocCode(v) == ""
    ensures v.Some? && IsAllDigits(StripUpper(v.value)) ==>
              var s := StripUpper(v.value);
              NormalizeLocCode(v) == Zeros(if |s| >= 4 then 0 else 4 - |s|) + s
    ensures v.Some? && !IsBlank(v.value) && !IsAllDigits(StripUpper(v.value)) ==>
              NormalizeLocCode(v) == StripUpper(v.value)
    ensures Canonical(NormalizeLocCode(v))
  {
    if v.Some? {
      StripUpperBlank(v.value);
      StripUpperIsCanonical(v.value);
      NormalizeTextCases(StripUpper(v.value));
    }
  }

  lemma NormalizeTextIdempotent(s: string)
    requires Canonical(s)
    ensures NormalizeText(NormalizeText(s)) == NormalizeText(s)
  {
    NormalizeTextCases(s);
    if IsAllDigits(s) {
      ZFillLength(NormalizeText(s), 4);
    }
  }

  /** A normalised cell is a fixed point of the normalisation. */
  lemma NormalizeCellFixed()
    ensures forall c: Option<string> :: NormalizeLocCode(Some(NormalizeCell(c))) == NormalizeCell(c)
  {
    forall c: Option<string> {
      NormalizeLocCodeIdempotent(Some(c.GetOr("")));
    }
  }

  /** Normalising twice is normalising once. */
  lemma NormalizeLocCodeIdempotent(v: Option<string>)
    ensures NormalizeLocCode(Some(NormalizeLocCode(v))) == NormalizeLocCode(v)
  {
    if v.Some? {
      var s := StripUpper(v.value);
      StripUpperIsCanonical(v.value);
      NormalizeTextCases(s);
      CanonicalFixed(NormalizeText(s));
      NormalizeTextIdempotent(s);
    } else {
      assert StripUpper("") == "";
    }
  }

  /** Unlike format_code_4, which keeps the last four digits, a long numeral is kept whole. */
  lemma NormalizeLocCodeKeepsLongDigits()
    ensures NormalizeLocCode(Some("0000095")) == "0000095"
    ensures NormalizeLocCode(Some("972")) == "0972"
  {
    var a := "0000095";
    assert Canonical(a);
    CanonicalFixed(a);
    assert IsAllDigits(a);
    var b := "972";
    assert Canonical(b);
    CanonicalFixed(b);
    assert IsAllDigits(b);
    assert Zeros(1) + b == "0972";
  }

  /**
   * `_force_excel_text`: the text of the cell, stripped; NA gives "". Both
   * branches of its inner test return the value, so no apostrophe is added.
   */
  function ForceExcelText(v: Option<string>): (r: string)
    ensures r == Strip(v.GetOr(""))
  {
    var s := Strip(v.GetOr(""));
    if s == "" then ""
    else if IsNumericText(s) then s
    else s
  }

  /** The whole text matches `-?\d+(\.\d+)?`: an optional minus, digits, and an optional fraction. */
  predicate IsNumericText(s: string) {
    var t := if |s| > 0 && s[0] == '-' then s[1..] else s;
    IsAllDigits(t) || exists k :: 0 < k < |t| - 1 && t[k] == '.' && IsAllDigits(t[..k]) && IsAllDigits(t[k + 1..])
  }

  lemma ForceExcelTextIdempotent(v: Option<string>)
    ensures ForceExcelText(Some(ForceExcelText(v))) == ForceExcelText(v)
  {
    StripEdges(v.GetOr(""));
    StripFixes(Strip(v.GetOr("")));
  }
}
