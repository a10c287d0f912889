/**
 * The responsible-party decision of matrix_mapping.py: a chain of rules
 * tried in order over a resolved record, the first that applies deciding
 * the profit center. The two tables of the external coding_matrix module are
 * parameters: `special` (SPECIAL_TYPE_MAPPINGS, a type pair to a code) and
 * `matrix` (Coding_Matrix, a type pair to a direction).
 */
module MatrixMapping {
  import opened Wrappers
  import opened Text
  import opened Accrual

  /** SPECIAL_CODES. */
  const SpecialCodes: set<string> := {"0K35", "024P", "067N"}

  /** A value `_first_nonblank` accepts: present, not blank, and not "nan" or "none" in any case. */
  predicate Qualifies(v: Option<string>) {
    v.Some? && Strip(v.value) != "" && Upper(Strip(v.value)) != "NAN" && Upper(Strip(v.value)) != "NONE"
  }

  /** `_first_nonblank`: the stripped first accepted value, or "" when none is accepted. */
  function FirstNonblank(vals: seq<Option<string>>): (r: string)
    ensures r == "" <==> forall i :: 0 <= i < |vals| ==> !Qualifies(vals[i])
    ensures r != "" ==> exists i :: 0 <= i < |vals| && Qualifies(vals[i]) && r == Strip(vals[i].value)
                                    && forall j :: 0 <= j < i ==> !Qualifies(vals[j])
  {
    var i := FirstAccepted(vals, 0, Qualifies);
    if i < |vals| then Strip(vals[i].value) else ""
  }

  /** The position of the first element from `k` on that `accept` holds of, or |vals| when there is none. */
  function FirstAccepted<T>(vals: seq<T>, k: nat, accept: T -> bool): (i: nat)
    requires k <= |vals|
    ensures k <= i <= |vals|
    ensures i < |vals| ==> accept(vals[i])
    ensures forall j :: k <= j < i ==> !accept(vals[j])
    decreases |vals| - k
  {
    if k == |vals| || accept(vals[k]) then k else FirstAccepted(vals, k + 1, accept)
  }

  /** None and blank text are skipped. */
  lemma FirstNonblankExample()
    ensures FirstNonblank([None, Some(" "), Some("12")]) == "12"
  {
    var vals := [None, Some(" "), Some("12")];
    assert Strip(" ") == "" by { assert TrimLeft(" ") == ""; }
    StripFixes("12");
    assert !Qualifies(vals[0]) && !Qualifies(vals[1]) && Qualifies(vals[2]);
    assert FirstAccepted(vals, 2, Qualifies) == 2;
    assert FirstAccepted(vals, 1, Qualifies) == 2;
    assert FirstAccepted(vals, 0, Qualifies) == 2;
  }

  /** `str(row["Final Consignor Type"]).strip().upper()`. */
  function ConsignorType(r: Row): string {
    StripUpper(r.consignor.finalType)
  }

  /** The consignee type stripped, upper-cased and without spaces ("CA DC" reads as "CADC"). */
  function ConsigneeTypeNorm(r: Row): string {
    RemoveSpaces(StripUpper(r.consignee.finalType))
  }

  /** The MM to CA DC override. */
  predicate ManufacturingToCanada(r: Row) {
    ConsignorType(r) == "MM" && ConsigneeTypeNorm(r) == "CADC"
  }

  /** A special consignee code delivered to a US or Canadian DC from anything but an LC. */
  predicate SpecialConsignee(r: Row) {
    r.consignee.finalCode in SpecialCodes
    && (ConsigneeTypeNorm(r) == "USDC" || ConsigneeTypeNorm(r) == "CADC")
    && ConsignorType(r) != "LC"
  }

  /** The carrier name is text containing "omnitrans" in any case. */
  predicate IsOmnitrans(r: Row) {
    r.carrierName.Some? && Contains(Lower(r.carrierName.value), "omnitrans")
  }

  /** The consignee-side candidates of the Omnitrans rule, then the consignor's final code. */
  function OmnitransCandidates(r: Row): seq<Option<string>> {
    [Some(r.consignee.extracted), Some(r.consignee.addrLookup), Some(r.consignee.typeCode), Some(r.consignor.finalCode)]
  }

  /** The matrix rules, keyed on the raw (Final Consignor Type, Final Consignee Type) pair. */
  function MatrixRule(r: Row, special: map<(string, string), string>, matrix: map<(string, string), string>): string {
    var key := (r.consignor.finalType, r.consignee.finalType);
    if key in special then special[key]
    else if key in matrix then
      if matrix[key] == "ORIGIN" then r.consignor.finalCode
      else if matrix[key] == "DESTINATION" then r.consignee.finalCode
      else "UNKNOWN"
    else "UNKNOWN"
  }

  /** `determine_profit_center`: the first rule that applies decides. */
  function DetermineProfitCenter(r: Row, special: map<(string, string), string>, matrix: map<(string, string), string>): string {
    if ManufacturingToCanada(r) then "037Q"
    else if SpecialConsignee(r) then r.consignee.finalCode
    else if IsOmnitrans(r) && FirstNonblank(OmnitransCandidates(r)) != "" then FirstNonblank(OmnitransCandidates(r))
    else MatrixRule(r, special, matrix)
  }

  // ---------------------------------------------------------------------
  // The rules, one lemma each

  /** MM to CA DC is 037Q, whatever the other fields hold. */
  lemma OverrideWins(r: Row, special: map<(string, string), string>, matrix: map<(string, string), string>)
    requires StripUpper(r.consignor.finalType) == "MM"
    requires RemoveSpaces(StripUpper(r.consignee.finalType)) == "CADC"
    ensures DetermineProfitCenter(r, special, matrix) == "037Q"
  {
  }

  /** "CA DC" with a space counts as CADC for the override. */
  lemma OverrideSpacedExample(r: Row, special: map<(string, string), string>, matrix: map<(string, string), string>)
    requires r.consignor.finalType == "MM" && r.consignee.finalType == "CA DC"
    ensures DetermineProfitCenter(r, special, matrix) == "037Q"
  {
    assert Canonical("MM");
    CanonicalFixed("MM");
    assert Canonical("CA DC");
    CanonicalFixed("CA DC");
    CadcWithoutSpace();
  }

  lemma CadcWithoutSpace()
    ensures RemoveSpaces("CA DC") == "CADC"
  {
    RemoveSpacesAppend("CA", " DC");
    RemoveSpacesNone("CA");
    RemoveSpacesNone("DC");
    assert " DC"[1..] == "DC";
  }

  /** Failing the override, a special consignee code is its own responsible party. */
  lemma SpecialCodeRule(r: Row, special: map<(string, string), string>, matrix: map<(string, string), string>)
    requires !ManufacturingToCanada(r)
    requires r.consignee.finalCode in {"0K35", "024P", "067N"}
    requires ConsigneeTypeNorm(r) in {"USDC", "CADC"}
    requires ConsignorType(r) != "LC"
    ensures DetermineProfitCenter(r, special, matrix) == r.consignee.finalCode
  {
  }

  /**
   * Failing the first two rules, an Omnitrans shipment goes to the first
   * accepted candidate (extracted consignee code, consignee address lookup,
   * destination type code, final consignor code, in that order); when none
   * is accepted the matrix rules decide.
   */
  lemma OmnitransRule(r: Row, special: map<(string, string), string>, matrix: map<(string, string), string>)
    requires !ManufacturingToCanada(r) && !SpecialConsignee(r) && IsOmnitrans(r)
    ensures FirstNonblank(OmnitransCandidates(r)) != "" ==>
              DetermineProfitCenter(r, special, matrix) == FirstNonblank(OmnitransCandidates(r))
    ensures FirstNonblank(OmnitransCandidates(r)) == "" ==>
              DetermineProfitCenter(r, special, matrix) == MatrixRule(r, special, matrix)
  {
  }

  /** Without the first three rules, the matrix rules decide. */
  lemma MatrixFallback(r: Row, special: map<(string, string), string>, matrix: map<(string, string), string>)
    requires !ManufacturingToCanada(r) && !SpecialConsignee(r) && !IsOmnitrans(r)
    ensures DetermineProfitCenter(r, special, matrix) == MatrixRule(r, special, matrix)
  {
  }

  /**
   * SPECIAL_TYPE_MAPPINGS takes precedence over Coding_Matrix; a direction
   * of ORIGIN picks the consignor's code, DESTINATION the consignee's, and
   * anything else, or a pair in neither table, gives UNKNOWN.
   */
  lemma MatrixRuleSpec(r: Row, special: map<(string, string), string>, matrix: map<(string, string), string>)
    ensures var key := (r.consignor.finalType, r.consignee.finalType);
            && (key in special ==> MatrixRule(r, special, matrix) == special[key])
            && (key !in special && key in matrix && matrix[key] == "ORIGIN" ==>
                  MatrixRule(r, special, matrix) == r.consignor.finalCode)
            && (key !in special && key in matrix && matrix[key] == "DESTINATION" ==>
                  MatrixRule(r, special, matrix) == r.consignee.finalCode)
            && (key !in special && (key !in matrix || matrix[key] !in {"ORIGIN", "DESTINATION"}) ==>
                  MatrixRule(r, special, matrix) == "UNKNOWN")
  {
  }

  /**
   * The responsible party is always one of: 037Q, a party's final code, a
   * SPECIAL_TYPE_MAPPINGS value, UNKNOWN, or (for Omnitrans) the stripped
   * value of one of the Omnitrans candidates.
   */
  lemma ProfitCenterSources(r: Row, special: map<(string, string), string>, matrix: map<(string, string), string>)
    ensures var rp := DetermineProfitCenter(r, special, matrix);
            || rp == "037Q" || rp == "UNKNOWN"
            || rp == r.consignee.finalCode || rp == r.consignor.finalCode
            || rp in special.Values
            || (IsOmnitrans(r) && exists i :: 0 <= i < 4 && Qualifies(OmnitransCandidates(r)[i])
                                               && rp == Strip(OmnitransCandidates(r)[i].value))
  {
    var key := (r.consignor.finalType, r.consignee.finalType);
    if key in special {
      assert special[key] in special.Values;
    }
  }
}
