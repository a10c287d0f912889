/**
 * The per-record resolution steps of run_pipeline (main_logic.py): the
 * reference tables are prepared, the finder is built, and then the accrual
 * sheet, an array of records, is updated one column step at a time in the
 * order of the source.
 */
module Pipeline {
  import opened Wrappers
  import opened Text
  import opened Dicts
  import opened LocationCodes
  import opened Utilities
  import opened Accrual
  import opened MatrixMapping

  // ---------------------------------------------------------------------
  // Reference tables

  /** A row of the Master Location Table as the type lookup reads it: Loc Code and Type Code, None for NA. */
  datatype LocTypeRow = LocTypeRow(locCode: Option<string>, typeCode: Option<string>)

  /** my_loc with its Loc Code column normalised. */
  function NormalizedMyLoc(rows: seq<MasterRow>): (r: seq<MasterRow>)
    ensures |r| == |rows|
    ensures forall i :: 0 <= i < |rows| ==> r[i] == rows[i].(locCode := Some(NormalizeCell(rows[i].locCode)))
    ensures forall i :: 0 <= i < |rows| ==> r[i].(locCode := rows[i].locCode) == rows[i]
    ensures forall i :: 0 <= i < |rows| ==> r[i].locCode.Some? && NormalizeLocCode(r[i].locCode) == r[i].locCode.value
  {
    NormalizeCellFixed();
    seq(|rows|, i requires 0 <= i < |rows| => rows[i].(locCode := Some(NormalizeCell(rows[i].locCode))))
  }

  /** The all_codes list normalised. */
  function NormalizedCodes(codes: seq<Option<string>>): (r: seq<Option<string>>)
    ensures |r| == |codes|
    ensures forall i :: 0 <= i < |codes| ==> r[i] == Some(NormalizeCell(codes[i]))
    ensures forall i :: 0 <= i < |codes| ==> r[i].Some? && NormalizeLocCode(r[i]) == r[i].value
  {
    NormalizeCellFixed();
    seq(|codes|, i requires 0 <= i < |codes| => Some(NormalizeCell(codes[i])))
  }

  /** master_combined_set: the combined addresses of my_loc, None dropped. */
  function MasterCombinedSet(rows: seq<MasterRow>): set<string> {
    set i | 0 <= i < |rows| && MasterKey(rows[i]).Some? :: MasterKey(rows[i]).value
  }

  /** The Loc Code key of master_code_to_type: normalised twice, then upper-cased. */
  function LocKey(c: Option<string>): string {
    Upper(NormalizeCell(Some(NormalizeCell(c))))
  }

  /** A Type Code as upper-case text, the text "NAN" (what NA becomes) being absent. */
  function TypeValue(t: Option<string>): Option<string> {
    var u := Upper(CellText(t));
    if u == "NAN" then None else Some(u)
  }

  /** Text in normal form has no lower-case letter to raise. */
  lemma CanonicalUpper(v: string)
    requires Canonical(v)
    ensures Upper(v) == v
  {
    CanonicalFixed(v);
    StripFixes(v);
  }

  /** The key of master_code_to_type is just the normalised Loc Code: the second pass and the upper-casing change nothing. */
  lemma LocKeyIsNormalized(c: Option<string>)
    ensures LocKey(c) == NormalizeCell(c)
  {
    NormalizeLocCodeIdempotent(Some(c.GetOr("")));
    NormalizeLocCodeCases(Some(c.GetOr("")));
    CanonicalUpper(NormalizeCell(c));
  }

  /** A type cell that is NA, or reads "nan" in any case, counts as absent; any other is kept upper-cased. */
  lemma TypeValueSpec(t: Option<string>)
    ensures TypeValue(t).None? <==> Upper(CellText(t)) == "NAN"
    ensures TypeValue(t).Some? ==> TypeValue(t).value == Upper(CellText(t))
    ensures TypeValue(None).None?
  {
    assert Upper("nan") == "NAN";
  }

  /** The (key, type) pair of one row: the key is the normalised Loc Code, and an NA type is absent. */
  function TypePair(row: LocTypeRow): (p: (string, Option<string>))
    ensures p == (LocKey(row.locCode), TypeValue(row.typeCode))
    ensures p.0 == NormalizeCell(row.locCode) && NormalizeLocCode(Some(p.0)) == p.0
    ensures row.typeCode.None? ==> p.1.None?
  {
    LocKeyIsNormalized(row.locCode);
    NormalizeLocCodeIdempotent(Some(row.locCode.GetOr("")));
    TypeValueSpec(row.typeCode);
    (LocKey(row.locCode), TypeValue(row.typeCode))
  }

  /** The (key, type) pairs of master_code_to_type, in table order. */
  function TypePairs(rows: seq<LocTypeRow>): (pairs: seq<(string, Option<string>)>)
    ensures |pairs| == |rows|
    ensures forall i :: 0 <= i < |rows| ==> pairs[i] == (LocKey(rows[i].locCode), TypeValue(rows[i].typeCode))
    ensures forall i :: 0 <= i < |rows| ==>
              pairs[i].0 == NormalizeCell(rows[i].locCode) && NormalizeLocCode(Some(pairs[i].0)) == pairs[i].0
    ensures forall i :: 0 <= i < |rows| ==> rows[i].typeCode.None? ==> pairs[i].1.None?
  {
    seq(|rows|, i requires 0 <= i < |rows| => TypePair(rows[i]))
  }

  /** master_code_to_type: `dict(zip(...))`, so the last row with a code wins, even when its type is NA. */
  function CodeToType(rows: seq<LocTypeRow>): map<string, Option<string>> {
    DictFromPairs(TypePairs(rows))
  }

  /** The type-code column candidates of `_pick_col`. */
  const OrgTypeCandidates: seq<string> := ["Org Type Code", "Org Loc Code", "Origin Type Code", "OrgTypeCode"]
  const DestTypeCandidates: seq<string> := ["Dest Type Code", "Dest Loc Code", "Destination Type Code", "DestTypeCode"]

  /** Both type-code columns were found. */
  predicate HasTypeColumns(columns: seq<string>) {
    PickCol(columns, OrgTypeCandidates).Some? && PickCol(columns, DestTypeCandidates).Some?
  }

  /**
   * What the row steps read besides the row: the finder, the master address
   * set, whether both type columns exist, the type map, the profit/cost
   * centre lookup (code to ProfitCtr and Cost Center text) and the two tables
   * of the coding matrix.
   */
  datatype Env = Env(finder: LocationCodesFinder, masterCombined: set<string>, typeColumns: bool,
                     codeToType: map<string, Option<string>>, financials: map<string, (string, string)>,
                     special: map<(string, string), string>, matrix: map<(string, string), string>)

  // ---------------------------------------------------------------------
  // Row steps, in the order of run_pipeline

  /** The consignor and consignee combined addresses. */
  function CombineStep(r: Row): Row {
    r.(consignor := r.consignor.(combined := CombineAddr(Some(r.consignor.address), Some(r.consignor.city), Some(r.consignor.state))),
       consignee := r.consignee.(combined := CombineAddr(Some(r.consignee.address), Some(r.consignee.city), Some(r.consignee.state))))
  }

  /** The normalised outcomes of extract_from_text on the two names. */
  function ExtractStep(r: Row, fromConsignor: Option<string>, fromConsignee: Option<string>): Row {
    r.(consignor := r.consignor.(extracted := NormalizeCell(fromConsignor)),
       consignee := r.consignee.(extracted := NormalizeCell(fromConsignee)))
  }

  /** The name has CINTAS or MAT as a whole word, in any case. */
  predicate NamesOwnBrand(name: string) {
    ContainsWord(Upper(name), "CINTAS") || ContainsWord(Upper(name), "MAT")
  }

  /** The combined address (None read as "") is one of my_loc's. */
  predicate AddressKnown(combined: Option<string>, known: set<string>) {
    combined.GetOr("") in known
  }

  /** The address-sanity wipe applies: a code was extracted, the name is not our brand and the address is unknown. */
  predicate WipeApplies(p: Party, known: set<string>) {
    Strip(p.extracted) != "" && !NamesOwnBrand(p.name) && !AddressKnown(p.combined, known)
  }

  function WipeParty(p: Party, known: set<string>): Party {
    if WipeApplies(p, known) then p.(extracted := "") else p
  }

  function WipeStep(known: set<string>, r: Row): Row {
    r.(consignor := WipeParty(r.consignor, known), consignee := WipeParty(r.consignee, known))
  }

  /** The org/dest type-code candidates: validated and normalised when both columns exist, else "". */
  function TypeCodeStep(finder: LocationCodesFinder, typeColumns: bool, r: Row): Row {
    if typeColumns then
      var codes := finder.ExtractFromOrgDestType(r.consignor.typeCell, r.consignee.typeCell);
      r.(consignor := r.consignor.(typeCode := NormalizeCell(codes.0)),
         consignee := r.consignee.(typeCode := NormalizeCell(codes.1)))
    else
      r.(consignor := r.consignor.(typeCode := NormalizeCell(Some(""))),
         consignee := r.consignee.(typeCode := NormalizeCell(Some(""))))
  }

  /** The address-looked-up codes, normalised. */
  function AddrLookupStep(finder: LocationCodesFinder, r: Row): Row {
    r.(consignor := r.consignor.(addrLookup := NormalizeCell(finder.ExtractFromAddress(r.consignor.combined))),
       consignee := r.consignee.(addrLookup := NormalizeCell(finder.ExtractFromAddress(r.consignee.combined))))
  }

  /** The consignor prefix groups of the Mississauga override. */
  const Group097H: seq<string> := ["LNK", "AMERICAN METAL CRAFTERS", "RADIANS", "EVER READY"]
  const Group067N: seq<string> := ["VECTAIR", "ZEP"]
  const Group0897: seq<string> := ["CHEMFREE", "BERRY GLOBAL"]

  /** The consignee's combined address is the Suite, Mississauga, ON one. */
  predicate SuiteMississauga(r: Row) {
    StartsWith(Upper(r.consignee.combined.GetOr("")), "SUITEMISSISSAUGAON")
  }

  function ConsignorText(r: Row): string {
    Strip(Upper(r.consignor.name))
  }

  /** The consignee's address-lookup code after the three masked overwrites, in order; the masks are computed on the row before any of them. */
  function MississaugaLookup(r: Row): string {
    var suite := SuiteMississauga(r);
    var text := ConsignorText(r);
    var v1 := if suite && StartsWithAny(text, Group097H) then "097H" else r.consignee.addrLookup;
    var v2 := if suite && StartsWithAny(text, Group067N) then "067N" else v1;
    if suite && StartsWithAny(text, Group0897) then "0897" else v2
  }

  function MississaugaStep(r: Row): Row {
    r.(consignee := r.consignee.(addrLookup := MississaugaLookup(r)))
  }

  /** The precedence chain: extracted, then org/dest type, then address, then NON-CINTAS; normalised. */
  function FinalCodeOf(extracted: string, typeCode: string, addrLookup: string): string {
    var chosen := CleanBlank(Some(extracted)).OrElse(CleanBlank(Some(typeCode))).OrElse(CleanBlank(Some(addrLookup)));
    NormalizeCell(Some(chosen.GetOr("NON-CINTAS")))
  }

  function FinalStep(r: Row): Row {
    r.(consignor := r.consignor.(finalCode := FinalCodeOf(r.consignor.extracted, r.consignor.typeCode, r.consignor.addrLookup)),
       consignee := r.consignee.(finalCode := FinalCodeOf(r.consignee.extracted, r.consignee.typeCode, r.consignee.addrLookup)))
  }

  /** An entry of EXCEPTION_RULES. */
  datatype ExceptionRule = ExceptionRule(matchColumn: string, contains: string, setColumn: string, value: string)

  /** EXCEPTION_RULES, in order. */
  const ExceptionRules: seq<ExceptionRule> := [
    ExceptionRule("Destination Address", "6001 W", "Final Consignee Code", "0021"),
    ExceptionRule("Consignee", "VALDEZ", "Final Consignee Code", "0K35"),
    ExceptionRule("Destination Address", "ATTN: GARDNER", "Final Consignee Code", "0536"),
    ExceptionRule("Consignor", "AVERITT TERMINAL", "Final Consignor Code", "0004"),
    ExceptionRule("Consignor", "COOPETRAJES", "Final Consignor Code", "0896"),
    ExceptionRule("Consignee", "COOPETRAJES", "Final Consignee Code", "0896"),
    ExceptionRule("Consignor", "MATHESON", "Final Consignor Code", "067N"),
    ExceptionRule("Consignor", "EMPRESSA", "Final Consignor Code", "0972"),
    ExceptionRule("Consignor", "EMPRESA", "Final Consignor Code", "0972"),
    ExceptionRule("Consignee", "EMPRESSA", "Final Consignee Code", "0972"),
    ExceptionRule("Consignee", "EMPRESA", "Final Consignee Code", "0972")
  ]

  /** The text columns a rule can match on; None for a column the sheet does not have. */
  function Column(r: Row, name: string): Option<string> {
    if name == "Destination Address" then Some(r.consignee.address)
    else if name == "Consignee" then Some(r.consignee.name)
    else if name == "Consignor" then Some(r.consignor.name)
    else None
  }

  /** The final code a rule can set. */
  function FinalOf(r: Row, name: string): Option<string> {
    if name == "Final Consignee Code" then Some(r.consignee.finalCode)
    else if name == "Final Consignor Code" then Some(r.consignor.finalCode)
    else None
  }

  function SetFinal(r: Row, name: string, v: string): Row {
    if name == "Final Consignee Code" then r.(consignee := r.consignee.(finalCode := v))
    else if name == "Final Consignor Code" then r.(consignor := r.consignor.(finalCode := v))
    else r
  }

  /** The upper-cased match column contains the rule's literal. */
  predicate RuleMatches(r: Row, rule: ExceptionRule) {
    Column(r, rule.matchColumn).Some? && Contains(Upper(Column(r, rule.matchColumn).value), rule.contains)
  }

  /** One rule: skipped when its match column is absent, else an overwrite of every matching row. */
  function ApplyRule(r: Row, rule: ExceptionRule): Row {
    if Column(r, rule.matchColumn).None? then r
    else if Contains(Upper(Column(r, rule.matchColumn).value), rule.contains) then SetFinal(r, rule.setColumn, rule.value)
    else r
  }

  /** The rules applied in list order. */
  function ApplyRules(r: Row, rules: seq<ExceptionRule>): Row
    decreases |rules|
  {
    if |rules| == 0 then r else ApplyRule(ApplyRules(r, rules[..|rules| - 1]), rules[|rules| - 1])
  }

  /** The final codes normalised again. */
  function NormalizeFinalsStep(r: Row): Row {
    r.(consignor := r.consignor.(finalCode := NormalizeCell(Some(r.consignor.finalCode))),
       consignee := r.consignee.(finalCode := NormalizeCell(Some(r.consignee.finalCode))))
  }

  /** The type of a final code; a code not in the map, or mapped to NA, is NON-CINTAS. */
  function FinalTypeOf(codeToType: map<string, Option<string>>, code: string): string {
    var key := Upper(code);
    if key in codeToType && codeToType[key].Some? then codeToType[key].value else "NON-CINTAS"
  }

  function TypeStep(codeToType: map<string, Option<string>>, r: Row): Row {
    r.(consignor := r.consignor.(finalType := FinalTypeOf(codeToType, r.consignor.finalCode)),
       consignee := r.consignee.(finalType := FinalTypeOf(codeToType, r.consignee.finalCode)))
  }

  function ResponsiblePartyStep(special: map<(string, string), string>, matrix: map<(string, string), string>, r: Row): Row {
    r.(responsibleParty := DetermineProfitCenter(r, special, matrix))
  }

  /** THIRD PARTY and NON-CINTAS have no profit or cost center. */
  predicate NoCenters(responsibleParty: string) {
    var n := Strip(Upper(responsibleParty));
    n == "THIRD PARTY" || n == "NON-CINTAS"
  }

  /** The profit and cost centres of the responsible party, blanked for THIRD PARTY and NON-CINTAS. */
  function FinancialStep(financials: map<string, (string, string)>, r: Row): Row {
    var found := if r.responsibleParty in financials then Some(financials[r.responsibleParty]) else None;
    var profit := Strip(if found.Some? then found.value.0 else "");
    var cost := ForceExcelText(if found.Some? then Some(found.value.1) else None);
    if NoCenters(r.responsibleParty) then r.(profitCenterEJ := "", costCenterEJ := "")
    else r.(profitCenterEJ := profit, costCenterEJ := cost)
  }

  /** The GL account: 621000 for a G59 profit centre or when the consignee is responsible, else 621020. */
  function AccountOf(profitCenterEJ: string, finalConsigneeCode: string, responsibleParty: string): string {
    if Contains(profitCenterEJ, "G59") then "621000"
    else if finalConsigneeCode == responsibleParty then "621000"
    else "621020"
  }

  function AccountStep(r: Row): Row {
    r.(accountEJ := ForceExcelText(Some(AccountOf(r.profitCenterEJ, r.consignee.finalCode, r.responsibleParty))))
  }

  /** 1 when the input profit centre is present and equals the looked-up one, else 0. */
  function AccuracyStep(r: Row): Row {
    r.(automationAccuracy := if r.profitCenter.Some? && r.profitCenter.value == r.profitCenterEJ then 1 else 0)
  }

  /** The steps from the wipe to the precedence chain. */
  function ResolveCodes(env: Env, r: Row): Row {
    FinalStep(MississaugaStep(AddrLookupStep(env.finder, TypeCodeStep(env.finder, env.typeColumns, WipeStep(env.masterCombined, r)))))
  }

  /** The steps from the second normalisation to the accuracy flag. */
  function ResolveParty(env: Env, r: Row): Row {
    AccuracyStep(AccountStep(FinancialStep(env.financials,
      ResponsiblePartyStep(env.special, env.matrix, TypeStep(env.codeToType, NormalizeFinalsStep(r))))))
  }

  /** One record through the whole pipeline, given the outcomes of the two text extractions. */
  function ResolveRow(env: Env, r: Row, fromConsignor: Option<string>, fromConsignee: Option<string>): Row {
    ResolveParty(env, ApplyRules(ResolveCodes(env, ExtractStep(CombineStep(r), fromConsignor, fromConsignee)), ExceptionRules))
  }

  // ---------------------------------------------------------------------
  // The table updates

  /** One column step: every record replaced by `f` of itself. */
  method MapRows(a: array<Row>, f: Row -> Row)
    modifies a
    ensures forall i :: 0 <= i < a.Length ==> a[i] == f(old(a[i]))
  {
    var i := 0;
    while i < a.Length
      invariant 0 <= i <= a.Length
      invariant forall j :: 0 <= j < i ==> a[j] == f(old(a[j]))
      invariant forall j :: i <= j < a.Length ==> a[j] == old(a[j])
    {
      a[i] := f(a[i]);
      i := i + 1;
    }
  }

  /** `rel` holds between each element of `xs` and the element of `ys` at the same position. */
  ghost predicate Pointwise<A, B>(rel: (A, B) -> bool, xs: seq<A>, ys: seq<B>)
    decreases |xs|
  {
    |ys| == |xs|
    && (|xs| > 0 ==> Pointwise(rel, xs[..|xs| - 1], ys[..|xs| - 1]) && rel(xs[|xs| - 1], ys[|xs| - 1]))
  }

  lemma {:induction false} PointwiseAt<A, B>(rel: (A, B) -> bool, xs: seq<A>, ys: seq<B>, i: nat)
    requires Pointwise(rel, xs, ys) && i < |xs|
    ensures |ys| == |xs| && rel(xs[i], ys[i])
    decreases |xs|
  {
    var n := |xs| - 1;
    if i < n {
      PointwiseAt(rel, xs[..n], ys[..n], i);
      assert xs[..n][i] == xs[i] && ys[..n][i] == ys[i];
    }
  }

  /** The relation extract_from_text promises, between a name and an outcome. */
  ghost function ExtractionOf(finder: LocationCodesFinder): (string, Option<string>) -> bool {
    (text: string, r: Option<string>) => finder.IsTextExtraction(Some(text), r)
  }

  /** Each outcome is one extract_from_text may give for the text at the same position. */
  ghost predicate Extractions(finder: LocationCodesFinder, texts: seq<string>, outcomes: seq<Option<string>>) {
    Pointwise(ExtractionOf(finder), texts, outcomes)
  }

  lemma ExtractionsAt(finder: LocationCodesFinder, texts: seq<string>, outcomes: seq<Option<string>>, i: nat)
    requires Extractions(finder, texts, outcomes) && i < |texts|
    ensures |outcomes| == |texts| && finder.IsTextExtraction(Some(texts[i]), outcomes[i])
  {
    PointwiseAt(ExtractionOf(finder), texts, outcomes, i);
  }

  /** `Series.apply(extract_from_text)`: one outcome per text, in order. */
  method ExtractAll(finder: LocationCodesFinder, texts: seq<string>) returns (outcomes: seq<Option<string>>)
    ensures Extractions(finder, texts, outcomes)
  {
    outcomes := [];
    var i := 0;
    while i < |texts|
      invariant 0 <= i <= |texts|
      invariant Extractions(finder, texts[..i], outcomes)
    {
      var v := finder.ExtractFromText(Some(texts[i]));
      ghost var before := outcomes;
      outcomes := outcomes + [v];
      assert outcomes[..i] == before;
      assert texts[..i + 1][..i] == texts[..i];
      assert ExtractionOf(finder)(texts[i], v);
      i := i + 1;
    }
    assert texts[..i] == texts;
  }

  /** A column step that also reads two computed series: record `i` becomes `f` of itself and their `i`-th values. */
  method ZipRows<X>(a: array<Row>, xs: seq<X>, ys: seq<X>, f: (Row, X, X) -> Row)
    requires |xs| == |ys| == a.Length
    modifies a
    ensures forall i :: 0 <= i < a.Length ==> a[i] == f(old(a[i]), xs[i], ys[i])
  {
    var i := 0;
    while i < a.Length
      invariant 0 <= i <= a.Length
      invariant forall j :: 0 <= j < i ==> a[j] == f(old(a[j]), xs[j], ys[j])
      invariant forall j :: i <= j < a.Length ==> a[j] == old(a[j])
    {
      a[i] := f(a[i], xs[i], ys[i]);
      i := i + 1;
    }
  }

  /** The consignor and consignee names of the records. */
  function Names(rows: seq<Row>): (names: (seq<string>, seq<string>))
    ensures |names.0| == |names.1| == |rows|
    ensures forall i :: 0 <= i < |rows| ==> names.0[i] == rows[i].consignor.name && names.1[i] == rows[i].consignee.name
  {
    (seq(|rows|, i requires 0 <= i < |rows| => rows[i].consignor.name),
     seq(|rows|, i requires 0 <= i < |rows| => rows[i].consignee.name))
  }

  /** `for rule in EXCEPTION_RULES`: each rule overwrites every matching record before the next rule runs. */
  method ApplyExceptionRules(a: array<Row>, rules: seq<ExceptionRule>)
    modifies a
    ensures forall i :: 0 <= i < a.Length ==> a[i] == ApplyRules(old(a[i]), rules)
  {
    var k := 0;
    while k < |rules|
      invariant 0 <= k <= |rules|
      invariant forall i :: 0 <= i < a.Length ==> a[i] == ApplyRules(old(a[i]), rules[..k])
    {
      var rule := rules[k];
      assert rules[..k + 1][..k] == rules[..k];
      var i := 0;
      while i < a.Length
        invariant 0 <= i <= a.Length
        invariant forall j :: 0 <= j < i ==> a[j] == ApplyRules(old(a[j]), rules[..k + 1])
        invariant forall j :: i <= j < a.Length ==> a[j] == ApplyRules(old(a[j]), rules[..k])
      {
        a[i] := ApplyRule(a[i], rule);
        i := i + 1;
      }
      k := k + 1;
    }
    assert rules[..k] == rules;
  }

  /** The reference tables normalised, the finder built and master_combined_set collected. */
  method BuildEnv(myLoc: seq<MasterRow>, masterLoc: seq<LocTypeRow>, codes: seq<Option<string>>,
                  columns: seq<string>, financials: map<string, (string, string)>,
                  special: map<(string, string), string>, matrix: map<(string, string), string>)
    returns (env: Env)
    ensures fresh(env.finder) && env.finder.Valid()
    ensures env.finder.codesSetRaw == RawCodes(NormalizedCodes(codes))
    ensures env.finder.addressToCode == AddressIndex(NormalizedMyLoc(myLoc))
    ensures env.masterCombined == MasterCombinedSet(NormalizedMyLoc(myLoc))
    ensures env.typeColumns == HasTypeColumns(columns)
    ensures env.codeToType == CodeToType(masterLoc)
    ensures env.financials == financials && env.special == special && env.matrix == matrix
  {
    var loc := NormalizedMyLoc(myLoc);
    var finder := new LocationCodesFinder(loc, NormalizedCodes(codes));
    env := Env(finder, MasterCombinedSet(loc), HasTypeColumns(columns), CodeToType(masterLoc), financials, special, matrix);
  }

  /** The combined addresses, then the text extraction of both names. */
  method CombineAndExtract(a: array<Row>, finder: LocationCodesFinder)
    returns (ghost combined: seq<Row>, fromConsignor: seq<Option<string>>, fromConsignee: seq<Option<string>>)
    modifies a
    ensures Combined(old(a[..]), combined)
    ensures Extractions(finder, Names(old(a[..])).0, fromConsignor)
    ensures Extractions(finder, Names(old(a[..])).1, fromConsignee)
    ensures Extracted(combined, a[..], fromConsignor, fromConsignee)
  {
    ghost var s0 := a[..];
    MapRows(a, CombineStep);
    combined := a[..];
    forall i
      ensures CombinedAt(s0, combined, i)
    {
      if 0 <= i < a.Length {
        assert combined[i] == a[i];
      }
    }
    var names := Names(a[..]);
    assert names.0 == Names(s0).0 && names.1 == Names(s0).1;
    fromConsignor := ExtractAll(finder, names.0);
    fromConsignee := ExtractAll(finder, names.1);
    assert |fromConsignor| == |fromConsignee| == a.Length;
    ZipRows(a, fromConsignor, fromConsignee, ExtractStep);
    forall i
      ensures ExtractedAt(combined, a[..], fromConsignor, fromConsignee, i)
    {
      if 0 <= i < a.Length {
        assert a[..][i] == a[i];
      }
    }
  }

  /** The wipe, the type-code and address candidates, the Mississauga override and the precedence chain. */
  method ResolveCodesSteps(a: array<Row>, env: Env)
    modifies a
    ensures CodesResolved(env, old(a[..]), a[..])
  {
    var known, finder, typeColumns := env.masterCombined, env.finder, env.typeColumns;
    MapRows(a, r => WipeStep(known, r));
    MapRows(a, r => TypeCodeStep(finder, typeColumns, r));
    MapRows(a, r => AddrLookupStep(finder, r));
    MapRows(a, MississaugaStep);
    MapRows(a, FinalStep);
  }

  /** The second normalisation, the types, the responsible party, the centres, the account and the accuracy flag. */
  method ResolvePartySteps(a: array<Row>, env: Env)
    modifies a
    ensures PartiesResolved(env, old(a[..]), a[..])
  {
    var codeToType, special, matrix, financials := env.codeToType, env.special, env.matrix, env.financials;
    MapRows(a, NormalizeFinalsStep);
    MapRows(a, r => TypeStep(codeToType, r));
    MapRows(a, r => ResponsiblePartyStep(special, matrix, r));
    MapRows(a, r => FinancialStep(financials, r));
    MapRows(a, AccountStep);
    MapRows(a, AccuracyStep);
  }

  // The stages of run_pipeline over the sheet, from the records `s` before a
  // stage to the records `t` after it. Each stage is stated record by record
  // through an `...At` predicate, which serves as the trigger, so that a stage
  // is unfolded only for the records a proof names.

  /** Stage one: the combined addresses of record `i`. */
  ghost predicate CombinedAt(s: seq<Row>, t: seq<Row>, i: int) {
    0 <= i < |s| == |t| ==> t[i] == CombineStep(s[i])
  }

  ghost predicate Combined(s: seq<Row>, t: seq<Row>) {
    |t| == |s| && forall i :: CombinedAt(s, t, i)
  }

  /** Stage two: the two extraction outcomes of record `i`, normalised and stored. */
  ghost predicate ExtractedAt(s: seq<Row>, t: seq<Row>, fromConsignor: seq<Option<string>>, fromConsignee: seq<Option<string>>, i: int) {
    0 <= i < |s| == |t| == |fromConsignor| == |fromConsignee| ==> t[i] == ExtractStep(s[i], fromConsignor[i], fromConsignee[i])
  }

  ghost predicate Extracted(s: seq<Row>, t: seq<Row>, fromConsignor: seq<Option<string>>, fromConsignee: seq<Option<string>>) {
    |t| == |s| == |fromConsignor| == |fromConsignee| && forall i :: ExtractedAt(s, t, fromConsignor, fromConsignee, i)
  }

  /** Stage three: the final codes of record `i` chosen. */
  ghost predicate CodesAt(env: Env, s: seq<Row>, t: seq<Row>, i: int) {
    0 <= i < |s| == |t| ==> t[i] == ResolveCodes(env, s[i])
  }

  ghost predicate CodesResolved(env: Env, s: seq<Row>, t: seq<Row>) {
    |t| == |s| && forall i :: CodesAt(env, s, t, i)
  }

  /** Stage four: the exception rules applied to record `i`. */
  ghost predicate RulesAt(s: seq<Row>, t: seq<Row>, i: int) {
    0 <= i < |s| == |t| ==> t[i] == ApplyRules(s[i], ExceptionRules)
  }

  ghost predicate RulesApplied(s: seq<Row>, t: seq<Row>) {
    |t| == |s| && forall i :: RulesAt(s, t, i)
  }

  /** Stage five: the responsible party and the accrual columns of record `i`. */
  ghost predicate PartiesAt(env: Env, s: seq<Row>, t: seq<Row>, i: int) {
    0 <= i < |s| == |t| ==> t[i] == ResolveParty(env, s[i])
  }

  ghost predicate PartiesResolved(env: Env, s: seq<Row>, t: seq<Row>) {
    |t| == |s| && forall i :: PartiesAt(env, s, t, i)
  }

  /** The whole run: record `i` is ResolveRow of its input and its two extraction outcomes. */
  ghost predicate ResolvedAt(env: Env, s: seq<Row>, t: seq<Row>, fromConsignor: seq<Option<string>>, fromConsignee: seq<Option<string>>, i: int) {
    0 <= i < |s| == |t| == |fromConsignor| == |fromConsignee| ==> t[i] == ResolveRow(env, s[i], fromConsignor[i], fromConsignee[i])
  }

  ghost predicate Resolved(env: Env, s: seq<Row>, t: seq<Row>, fromConsignor: seq<Option<string>>, fromConsignee: seq<Option<string>>) {
    |t| == |s| == |fromConsignor| == |fromConsignee| && forall i :: ResolvedAt(env, s, t, fromConsignor, fromConsignee, i)
  }

  /** The five stages in turn make up ResolveRow on every record. */
  lemma ComposeStages(env: Env, s0: seq<Row>, s1: seq<Row>, s2: seq<Row>, s3: seq<Row>, s4: seq<Row>, s5: seq<Row>,
                      fromConsignor: seq<Option<string>>, fromConsignee: seq<Option<string>>)
    requires Combined(s0, s1) && Extracted(s1, s2, fromConsignor, fromConsignee) && CodesResolved(env, s2, s3)
    requires RulesApplied(s3, s4) && PartiesResolved(env, s4, s5)
    ensures Resolved(env, s0, s5, fromConsignor, fromConsignee)
  {
    forall i
      ensures ResolvedAt(env, s0, s5, fromConsignor, fromConsignee, i)
    {
      assert CombinedAt(s0, s1, i) && ExtractedAt(s1, s2, fromConsignor, fromConsignee, i);
      assert CodesAt(env, s2, s3, i) && RulesAt(s3, s4, i) && PartiesAt(env, s4, s5, i);
      if 0 <= i < |s0| {
        ComposeRow(env, s0[i], s1[i], s2[i], s3[i], s4[i], s5[i], fromConsignor[i], fromConsignee[i]);
      }
    }
  }

  /** The row steps of run_pipeline over the whole sheet, for a given environment. */
  method ResolveAll(a: array<Row>, env: Env) returns (fromConsignor: seq<Option<string>>, fromConsignee: seq<Option<string>>)
    modifies a
    ensures Extractions(env.finder, Names(old(a[..])).0, fromConsignor)
    ensures Extractions(env.finder, Names(old(a[..])).1, fromConsignee)
    ensures Resolved(env, old(a[..]), a[..], fromConsignor, fromConsignee)
  {
    ghost var s0 := a[..];
    ghost var s1;
    s1, fromConsignor, fromConsignee := CombineAndExtract(a, env.finder);
    ghost var s2 := a[..];
    ResolveCodesSteps(a, env);
    ghost var s3 := a[..];
    ApplyExceptionRules(a, ExceptionRules);
    ghost var s4 := a[..];
    forall i
      ensures RulesAt(s3, s4, i)
    {
      if 0 <= i < a.Length {
        assert s4[i] == a[i];
      }
    }
    ResolvePartySteps(a, env);
    ComposeStages(env, s0, s1, s2, s3, s4, a[..], fromConsignor, fromConsignee);
  }

  /** The environment run_pipeline builds from its reference tables. */
  ghost predicate EnvFor(env: Env, myLoc: seq<MasterRow>, masterLoc: seq<LocTypeRow>, codes: seq<Option<string>>,
                         columns: seq<string>, financials: map<string, (string, string)>,
                         special: map<(string, string), string>, matrix: map<(string, string), string>)
  {
    && env.finder.Valid()
    && env.finder.codesSetRaw == RawCodes(NormalizedCodes(codes))
    && env.finder.addressToCode == AddressIndex(NormalizedMyLoc(myLoc))
    && env.masterCombined == MasterCombinedSet(NormalizedMyLoc(myLoc))
    && env.typeColumns == HasTypeColumns(columns)
    && env.codeToType == CodeToType(masterLoc)
    && env.financials == financials && env.special == special && env.matrix == matrix
  }

  /**
   * run_pipeline from the reference-table normalisation to the accuracy
   * flag: every record ends as ResolveRow of itself, given the outcomes the
   * two text extractions produced for it.
   */
  method RunPipeline(a: array<Row>, myLoc: seq<MasterRow>, masterLoc: seq<LocTypeRow>, codes: seq<Option<string>>,
                     columns: seq<string>, financials: map<string, (string, string)>,
                     special: map<(string, string), string>, matrix: map<(string, string), string>)
    returns (env: Env, fromConsignor: seq<Option<string>>, fromConsignee: seq<Option<string>>)
    modifies a
    ensures fresh(env.finder)
    ensures EnvFor(env, myLoc, masterLoc, codes, columns, financials, special, matrix)
    ensures Extractions(env.finder, Names(old(a[..])).0, fromConsignor)
    ensures Extractions(env.finder, Names(old(a[..])).1, fromConsignee)
    ensures Resolved(env, old(a[..]), a[..], fromConsignor, fromConsignee)
  {
    env := BuildEnv(myLoc, masterLoc, codes, columns, financials, special, matrix);
    fromConsignor, fromConsignee := ResolveAll(a, env);
  }

  lemma ComposeRow(env: Env, r0: Row, r1: Row, r2: Row, r3: Row, r4: Row, r5: Row, o: Option<string>, e: Option<string>)
    requires r1 == CombineStep(r0) && r2 == ExtractStep(r1, o, e) && r3 == ResolveCodes(env, r2)
    requires r4 == ApplyRules(r3, ExceptionRules) && r5 == ResolveParty(env, r4)
    ensures r5 == ResolveRow(env, r0, o, e)
  {
  }
}
