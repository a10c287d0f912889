/**
 * What the per-record steps of run_pipeline promise: the address-sanity
 * wipe, the Mississauga override, the precedence chain, the exception
 * table, the type lookup, the centre blanking, the GL account and the
 * accuracy flag, each proved about the step functions of Pipeline.
 */
module PipelineFacts {
  import opened Wrappers
  import opened Text
  import opened Dicts
  import opened LocationCodes
  import opened Utilities
  import opened Accrual
  import opened Pipeline

  // ---------------------------------------------------------------------
  // The master address set

  /** master_combined_set holds exactly the keys of address_to_code built from the same table. */
  lemma MasterCombinedSetIsIndexKeys(rows: seq<MasterRow>)
    ensures MasterCombinedSet(rows) == AddressIndex(rows).Keys
  {
    forall k
      ensures k in MasterCombinedSet(rows) <==> k in AddressIndex(rows)
    {
      AddressIndexKeys(rows, k);
      if k in MasterCombinedSet(rows) {
        var i :| 0 <= i < |rows| && MasterKey(rows[i]).Some? && MasterKey(rows[i]).value == k;
        CombineAddrShape(rows[i].street, rows[i].city, rows[i].state);
      }
    }
  }

  /** A missing combined address, read as "", is never one of the master addresses. */
  lemma MissingAddressUnknown(rows: seq<MasterRow>)
    ensures !AddressKnown(None, MasterCombinedSet(rows))
  {
    MasterCombinedSetIsIndexKeys(rows);
    AddressIndexKeys(rows, "");
  }

  /**
   * An address lookup that finds a code needs a known address: a combined
   * address outside master_combined_set gets nothing from address_to_code.
   */
  lemma LookupNeedsKnownAddress(f: LocationCodesFinder, rows: seq<MasterRow>,
                                street: Option<string>, city: Option<string>, state: Option<string>)
    requires f.addressToCode == AddressIndex(rows)
    ensures var combined := CombineAddr(street, city, state);
            f.ExtractFromAddress(combined).Some? ==> AddressKnown(combined, MasterCombinedSet(rows))
  {
    MasterCombinedSetIsIndexKeys(rows);
    var combined := CombineAddr(street, city, state);
    if combined.Some? {
      CombineAddrShape(street, city, state);
    }
  }

  // ---------------------------------------------------------------------
  // The address-sanity wipe

  /**
   * The wipe touches only the text-extracted code, and blanks it exactly
   * when it is not blank, the name has no whole-word CINTAS or MAT and the
   * combined address is unknown.
   */
  lemma WipeSpec(p: Party, known: set<string>)
    ensures WipeParty(p, known).(extracted := p.extracted) == p
    ensures WipeParty(p, known).extracted == "" <==> (p.extracted == "" || WipeApplies(p, known))
    ensures WipeParty(p, known).extracted != p.extracted <==>
            (!IsBlank(p.extracted) && !NamesOwnBrand(p.name) && !AddressKnown(p.combined, known))
  {
    StripBlank(p.extracted);
  }

  /** On a record, the wipe leaves both type-code candidates, both address candidates and everything else. */
  lemma WipeStepKeeps(known: set<string>, r: Row)
    ensures var w := WipeStep(known, r);
            && w.(consignor := w.consignor.(extracted := r.consignor.extracted),
                  consignee := w.consignee.(extracted := r.consignee.extracted)) == r
  {
    WipeSpec(r.consignor, known);
    WipeSpec(r.consignee, known);
  }

  // ---------------------------------------------------------------------
  // The Mississauga override

  /** A text that starts with one of `ps`, all non-empty, starts with the first letter of one of them. */
  lemma StartsWithAnyInitial(s: string, ps: seq<string>) returns (k: nat)
    requires StartsWithAny(s, ps)
    requires forall j :: 0 <= j < |ps| ==> |ps[j]| > 0
    ensures k < |ps| && |s| > 0 && s[0] == ps[k][0]
  {
    k :| 0 <= k < |ps| && StartsWith(s, ps[k]);
    assert ps[k][0] == s[0];
  }

  /** No consignor text falls in two prefix groups: they begin with different letters. */
  lemma GroupsExclusive(text: string)
    ensures !(StartsWithAny(text, Group097H) && StartsWithAny(text, Group067N))
    ensures !(StartsWithAny(text, Group097H) && StartsWithAny(text, Group0897))
    ensures !(StartsWithAny(text, Group067N) && StartsWithAny(text, Group0897))
  {
    if StartsWithAny(text, Group097H) {
      var k := StartsWithAnyInitial(text, Group097H);
      assert text[0] in {'L', 'A', 'R', 'E'};
    }
    if StartsWithAny(text, Group067N) {
      var k := StartsWithAnyInitial(text, Group067N);
      assert text[0] in {'V', 'Z'};
    }
    if StartsWithAny(text, Group0897) {
      var k := StartsWithAnyInitial(text, Group0897);
      assert text[0] in {'C', 'B'};
    }
  }

  /**
   * The override changes only the consignee's address-lookup code, and only
   * for the Suite, Mississauga consignee: each consignor prefix group gets
   * its own code, and any other consignor keeps the looked-up one.
   */
  lemma MississaugaSpec(r: Row)
    ensures var m := MississaugaStep(r);
            m.(consignee := m.consignee.(addrLookup := r.consignee.addrLookup)) == r
    ensures var m := MississaugaStep(r); var text := ConsignorText(r);
            && (SuiteMississauga(r) && StartsWithAny(text, Group097H) ==> m.consignee.addrLookup == "097H")
            && (SuiteMississauga(r) && StartsWithAny(text, Group067N) ==> m.consignee.addrLookup == "067N")
            && (SuiteMississauga(r) && StartsWithAny(text, Group0897) ==> m.consignee.addrLookup == "0897")
    ensures var text := ConsignorText(r);
            !SuiteMississauga(r)
            || !(StartsWithAny(text, Group097H) || StartsWithAny(text, Group067N) || StartsWithAny(text, Group0897))
            ==> MississaugaStep(r) == r
  {
    GroupsExclusive(ConsignorText(r));
  }

  // ---------------------------------------------------------------------
  // The precedence chain

  /** NON-CINTAS survives `_normalize_loc_code`. */
  lemma NonCintasNormal()
    ensures NormalizeLocCode(Some("NON-CINTAS")) == "NON-CINTAS" && Canonical("NON-CINTAS")
  {
    var s := "NON-CINTAS";
    assert Canonical(s);
    CanonicalFixed(s);
    assert !IsDigit(s[0]);
  }

  /**
   * The final code is the normalised first candidate that is not
   * whitespace-only among the extracted, the org/dest-type and the
   * address-lookup code, and NON-CINTAS when all three are blank.
   */
  lemma PrecedenceSpec(extracted: string, typeCode: string, addrLookup: string)
    ensures !IsBlank(extracted) ==> FinalCodeOf(extracted, typeCode, addrLookup) == NormalizeLocCode(Some(extracted))
    ensures IsBlank(extracted) && !IsBlank(typeCode) ==>
              FinalCodeOf(extracted, typeCode, addrLookup) == NormalizeLocCode(Some(typeCode))
    ensures IsBlank(extracted) && IsBlank(typeCode) && !IsBlank(addrLookup) ==>
              FinalCodeOf(extracted, typeCode, addrLookup) == NormalizeLocCode(Some(addrLookup))
    ensures IsBlank(extracted) && IsBlank(typeCode) && IsBlank(addrLookup) ==>
              FinalCodeOf(extracted, typeCode, addrLookup) == "NON-CINTAS"
  {
    NonCintasNormal();
  }

  /** A code that is not blank normalises to a non-empty code in normal form. */
  lemma NormalizedNonBlank(v: string)
    requires !IsBlank(v)
    ensures var c := NormalizeLocCode(Some(v));
            c != "" && Canonical(c) && NormalizeLocCode(Some(c)) == c
  {
    NormalizeLocCodeCases(Some(v));
    StripUpperBlank(v);
    NormalizeLocCodeIdempotent(Some(v));
  }

  /** A final code is never blank, and it is in the normal form `_normalize_loc_code` gives. */
  lemma FinalCodeShape(extracted: string, typeCode: string, addrLookup: string)
    ensures var c := FinalCodeOf(extracted, typeCode, addrLookup);
            c != "" && Canonical(c) && NormalizeLocCode(Some(c)) == c
  {
    var chosen := CleanBlank(Some(extracted)).OrElse(CleanBlank(Some(typeCode))).OrElse(CleanBlank(Some(addrLookup)));
    if chosen.None? {
      NonCintasNormal();
      assert FinalCodeOf(extracted, typeCode, addrLookup) == "NON-CINTAS";
    } else {
      NormalizedNonBlank(chosen.value);
    }
  }

  /** Without both type columns, the org/dest-type candidates are "" whatever the record holds. */
  lemma NoTypeColumnsNoTypeCodes(f: LocationCodesFinder, r: Row)
    ensures var t := TypeCodeStep(f, false, r);
            t.consignor.typeCode == "" && t.consignee.typeCode == ""
  {
    NormalizeLocCodeCases(Some(""));
  }

  /** With both type columns, each candidate is the validated code of its own column only. */
  lemma TypeCodesValidated(f: LocationCodesFinder, r: Row)
    ensures var t := TypeCodeStep(f, true, r);
            && t.consignor.typeCode == NormalizeCell(f.ValidateCodeInList(r.consignor.typeCell))
            && t.consignee.typeCode == NormalizeCell(f.ValidateCodeInList(r.consignee.typeCell))
  {
  }

  // ---------------------------------------------------------------------
  // The exception table

  /** Every rule of the table matches on a column the sheet has and sets one of the two final codes. */
  lemma ExceptionColumnsPresent(r: Row, k: nat)
    requires k < |ExceptionRules|
    ensures Column(r, ExceptionRules[k].matchColumn).Some?
    ensures FinalOf(r, ExceptionRules[k].setColumn).Some?
  {
  }

  /** A rule changes at most the final code it names, and only when it matches. */
  lemma ApplyRuleFinal(r: Row, rule: ExceptionRule, col: string)
    ensures var t := ApplyRule(r, rule);
            && t.(consignor := t.consignor.(finalCode := r.consignor.finalCode),
                  consignee := t.consignee.(finalCode := r.consignee.finalCode)) == r
            && FinalOf(t, col) == if RuleMatches(r, rule) && rule.setColumn == col && FinalOf(r, col).Some?
                                  then Some(rule.value) else FinalOf(r, col)
  {
  }

  /** The rules leave every field but the two final codes as they were. */
  lemma {:induction false} ApplyRulesKeeps(r: Row, rules: seq<ExceptionRule>)
    ensures var t := ApplyRules(r, rules);
            t.(consignor := t.consignor.(finalCode := r.consignor.finalCode),
               consignee := t.consignee.(finalCode := r.consignee.finalCode)) == r
    decreases |rules|
  {
    if |rules| > 0 {
      var prev := ApplyRules(r, rules[..|rules| - 1]);
      ApplyRulesKeeps(r, rules[..|rules| - 1]);
      ApplyRuleFinal(prev, rules[|rules| - 1], "");
    }
  }

  /** Since no rule changes a match column, each rule matches on the record as it came in. */
  lemma MatchesOnInput(r: Row, rules: seq<ExceptionRule>, rule: ExceptionRule)
    ensures RuleMatches(ApplyRules(r, rules), rule) == RuleMatches(r, rule)
  {
    ApplyRulesKeeps(r, rules);
  }

  /**
   * A later matching rule overwrites an earlier one: the final code a
   * matching rule sets is kept when no later rule for the same code matches.
   */
  lemma {:induction false} ExceptionLastMatchWins(r: Row, rules: seq<ExceptionRule>, k: nat)
    requires k < |rules| && RuleMatches(r, rules[k]) && FinalOf(r, rules[k].setColumn).Some?
    requires forall j :: k < j < |rules| && rules[j].setColumn == rules[k].setColumn ==> !RuleMatches(r, rules[j])
    ensures FinalOf(ApplyRules(r, rules), rules[k].setColumn) == Some(rules[k].value)
    decreases |rules|
  {
    var n := |rules| - 1;
    var init := rules[..n];
    var prev := ApplyRules(r, init);
    var col := rules[k].setColumn;
    MatchesOnInput(r, init, rules[n]);
    ApplyRulesKeeps(r, init);
    assert FinalOf(prev, col).Some?;
    ApplyRuleFinal(prev, rules[n], col);
    if k < n {
      assert init[k] == rules[k];
      ExceptionLastMatchWins(r, init, k);
    }
  }

  /** A final code no rule for it matches keeps its value. */
  lemma {:induction false} ExceptionNoMatchKeeps(r: Row, rules: seq<ExceptionRule>, col: string)
    requires forall j :: 0 <= j < |rules| && rules[j].setColumn == col ==> !RuleMatches(r, rules[j])
    ensures FinalOf(ApplyRules(r, rules), col) == FinalOf(r, col)
    decreases |rules|
  {
    if |rules| > 0 {
      var n := |rules| - 1;
      var init := rules[..n];
      MatchesOnInput(r, init, rules[n]);
      ApplyRuleFinal(ApplyRules(r, init), rules[n], col);
      ExceptionNoMatchKeeps(r, init, col);
    }
  }

  /**
   * Both VALDEZ and COOPETRAJES in the consignee name: the later COOPETRAJES
   * rule wins, unless an EMPRESA rule further down matches too.
   */
  lemma CoopetrajesOverValdez(r: Row)
    requires Contains(Upper(r.consignee.name), "COOPETRAJES")
    requires !Contains(Upper(r.consignee.name), "EMPRESSA") && !Contains(Upper(r.consignee.name), "EMPRESA")
    ensures ApplyRules(r, ExceptionRules).consignee.finalCode == "0896"
  {
    var rules := ExceptionRules;
    assert RuleMatches(r, rules[5]);
    forall j | 5 < j < |rules| && rules[j].setColumn == rules[5].setColumn
      ensures !RuleMatches(r, rules[j])
    {
      assert j == 9 || j == 10;
    }
    ExceptionLastMatchWins(r, rules, 5);
  }

  /** Four digits or upper-case letters are their own normal form. */
  lemma FourCharCodeNormal(v: string)
    requires |v| == 4 && forall i :: 0 <= i < 4 ==> IsDigit(v[i]) || IsUpperLetter(v[i])
    ensures NormalizeLocCode(Some(v)) == v
  {
    assert Canonical(v);
    CanonicalFixed(v);
    NormalizeTextCases(v);
  }

  /** Every value of the table is already in normal form. */
  lemma RuleValuesNormal(k: nat)
    requires k < |ExceptionRules|
    ensures |ExceptionRules[k].value| == 4
    ensures NormalizeLocCode(Some(ExceptionRules[k].value)) == ExceptionRules[k].value
  {
    var v := ExceptionRules[k].value;
    assert v in ["0021", "0K35", "0536", "0004", "0896", "067N", "0972"];
    FourCharCodeNormal(v);
  }

  /** After the rules, a final code is the one the record had or the value of some rule. */
  lemma {:induction false} ApplyRulesFinalFrom(r: Row, rules: seq<ExceptionRule>, col: string)
    ensures FinalOf(ApplyRules(r, rules), col) == FinalOf(r, col)
            || exists j :: 0 <= j < |rules| && FinalOf(ApplyRules(r, rules), col) == Some(rules[j].value)
    decreases |rules|
  {
    if |rules| > 0 {
      var n := |rules| - 1;
      ApplyRuleFinal(ApplyRules(r, rules[..n]), rules[n], col);
      ApplyRulesFinalFrom(r, rules[..n], col);
      if exists j :: 0 <= j < n && FinalOf(ApplyRules(r, rules[..n]), col) == Some(rules[..n][j].value) {
        var j :| 0 <= j < n && FinalOf(ApplyRules(r, rules[..n]), col) == Some(rules[..n][j].value);
        assert rules[..n][j] == rules[j];
      }
    }
  }

  /**
   * The normalisation after the rules changes nothing when the final codes
   * came in normalised, as the precedence chain leaves them.
   */
  lemma SecondNormalizationIdle(r: Row)
    requires NormalizeLocCode(Some(r.consignor.finalCode)) == r.consignor.finalCode
    requires NormalizeLocCode(Some(r.consignee.finalCode)) == r.consignee.finalCode
    ensures var t := ApplyRules(r, ExceptionRules); NormalizeFinalsStep(t) == t
  {
    var t := ApplyRules(r, ExceptionRules);
    ApplyRulesFinalFrom(r, ExceptionRules, "Final Consignor Code");
    ApplyRulesFinalFrom(r, ExceptionRules, "Final Consignee Code");
    if exists j :: 0 <= j < |ExceptionRules| && FinalOf(t, "Final Consignor Code") == Some(ExceptionRules[j].value) {
      var j :| 0 <= j < |ExceptionRules| && FinalOf(t, "Final Consignor Code") == Some(ExceptionRules[j].value);
      RuleValuesNormal(j);
    }
    if exists j :: 0 <= j < |ExceptionRules| && FinalOf(t, "Final Consignee Code") == Some(ExceptionRules[j].value) {
      var j :| 0 <= j < |ExceptionRules| && FinalOf(t, "Final Consignee Code") == Some(ExceptionRules[j].value);
      RuleValuesNormal(j);
    }
  }

  // ---------------------------------------------------------------------
  // The type lookup

  /**
   * The type of a final code comes from the last master row with that Loc
   * Code; NON-CINTAS when that row's type is NA or "nan".
   */
  lemma TypeLookupFound(rows: seq<LocTypeRow>, code: string, i: nat)
    requires i < |rows| && LocKey(rows[i].locCode) == Upper(code)
    requires forall j :: i < j < |rows| ==> LocKey(rows[j].locCode) != Upper(code)
    ensures FinalTypeOf(CodeToType(rows), code) == TypeValue(rows[i].typeCode).GetOr("NON-CINTAS")
  {
    var pairs := TypePairs(rows);
    DictFromPairsLastWins(pairs, i);
  }

  /** A final code no master row has is typed NON-CINTAS. */
  lemma TypeLookupMissing(rows: seq<LocTypeRow>, code: string)
    requires forall j :: 0 <= j < |rows| ==> LocKey(rows[j].locCode) != Upper(code)
    ensures FinalTypeOf(CodeToType(rows), code) == "NON-CINTAS"
  {
    DictFromPairsKeys(TypePairs(rows), Upper(code));
  }

  // ---------------------------------------------------------------------
  // The centres, the account and the accuracy flag

  /**
   * The centres come from the lookup of the responsible party, stripped, and
   * are "" for THIRD PARTY, NON-CINTAS and a party the lookup does not have;
   * nothing else in the record changes.
   */
  lemma FinancialSpec(financials: map<string, (string, string)>, r: Row)
    ensures var t := FinancialStep(financials, r);
            t.(profitCenterEJ := r.profitCenterEJ, costCenterEJ := r.costCenterEJ) == r
    ensures var t := FinancialStep(financials, r);
            NoCenters(r.responsibleParty) || r.responsibleParty !in financials ==>
              t.profitCenterEJ == "" && t.costCenterEJ == ""
    ensures var t := FinancialStep(financials, r);
            !NoCenters(r.responsibleParty) && r.responsibleParty in financials ==>
              t.profitCenterEJ == Strip(financials[r.responsibleParty].0)
              && t.costCenterEJ == Strip(financials[r.responsibleParty].1)
  {
    assert Strip("") == "";
  }

  /**
   * The GL account is 621000 or 621020, and 621020 exactly when the profit
   * centre has no G59 and the consignee is not the responsible party.
   */
  lemma AccountSpec(profitCenterEJ: string, finalConsigneeCode: string, responsibleParty: string)
    ensures var acct := AccountOf(profitCenterEJ, finalConsigneeCode, responsibleParty);
            acct == "621000" || acct == "621020"
    ensures AccountOf(profitCenterEJ, finalConsigneeCode, responsibleParty) == "621020" <==>
            !Contains(profitCenterEJ, "G59") && finalConsigneeCode != responsibleParty
  {
  }

  /** The stored account is the chosen one: forcing it to text changes nothing. */
  lemma AccountStepSpec(r: Row)
    ensures var t := AccountStep(r);
            && t.(accountEJ := r.accountEJ) == r
            && t.accountEJ == AccountOf(r.profitCenterEJ, r.consignee.finalCode, r.responsibleParty)
  {
    var acct := AccountOf(r.profitCenterEJ, r.consignee.finalCode, r.responsibleParty);
    assert acct[0] == '6' && acct[|acct| - 1] == '0';
    StripFixes(acct);
  }

  /** The flag is 1 exactly when the input profit centre is present and equals the looked-up one; nothing else changes. */
  lemma AccuracySpec(r: Row)
    ensures var t := AccuracyStep(r);
            && t.(automationAccuracy := r.automationAccuracy) == r
            && (t.automationAccuracy == 0 || t.automationAccuracy == 1)
            && (t.automationAccuracy == 1 <==> r.profitCenter == Some(r.profitCenterEJ))
  {
  }

  // ---------------------------------------------------------------------
  // Across the steps

  /** The steps after the exception table normalise the final codes once more and change them no further. */
  lemma ResolvePartyCodes(env: Env, r: Row)
    ensures ResolveParty(env, r).consignor.finalCode == NormalizeLocCode(Some(r.consignor.finalCode))
    ensures ResolveParty(env, r).consignee.finalCode == NormalizeLocCode(Some(r.consignee.finalCode))
  {
  }

  /** The precedence chain leaves both final codes non-blank and in normal form. */
  lemma ResolveCodesFinals(env: Env, x: Row)
    ensures var c := ResolveCodes(env, x);
            && c.consignor.finalCode != "" && NormalizeLocCode(Some(c.consignor.finalCode)) == c.consignor.finalCode
            && c.consignee.finalCode != "" && NormalizeLocCode(Some(c.consignee.finalCode)) == c.consignee.finalCode
  {
    var m := MississaugaStep(AddrLookupStep(env.finder, TypeCodeStep(env.finder, env.typeColumns, WipeStep(env.masterCombined, x))));
    FinalCodeShape(m.consignor.extracted, m.consignor.typeCode, m.consignor.addrLookup);
    FinalCodeShape(m.consignee.extracted, m.consignee.typeCode, m.consignee.addrLookup);
  }

  /** Rules whose values are all non-blank never write a blank final code over a non-blank one. */
  lemma RulesKeepNonBlank(r: Row, rules: seq<ExceptionRule>, col: string)
    requires forall j :: 0 <= j < |rules| ==> rules[j].value != ""
    requires FinalOf(r, col).Some? ==> FinalOf(r, col).value != ""
    ensures FinalOf(ApplyRules(r, rules), col).Some? ==> FinalOf(ApplyRules(r, rules), col).value != ""
  {
    ApplyRulesFinalFrom(r, rules, col);
  }

  /**
   * The final codes the pipeline writes are never blank and are in normal
   * form, whatever the codes extracted before the precedence chain.
   */
  lemma FinalCodesNeverBlank(env: Env, x: Row)
    ensures var t := ResolveParty(env, ApplyRules(ResolveCodes(env, x), ExceptionRules));
            && t.consignor.finalCode != "" && NormalizeLocCode(Some(t.consignor.finalCode)) == t.consignor.finalCode
            && t.consignee.finalCode != "" && NormalizeLocCode(Some(t.consignee.finalCode)) == t.consignee.finalCode
  {
    ResolveCodesFinals(env, x);
    RulesThenPartyKeepCodes(env, ResolveCodes(env, x));
  }

  /** Exception rules and the responsible-party step keep non-blank, normal final codes so. */
  lemma RulesThenPartyKeepCodes(env: Env, c: Row)
    requires c.consignor.finalCode != "" && NormalizeLocCode(Some(c.consignor.finalCode)) == c.consignor.finalCode
    requires c.consignee.finalCode != "" && NormalizeLocCode(Some(c.consignee.finalCode)) == c.consignee.finalCode
    ensures var t := ResolveParty(env, ApplyRules(c, ExceptionRules));
            && t.consignor.finalCode != "" && NormalizeLocCode(Some(t.consignor.finalCode)) == t.consignor.finalCode
            && t.consignee.finalCode != "" && NormalizeLocCode(Some(t.consignee.finalCode)) == t.consignee.finalCode
  {
    var t := ApplyRules(c, ExceptionRules);
    SecondNormalizationIdle(c);
    forall j | 0 <= j < |ExceptionRules| ensures ExceptionRules[j].value != "" {
      RuleValuesNormal(j);
    }
    RulesKeepNonBlank(c, ExceptionRules, "Final Consignor Code");
    RulesKeepNonBlank(c, ExceptionRules, "Final Consignee Code");
    ResolvePartyCodes(env, t);
  }

  /** The same for a whole record through ResolveRow. */
  lemma ResolvedCodesNeverBlank(env: Env, r: Row, fromConsignor: Option<string>, fromConsignee: Option<string>)
    ensures var t := ResolveRow(env, r, fromConsignor, fromConsignee);
            t.consignor.finalCode != "" && t.consignee.finalCode != ""
  {
    FinalCodesNeverBlank(env, ExtractStep(CombineStep(r), fromConsignor, fromConsignee));
  }

  /** The consignor's final code from its three candidates: the Mississauga override never touches the consignor. */
  lemma ResolveCodesConsignor(env: Env, x: Row)
    ensures ResolveCodes(env, x).consignor.finalCode
            == FinalCodeOf(WipeParty(x.consignor, env.masterCombined).extracted,
                           TypeCodeStep(env.finder, env.typeColumns, x).consignor.typeCode,
                           NormalizeCell(env.finder.ExtractFromAddress(x.consignor.combined)))
  {
    var w := WipeStep(env.masterCombined, x);
    WipeStepKeeps(env.masterCombined, x);
    assert w.consignor.typeCell == x.consignor.typeCell && w.consignee.typeCell == x.consignee.typeCell;
    assert w.consignor.combined == x.consignor.combined;
    var t := TypeCodeStep(env.finder, env.typeColumns, w);
    assert t.consignor.typeCode == TypeCodeStep(env.finder, env.typeColumns, x).consignor.typeCode;
    var a := AddrLookupStep(env.finder, t);
    assert a.consignor.addrLookup == NormalizeCell(env.finder.ExtractFromAddress(x.consignor.combined));
    var m := MississaugaStep(a);
    assert ResolveCodes(env, x) == FinalStep(m);
  }

  /**
   * A consignor that is neither named CINTAS or MAT nor at a master address
   * loses both the text-extracted and the address-lookup codes: its final
   * code comes from the org type column, or is NON-CINTAS.
   */
  lemma UnknownConsignorFallsBack(env: Env, rows: seq<MasterRow>, x: Row)
    requires env.finder.addressToCode == AddressIndex(rows) && env.masterCombined == MasterCombinedSet(rows)
    requires x.consignor.combined == CombineAddr(Some(x.consignor.address), Some(x.consignor.city), Some(x.consignor.state))
    requires !NamesOwnBrand(x.consignor.name) && !AddressKnown(x.consignor.combined, env.masterCombined)
    ensures ResolveCodes(env, x).consignor.finalCode
            == FinalCodeOf("", TypeCodeStep(env.finder, env.typeColumns, x).consignor.typeCode, "")
  {
    ResolveCodesConsignor(env, x);
    UnknownPartyCandidates(env.finder, rows, env.masterCombined, x.consignor, TypeCodeStep(env.finder, env.typeColumns, x).consignor.typeCode);
  }

  /** The candidates of such a party: the extracted one is wiped or blank, and the address lookup finds nothing. */
  lemma UnknownPartyCandidates(f: LocationCodesFinder, rows: seq<MasterRow>, known: set<string>, p: Party, typeCode: string)
    requires f.addressToCode == AddressIndex(rows) && known == MasterCombinedSet(rows)
    requires p.combined == CombineAddr(Some(p.address), Some(p.city), Some(p.state))
    requires !NamesOwnBrand(p.name) && !AddressKnown(p.combined, known)
    ensures FinalCodeOf(WipeParty(p, known).extracted, typeCode, NormalizeCell(f.ExtractFromAddress(p.combined)))
            == FinalCodeOf("", typeCode, "")
  {
    WipeSpec(p, known);
    StripBlank(p.extracted);
    LookupNeedsKnownAddress(f, rows, Some(p.address), Some(p.city), Some(p.state));
    NormalizeLocCodeCases(Some(""));
    FinalCodeOfBlanks(WipeParty(p, known).extracted, typeCode, NormalizeCell(f.ExtractFromAddress(p.combined)));
  }

  /** Whitespace-only candidates count as absent, like "". */
  lemma FinalCodeOfBlanks(extracted: string, typeCode: string, addrLookup: string)
    requires IsBlank(extracted) && IsBlank(addrLookup)
    ensures FinalCodeOf(extracted, typeCode, addrLookup) == FinalCodeOf("", typeCode, "")
  {
  }
}
