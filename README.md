# Location-code resolution and responsible-party engine

This project models the core of a freight-accrual tool. For each shipment
record the engine does three things:

- it picks an internal 4-character Cintas location code for the consignor
  (origin) and for the consignee (destination);
- it picks the responsible party, i.e. the profit center that bears the cost;
- it derives the profit/cost center, the GL account and an automation-accuracy
  flag.

The model has nine modules:

- `Wrappers`: `Option`.
- `Text`: Python's `str` built-ins on ASCII:
  - `strip` and `split` whitespace (space, 9-13, 28-31);
  - `upper`, `zfill`, `in`, `startswith`;
  - the regular-expression word boundary `\b`.
- `Dicts`: `dict(pairs)`, where the last pair with a key wins.
- `LocationCodes`: `Location_Codes_Finder` of `location_codes_finder.py`, a
  class whose three reference structures are built by the constructor's loops
  and only read afterwards.
- `Utilities`: the helpers of `main_logic.py` (`_norm_col`, `_pick_col`,
  `clean_blank`, `_normalize_loc_code`, `_force_excel_text`).
- `Accrual`: the record: two `Party` values with the same columns, and the
  derived columns.
- `MatrixMapping`: `MatrixMapper.determine_profit_center` of
  `matrix_mapping.py`, with `_first_nonblank`.
- `Pipeline`: `run_pipeline`.
  - The reference tables are normalised, the finder is built, and the accrual
    sheet is an `array<Row>`.
  - Each column step of the source is a method that updates the array.
  - Each method is proved against the per-record function of that step.
  - The steps compose, so the array after `RunPipeline` is `ResolveRow`
    applied to each original record.
- `PipelineFacts`: the properties of the per-record steps:
  - the wipe;
  - the Mississauga override;
  - precedence;
  - the exception table;
  - the type lookup;
  - the financial join;
  - the GL account;
  - accuracy;
  - end-to-end facts about the final codes.

`extract_from_text` sorts a set of tokens by length only. The order among
tokens of equal length is therefore unspecified, and the model states it as a
relation (`IsTextExtraction`):

- `ExtractFromText` picks any longest untried token.
- Every result it may give satisfies that relation.
- `RunPipeline` returns the chosen outcomes for each row, and the per-record
  function takes them as parameters.

The external `coding_matrix` module (`SPECIAL_TYPE_MAPPINGS`, `Coding_Matrix`)
is not part of this model; its two tables are map parameters. The profit/cost
center master columns enter as a map from Loc Code to the (ProfitCtr, Cost
Center) text.

`address_to_code` and `master_code_to_type` are built with `dict(...)` over
pairs, so for a duplicated key the **last** row wins.

Notes where the code and its documentation differ (the model follows the code):

- `_force_excel_text` promises an apostrophe prefix in its docstring. Both of
  its branches return the stripped text unchanged, so no apostrophe is ever
  added (`Utilities.ForceExcelText`).
- The raw-set fallback of `validate_code_in_list` never changes the outcome,
  because `codes_set_4` is built from every element of the raw set
  (`LocationCodes.ValidateCodeInListSpec`).
- The test `not street_parts` of `combine_addr` never fires
  (`LocationCodes.FirstWordOfStripped`).
- The exception rules' match columns always exist, because
  `standardize_input_columns` creates them, so the skip branch is dead
  (`PipelineFacts.ExceptionColumnsPresent`).
- `_normalize_loc_code` zero-fills all-digit codes without truncating them, so
  "0000095" stays as it is. `format_code_4` keeps the last four digits, so it
  gives "0095".
- `zfill` keeps a leading sign in front of the zeros ("-5" becomes "-005"), so
  the original is a suffix of `format_code_4`'s result only when it has no
  sign.

## Model

| member | source | states |
|---|---|---|
| LocationCodes.FormatCode4 | location_codes_finder.py:43-61 | None exactly for a missing or whitespace-only code; otherwise at least four characters |
| LocationCodes.Pad4Digits | location_codes_finder.py:57-59 | an all-digit code becomes exactly four digits: its last four when longer, zero-filled on the left when shorter |
| LocationCodes.Pad4Other | location_codes_finder.py:60-61 | any other code is zero-filled to max(4, length), never truncated; unsigned codes are a suffix of the result, and a sign stays in front |
| LocationCodes.Pad4Canonical | location_codes_finder.py:54-61 | padding keeps text upper-case and free of edge whitespace, and keeps a not-all-digit code not all-digit |
| LocationCodes.Pad4Idempotent | location_codes_finder.py:57-61 | padding a padded code changes nothing |
| LocationCodes.FormatCode4OfText | location_codes_finder.py:52-61 | on non-blank input the result is the padding of the stripped upper-cased text |
| LocationCodes.FormatCode4IsCanonical | location_codes_finder.py:52-61 | every result is upper-case with no edge whitespace |
| LocationCodes.FormatCode4Idempotent | location_codes_finder.py:43-61 | format_code_4 of a result is that result |
| LocationCodes.Pad4DigitExamples | location_codes_finder.py:46-51 | "95" and "0000095" both become "0095" |
| LocationCodes.Pad4AlnumExamples | location_codes_finder.py:46-47 | "T60" becomes "0T60"; a signed "-5" becomes "-005" |
| LocationCodes.FormatCode4Examples | location_codes_finder.py:52-61 | " 11k " formats as "011K"; a blank code gives None |
| LocationCodes.CombineAddr | location_codes_finder.py:106-124 | combine_addr; its results are stated by CombineAddrAbsent, CombineAddrParts and CombineAddrShape |
| LocationCodes.CombineAddrAbsent | location_codes_finder.py:106-118 | no key exactly when street, city or state is missing or blank |
| LocationCodes.CombineAddrParts | location_codes_finder.py:119-124 | a key is first word of street, first word of city and state, joined, spaces removed, upper-cased |
| LocationCodes.CombineAddrShape | location_codes_finder.py:106-124 | a key is non-empty, has no space, starts with the upper-cased first street word, and is its own lookup key |
| LocationCodes.FirstWordOfStripped | location_codes_finder.py:119-122 | stripped non-empty text always has a first word |
| LocationCodes.FirstWordExample | location_codes_finder.py:108 | the first word of "100 Main St" is "100" |
| LocationCodes.MasterPair | location_codes_finder.py:35-39 | the pair of one master row: a present key is non-empty, has no space and is its own lookup key, so the lookup can find it again; the code is in normal form (no lower-case letter, no edge whitespace) |
| LocationCodes.MasterPairs | location_codes_finder.py:35-39 | one pair per master row, in table order; every code is in normal form and every present key is non-empty, space-free and its own lookup key |
| LocationCodes.AddressIndex | location_codes_finder.py:35-42 | address_to_code as a value; its keys are stated by AddressIndexKeys, its values by IndexPairsLastWins and AddressRoundTrip |
| LocationCodes.IndexPairsKeys | location_codes_finder.py:40-42 | the index keys are exactly the non-empty keys of the pairs |
| LocationCodes.IndexPairsLastWins | location_codes_finder.py:40-42 | a kept key maps to the code of its last pair |
| LocationCodes.AddressIndexKeys | location_codes_finder.py:35-42 | a text is an address_to_code key iff it is non-empty and the combined address of some master row |
| LocationCodes.CleanCodes | location_codes_finder.py:15-20 | NA exactly where the cell is NA; every present code is in normal form (no lower-case letter, no edge whitespace) |
| LocationCodes.RawCodesMembers | location_codes_finder.py:15-26 | codes_set_raw holds exactly the cleaned forms of the present cells |
| LocationCodes.BuildRawCodes | location_codes_finder.py:15-26 | the loop yields exactly the raw code set |
| LocationCodes.CollectTruthy | location_codes_finder.py:27-31 | the loop over a set collects exactly the non-None images |
| LocationCodes.BuildFormattedCodes | location_codes_finder.py:27-33 | codes_set_4 is exactly the format_code_4 images of the raw set |
| LocationCodes.CollectIndex | location_codes_finder.py:40-42 | the dict-building loop yields the last-wins index of the kept pairs |
| LocationCodes.BuildAddressIndex | location_codes_finder.py:35-42 | address_to_code is the index of the master table |
| LocationCodes.LocationCodesFinder.constructor | location_codes_finder.py:12-42 | the two code sets and the address index are those of the inputs, and codes_set_4 is the formatted raw set |
| LocationCodes.LocationCodesFinder.ValidateCodeInList | location_codes_finder.py:62-81 | a result is format_code_4 of the code, and the code is allowed in one of the two sets; on a finder whose codes_set_4 is built from its raw set, a result exists exactly when the formatted code is in codes_set_4 |
| LocationCodes.LocationCodesFinder.ExtractFromOrgDestType | location_codes_finder.py:125-132 | each side's result is format_code_4 of that side's code |
| LocationCodes.LocationCodesFinder.ExtractFromAddress | location_codes_finder.py:133-144 | a result exists only for a present key whose space-free, upper-cased, stripped form is indexed, and is format_code_4 of its code |
| LocationCodes.LocationCodesFinder.ExtractFromText | location_codes_finder.py:82-105 | None for missing text; None iff no token validates; otherwise the validation of a token than which no longer token validates |
| LocationCodes.AlnumRuns | location_codes_finder.py:94 | `re.findall(r"[A-Z0-9]+")`; every element is a run (its ensures), and every maximal run is found (RunFound) |
| LocationCodes.CodeShapes | location_codes_finder.py:97 | `re.findall(r"\d{1,4}[A-Z]{0,2}\|\d{1,4}")`; every element has the code shape (its ensures), and the shape at every digit that follows no digit is found (ShapeFound) |
| LocationCodes.Tokens | location_codes_finder.py:93-98 | the candidate set `set(tokens + extra)`; stated by TokensShape, TokensHaveRuns, TokensHaveShapes and TokensCintasExample |
| LocationCodes.LocationCodesFinder.IsTextExtraction | location_codes_finder.py:82-105 | what extract_from_text may return: None exactly when no token validates, else the validation of a token no longer validating token beats; ExtractFromText meets it, and ExtractionIsAllowed and ExtractionDetermined draw its consequences |
| LocationCodes.LookupKey | location_codes_finder.py:140 | the key normalisation of extract_from_address; combined keys are their own lookup key (CombineAddrShape, MasterPair) |
| LocationCodes.TokensShape | location_codes_finder.py:94-98 | every token is an `[A-Z0-9]+` run or a `\d{1,4}[A-Z]{0,2}` shape |
| LocationCodes.RunFound | location_codes_finder.py:94 | the `[A-Z0-9]+` scan from a position finds every maximal run starting at or after it |
| LocationCodes.ShapeFound | location_codes_finder.py:97 | the code-shape scan from a position finds, at every digit after it that follows no digit, the shape of up to four digits and up to two letters |
| LocationCodes.TokensHaveRuns | location_codes_finder.py:93-98 | every maximal `[A-Z0-9]` run of the upper-cased text is a candidate token |
| LocationCodes.TokensHaveShapes | location_codes_finder.py:93-98 | a code stuck to a word is a candidate too: the shape at every digit that follows no digit |
| LocationCodes.TokensCintasExample | location_codes_finder.py:93-97 | "CINTAS0095" offers both "CINTAS0095" and "0095" |
| LocationCodes.LongestExists | location_codes_finder.py:99-101 | a non-empty token set has a longest token |
| LocationCodes.RawFormatted | location_codes_finder.py:26-33 | every formattable raw code has its formatted form in codes_set_4 |
| LocationCodes.ValidateCodeInListSpec | location_codes_finder.py:62-81 | validation succeeds iff the formatted code is in codes_set_4, and then returns it: the raw-set fallback is dead |
| LocationCodes.OrgDestIndependent | location_codes_finder.py:125-132 | each side is validated on its own code, whatever the other side holds |
| LocationCodes.ExtractFromAddressOfCombined | location_codes_finder.py:133-144 | on a combined key, the lookup is format_code_4 of the indexed code if the key is indexed, else None |
| LocationCodes.AddressRoundTrip | location_codes_finder.py:35-42 | looking up a master row's own address gives its formatted code when no later row shares the address |
| LocationCodes.ExtractionDetermined | location_codes_finder.py:99-105 | when all validating tokens at least as long as a validating token agree on v, the extraction is v |
| LocationCodes.ExtractionIsAllowed | location_codes_finder.py:89-105 | an extracted code is in codes_set_4 and is format_code_4 of some token of the text |
| Utilities.NormCol | main_logic.py:71-72 | the normal form is no longer than the name and holds only `[a-z0-9]` |
| Utilities.NormColConcat | main_logic.py:71-72 | the normal form of a concatenation is the concatenation of the normal forms |
| Utilities.NormColDrops | main_logic.py:71-72 | a character that is not `[a-z0-9]` after lower-casing is removed wherever it stands |
| Utilities.NormColKeeps | main_logic.py:71-72 | any other character is kept, lower-cased, in place between the normal forms of its two sides |
| Utilities.NormColUpper | main_logic.py:71-72 | upper-casing the name first changes nothing, so case is ignored |
| Utilities.NormColIdempotent | main_logic.py:71-72 | normalising a normal form changes nothing |
| Utilities.NormColExample | main_logic.py:71-72 | "a B" and "AB" both normalise to "ab" |
| Utilities.NormMapKeys | main_logic.py:76 | norm_map's keys are exactly the normal forms of the columns |
| Utilities.NormMapValue | main_logic.py:76 | norm_map maps a normal form to the last column having it |
| Utilities.PickFrom | main_logic.py:77-81 | None iff no remaining candidate is in the map; else the column of the first candidate that is |
| Utilities.PickCol | main_logic.py:75-81 | `_pick_col`; stated by PickColNone and PickColSome (both directions) |
| Utilities.PickColNone | main_logic.py:75-81 | no column iff no candidate shares a normal form with any column |
| Utilities.PickColSome | main_logic.py:75-81 | the column picked has the normal form of the first matching candidate, and no later column has that form |
| Utilities.CleanBlank | main_logic.py:143-144 | NA exactly when the value is missing or its stripped text is empty; any other value passes unchanged and its stripped text is non-empty |
| Utilities.NormalizeLocCode | main_logic.py:147-159 | `_normalize_loc_code`; its cases are stated by NormalizeLocCodeCases and NormalizeTextCases, its idempotence by NormalizeLocCodeIdempotent |
| Utilities.NormalizeCell | main_logic.py:162-163 | `_normalize_loc_code_series` on one cell, NA read as ""; stated by NormalizeCellFixed and NormalizeLocCodeCases |
| Utilities.NormalizeTextCases | main_logic.py:154-159 | on stripped upper-case text: digits zero-filled to at least four, anything else kept |
| Utilities.NormalizeLocCodeCases | main_logic.py:147-159 | "" for None or blank; all-digit codes zero-filled without truncation; others stripped and upper-cased |
| Utilities.NormalizeLocCodeIdempotent | main_logic.py:147-159 | normalising a normalised code changes nothing |
| Utilities.NormalizeCellFixed | main_logic.py:147-163 | every normalised cell is a fixed point of `_normalize_loc_code` |
| Utilities.NormalizeLocCodeKeepsLongDigits | main_logic.py:148-158 | "972" becomes "0972" and "0000095" stays as it is |
| Utilities.ForceExcelText | main_logic.py:189-203 | the numeric branch (`-?\d+(\.\d+)?`) and the other branch agree: the result is the stripped text, NA giving "", so no apostrophe is added |
| Utilities.ForceExcelTextIdempotent | main_logic.py:189-203 | applying it twice equals applying it once |
| Dicts.DictFromPairsKeys | main_logic.py:390-395 | the keys of `dict(pairs)` are exactly the keys of the pairs |
| Dicts.DictFromPairsLastWins | main_logic.py:390-395 | a key maps to the value of its last pair |
| MatrixMapping.FirstNonblank | matrix_mapping.py:6-13 | "" iff no value qualifies; else the stripped value at the first qualifying position |
| MatrixMapping.FirstNonblankExample | matrix_mapping.py:6-13 | None and blank values are skipped |
| MatrixMapping.DetermineProfitCenter | matrix_mapping.py:16-49 | the first-match chain; its rules are stated by OverrideWins, SpecialCodeRule, OmnitransRule and MatrixFallback, its range by ProfitCenterSources |
| MatrixMapping.MatrixRule | matrix_mapping.py:38-49 | the special-mapping and Coding_Matrix tail of the chain; stated by MatrixRuleSpec |
| MatrixMapping.OverrideWins | matrix_mapping.py:18-23 | MM to CADC gives 037Q whatever else the record holds |
| MatrixMapping.OverrideSpacedExample | matrix_mapping.py:20-23 | "CA DC" counts as CADC |
| MatrixMapping.SpecialCodeRule | matrix_mapping.py:26-27 | a special consignee code with a USDC/CADC consignee and a non-LC consignor is the consignee's own code |
| MatrixMapping.OmnitransRule | matrix_mapping.py:28-36 | for an Omnitrans carrier: the first non-blank candidate, or the matrix rules when all are blank |
| MatrixMapping.MatrixFallback | matrix_mapping.py:38-49 | with no earlier rule applying, the matrix rules decide |
| MatrixMapping.MatrixRuleSpec | matrix_mapping.py:39-49 | the special mapping first; then ORIGIN gives the consignor code and DESTINATION the consignee code; else UNKNOWN |
| MatrixMapping.ProfitCenterSources | matrix_mapping.py:16-49 | the responsible party is 037Q, UNKNOWN, a final code, a special mapping value or an Omnitrans candidate |
| Pipeline.NormalizedMyLoc | main_logic.py:224-225 | same length; each row keeps every other column, and its Loc Code is present and a fixed point of `_normalize_loc_code` |
| Pipeline.NormalizedCodes | main_logic.py:229-231 | same length; every code is present and a fixed point of `_normalize_loc_code` |
| Pipeline.TypePair | main_logic.py:390-395 | the key of a row is its normalised Loc Code and a fixed point of the normalisation, so the second pass and the upper-casing change nothing; an NA type is absent |
| Pipeline.TypePairs | main_logic.py:390-395 | one pair per row, in table order; every key is the normalised Loc Code of its row and a fixed point of the normalisation; an NA type is absent |
| Pipeline.ExtractAll | main_logic.py:257-263 | each outcome is an extraction extract_from_text may give for the text at the same position |
| Pipeline.ApplyExceptionRules | main_logic.py:369-380 | every record is the list of rules applied to it in order |
| Pipeline.BuildEnv | main_logic.py:218-245 | the finder is built from the normalised tables, and the master set, type-column flag and type map are those of the inputs |
| Pipeline.CombineAndExtract | main_logic.py:247-263 | the combined addresses, then the normalised extraction outcomes of the two names |
| Pipeline.ResolveCodesSteps | main_logic.py:265-350 | every record through the wipe, type codes, address lookup, Mississauga override and precedence |
| Pipeline.ResolvePartySteps | main_logic.py:382-472 | every record through the second normalisation, type lookup, responsible party, centres, account and accuracy |
| Pipeline.ComposeStages | main_logic.py:247-472 | the column steps in sequence equal the per-record resolution |
| Pipeline.ResolveAll | main_logic.py:247-472 | the sheet ends as each original record resolved with the chosen extraction outcomes |
| Pipeline.RunPipeline | main_logic.py:209-472 | the reference data is prepared as above and every record is resolved as above |
| Pipeline.MasterCombinedSet | main_logic.py:239-245 | master_combined_set; equal to the keys of address_to_code (MasterCombinedSetIsIndexKeys) |
| Pipeline.CodeToType | main_logic.py:390-395 | master_code_to_type; its keys and values are stated by TypePairs, TypeLookupFound and TypeLookupMissing |
| Pipeline.CombineStep | main_logic.py:247-255 | the two combined addresses of a record, by combine_addr; used by ComposeStages |
| Pipeline.ExtractStep | main_logic.py:257-263 | the two extracted codes, normalised, from outcomes that ExtractAll proves satisfy IsTextExtraction |
| Pipeline.WipeParty | main_logic.py:265-287 | the wipe of one party's extracted code; stated by WipeSpec |
| Pipeline.WipeStep | main_logic.py:265-287 | the wipe on both parties; stated by WipeSpec and WipeStepKeeps |
| Pipeline.TypeCodeStep | main_logic.py:288-310 | the type-code candidates; stated by NoTypeColumnsNoTypeCodes and TypeCodesValidated |
| Pipeline.AddrLookupStep | main_logic.py:312-318 | the address-lookup candidates; stated by LookupNeedsKnownAddress and ExtractFromAddressOfCombined |
| Pipeline.MississaugaLookup | main_logic.py:320-332 | the consignee's address-lookup code after the Suite Mississauga override; stated by MississaugaSpec and GroupsExclusive |
| Pipeline.MississaugaStep | main_logic.py:320-332 | the override on a record; stated by MississaugaSpec |
| Pipeline.FinalCodeOf | main_logic.py:334-350 | the precedence of the three candidates; stated by PrecedenceSpec, FinalCodeShape and FinalCodeOfBlanks |
| Pipeline.FinalStep | main_logic.py:334-350 | both final codes by precedence; stated by ResolveCodesFinals |
| Pipeline.ExceptionRules | main_logic.py:355-367 | the exception table; its values are normal codes (RuleValuesNormal) and its columns exist (ExceptionColumnsPresent) |
| Pipeline.ApplyRule | main_logic.py:373-380 | one exception rule; stated by ApplyRuleFinal |
| Pipeline.ApplyRules | main_logic.py:369-380 | the rules in order; stated by ApplyRulesKeeps, ExceptionLastMatchWins, ExceptionNoMatchKeeps and ApplyRulesFinalFrom |
| Pipeline.NormalizeFinalsStep | main_logic.py:382-384 | the second normalisation of the final codes; stated by SecondNormalizationIdle and ResolvePartyCodes |
| Pipeline.FinalTypeOf | main_logic.py:397-402 | the type of a final code; stated by TypeLookupFound and TypeLookupMissing |
| Pipeline.TypeStep | main_logic.py:397-402 | both final types; stated by TypeLookupFound and TypeLookupMissing |
| Pipeline.ResponsiblePartyStep | main_logic.py:404-406 | determine_profit_center on each record; stated by the MatrixMapping lemmas |
| Pipeline.FinancialStep | main_logic.py:408-452 | the profit and cost centres; stated by FinancialSpec |
| Pipeline.AccountOf | main_logic.py:454-460 | the GL account; stated by AccountSpec |
| Pipeline.AccountStep | main_logic.py:454-461 | the stored account text; stated by AccountStepSpec |
| Pipeline.AccuracyStep | main_logic.py:463-472 | the automation-accuracy flag; stated by AccuracySpec |
| Pipeline.ResolveCodes | main_logic.py:265-350 | the code steps composed; stated by ResolveCodesFinals, ResolveCodesConsignor and UnknownConsignorFallsBack |
| Pipeline.ResolveParty | main_logic.py:382-472 | the party steps composed; stated by ResolvePartyCodes and RulesThenPartyKeepCodes |
| Pipeline.ResolveRow | main_logic.py:247-472 | the whole per-record resolution; ResolveAll and RunPipeline prove the loops compute it, ResolvedCodesNeverBlank that its final codes are never blank |
| PipelineFacts.MasterCombinedSetIsIndexKeys | main_logic.py:239-245 | master_combined_set equals the set of address_to_code keys |
| PipelineFacts.MissingAddressUnknown | main_logic.py:280-281 | a missing combined address is never in the master set |
| PipelineFacts.LookupNeedsKnownAddress | main_logic.py:312-318 | an address lookup succeeds only for an address of the master set |
| PipelineFacts.WipeSpec | main_logic.py:265-287 | only the extracted code changes; it changes iff non-blank, the name lacks whole-word CINTAS/MAT, and the address is unknown |
| PipelineFacts.WipeStepKeeps | main_logic.py:286-287 | the wipe leaves every column but the two extracted codes alone |
| PipelineFacts.GroupsExclusive | main_logic.py:326-328 | no consignor text starts with prefixes of two Mississauga groups |
| PipelineFacts.MississaugaSpec | main_logic.py:320-332 | only the consignee's address code changes; each group gives its code at the Suite address; otherwise nothing changes |
| PipelineFacts.NonCintasNormal | main_logic.py:339 | NON-CINTAS is already normal |
| PipelineFacts.PrecedenceSpec | main_logic.py:334-350 | the first non-blank of extracted, type, address code, normalised, else NON-CINTAS |
| PipelineFacts.NormalizedNonBlank | main_logic.py:348-350 | a non-blank code normalises to a non-empty normal code |
| PipelineFacts.FinalCodeShape | main_logic.py:334-350 | every final code is non-empty, upper-case and normal |
| PipelineFacts.NoTypeColumnsNoTypeCodes | main_logic.py:305-310 | without both type columns both type candidates are "" |
| PipelineFacts.TypeCodesValidated | main_logic.py:293-310 | with both columns each candidate is the normalised validation of its own cell |
| PipelineFacts.ExceptionColumnsPresent | main_logic.py:369-372 | every rule's match column and target column exist |
| PipelineFacts.ApplyRuleFinal | main_logic.py:373-380 | a rule changes only its target final code, and only on a match |
| PipelineFacts.ApplyRulesKeeps | main_logic.py:369-380 | the table changes nothing but the two final codes |
| PipelineFacts.MatchesOnInput | main_logic.py:373-379 | matching reads only columns the rules never write |
| PipelineFacts.ExceptionLastMatchWins | main_logic.py:369-380 | the last matching rule for a target decides its value |
| PipelineFacts.ExceptionNoMatchKeeps | main_logic.py:369-380 | a target no rule matches keeps its code |
| PipelineFacts.CoopetrajesOverValdez | main_logic.py:355-380 | a COOPETRAJES consignee whose name has no EMPRESA or EMPRESSA gets 0896, even when VALDEZ or an address rule also matches |
| PipelineFacts.RuleValuesNormal | main_logic.py:355-367 | every rule value has four characters and is normal |
| PipelineFacts.ApplyRulesFinalFrom | main_logic.py:369-380 | a final code after the table is what it was or some rule's value |
| PipelineFacts.SecondNormalizationIdle | main_logic.py:382-384 | normalising after the table changes nothing when the codes before it were normal |
| Pipeline.LocKeyIsNormalized | main_logic.py:386-392 | a type-map key is the normalised Loc Code |
| PipelineFacts.TypeLookupFound | main_logic.py:390-402 | a code's type comes from the last master row with that code, NA giving NON-CINTAS |
| PipelineFacts.TypeLookupMissing | main_logic.py:397-402 | a code of no master row has type NON-CINTAS |
| Pipeline.TypeValueSpec | main_logic.py:393 | a Type Code is absent iff its text reads NAN, NA included; otherwise it is upper-cased |
| PipelineFacts.FinancialSpec | main_logic.py:408-452 | only the two centres change; they are "" for THIRD PARTY, NON-CINTAS or an unknown party, else the stripped master values |
| PipelineFacts.AccountSpec | main_logic.py:454-460 | the account is 621000 or 621020, and 621020 iff no G59 profit centre and the consignee is not responsible |
| PipelineFacts.AccountStepSpec | main_logic.py:454-461 | only the account column changes, to the account rule's value |
| PipelineFacts.AccuracySpec | main_logic.py:463-472 | only the flag changes; it is 0 or 1, and 1 iff the input profit centre is present and equals the looked-up one |
| PipelineFacts.ResolvePartyCodes | main_logic.py:382-384 | after the exception table, the final codes are only normalised again |
| PipelineFacts.ResolveCodesFinals | main_logic.py:334-350 | after precedence both final codes are non-empty and normal |
| PipelineFacts.RulesKeepNonBlank | main_logic.py:369-380 | with non-empty rule values, a non-empty final code stays non-empty |
| PipelineFacts.FinalCodesNeverBlank | main_logic.py:334-384 | after precedence, the exception table and the second normalisation, both final codes are non-empty and normal |
| PipelineFacts.RulesThenPartyKeepCodes | main_logic.py:369-384 | the table and the later steps keep non-empty normal final codes so |
| PipelineFacts.ResolvedCodesNeverBlank | main_logic.py:247-384 | a fully resolved record never has a blank final code |
| PipelineFacts.ResolveCodesConsignor | main_logic.py:265-340 | the consignor's final code ranks its wiped extraction, its type candidate and its address code; the Mississauga override does not touch it |
| PipelineFacts.UnknownConsignorFallsBack | main_logic.py:265-340 | a consignor with an unknown address and no CINTAS/MAT name gets its type candidate or NON-CINTAS |
| PipelineFacts.UnknownPartyCandidates | main_logic.py:265-346 | for such a party the extracted and address candidates both drop out of the precedence chain |
| PipelineFacts.FinalCodeOfBlanks | main_logic.py:334-346 | whitespace-only extracted and address candidates count as absent |

## Left out

- File ingestion, the UI, the Google Sheets store, the launcher, the weekly
  audit and `main.py`: these are I/O and presentation, outside the resolution
  engine.
- `_as_text_keep_zeros`: float formatting. The financial map is taken with its
  Cost Center text already formatted.
- `standardize_input_columns`: the model takes the canonical columns as given,
  with NA already read as "". Its own `_pick_col` over the field aliases
  (main_logic.py:126-128) is not modelled. `_pick_col` itself is modelled, for
  the type-code columns that `run_pipeline` picks (main_logic.py:290-291).
- The merge of the profit/cost centres: it is modelled as a lookup over unique
  Loc Codes. Duplicate Loc Codes in the master table would duplicate rows,
  which the model does not capture.
- The column renames and the final column reordering: on a sheet without
  columns named ProfitCtr, Profit Center EJ or Cost Center EJ they change no
  value.
- Pipeline.FinancialStep: name collisions in the merge and the renames are
  not modelled. If the accrual sheet has its own ProfitCtr column, the merge
  at main_logic.py:419-425 keeps it as ProfitCtr and puts the looked-up value
  in ProfitCtr_master, so the rename at :428-429 makes the sheet's own value
  the Profit Center EJ; the model gives the looked-up value. If the sheet
  already has a Profit Center EJ column, or both Cost Center and Cost Center
  EJ, the renames at :428-432 create a duplicate column, and the `.str` calls
  at :439 and :182 would raise an AttributeError; the model has no such error
  path.
- The contents of the `coding_matrix` module: the two tables are parameters.
- Unicode `str.upper`, `isdigit`, `\d` and `\b`: the text is ASCII.
- Non-text cells:
  - Type-code cells and optional columns are `Option<string>`, None standing
    for NA.
  - The numeric-to-text conversion `str()` that pandas applies to numbers is
    not modelled.
  - The profit-centre comparison in the accuracy flag assumes both sides are
    text.
- A master table without a Loc Code or Type Code column, a master table
  without a ProfitCtr or Cost Center column (the selection at
  main_logic.py:419-420 would raise a KeyError), and an all-codes table without
  a usable first column: the model takes these columns as present, and the
  `financials` parameter stands for the two centre columns.
- LocationCodes.LocationCodesFinder.ExtractFromText: the tie-break among
  equal-length tokens comes from an unordered set. It is modelled as a free
  choice, so the contract says which outcomes are possible, not which one the
  interpreter picks.
- Pipeline.RunPipeline: an accrual sheet with no rows but with both type-code
  columns is not an error in the model, which returns an empty result. In the
  source (main_logic.py:293-303) pandas' row-wise `apply` on zero rows returns
  a frame with all of the sheet's columns, so assigning the two new column
  names raises a length-mismatch error. This error path is not modelled.
