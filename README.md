# Autoliquidación file encoder

A Dafny model of the Odoo 12 wizard `co_payroll.autoliquidacion_report`. The wizard writes the
Colombian contributions self-assessment file (*autoliquidación de aportes*, PILA). That file is
fixed-width text with two kinds of record:

- one type-1 header record with the employer's identity, the periods, the employee count and,
  in field 20, the sum of every line's family-compensation (CCF) base;
- one type-2 detail record per emitted line, with about 96 fields: identity, novelty flags,
  day counts, contribution bases, pension, health, risk, CCF, SENA and ICBF rates and amounts,
  exemption flags and novelty dates.

The modules follow the layers of `co_payroll/wizard/autoliquidaciones.py`:

| file | module | what it holds |
|---|---|---|
| `results.dfy` | `Results` | `Option`, `Result` and the four errors the wizard can raise |
| `formats.dfy` | `Formats` | `_format_string`, `_format_number`, `_format_float`, `_format_datetime`, `strftime("%Y-%m")`, `_round_to_nearest`, upper-casing, and digit read-back |
| `payroll.dfy` | `Payroll` | the records (payslip, lines, worked days, contract, leave, wizard, company) and the helpers: line totals, rate sums, worked days, hours, the ARL tables, the leave filter |
| `line_rules.dfy` | `LineRules` | the value of every computed field of a detail line: one function per gating rule of `_generate_line`, plus `LineError` (the first error the builder raises) and `AllFit` (every number fits its width) |
| `detail_lines.dfy` | `DetailLines` | `_generate_line` as a chain of append methods, one per field group, proved against `LineLayout` |
| `line_properties.dfy` | `LineProperties` | what a finished detail line promises: frame, index, CCF base, and the leave-type and structure gating |
| `header.dfy` | `Header` | `_generate_header` as append methods, proved against `HeaderLayout` |
| `report.dfy` | `Report` | `_generate_lines` (two nested loops with a counter and a running sum) and `generate` (header splice, concatenation, upper-casing) |
| `report_properties.dfy` | `ReportProperties` | whole-file properties: consecutive line numbers, field 20 as the sum of the CCF bases, records at fixed offsets |

Modelling choices:

- Amounts, days, hours and rates are `real`, meaning exact rationals. Python's `'{:.0f}'` and
  `'{:.Nf}'` rounding is modelled as exact round-half-to-even (`Formats.RoundHalfEven`).
- `_format_number` never truncates and never fails. A value too wide for its field makes the
  field, and so the record, longer. Every layout fact that depends on offsets is therefore
  stated under the condition that the numbers fit (`Header.HeaderFits`, `LineRules.AllFit`).
- Odoo raises an error in four cases, and each becomes an `Err` value that aborts the whole
  file:
  - a risk class missing from the ARL dictionaries (`KeyError`);
  - a leave type with no salary rules (`ValidationError`);
  - `.number_of_days` or `.amount` read on a recordset of several records;
  - pro-rating over a leave type whose days sum to zero.

  Reading such a field on an empty recordset gives 0, as Odoo's `False` does.
- Database searches become filters over input lists. The order of a list stands for the order
  the search returns. `_find_start_first_leave` takes the first element of the filtered list.
- Line numbers start at 0, as the code's `line_nr` does.

Where the written design of the system and the code differ, the model follows the code:

- The design asks the integer formatter to fail on overflow. The code widens the field.
- The design asks the risk class to fall back to class 0. The code raises a lookup error.
- The design calls records fixed-width. The code enforces no width, so the model proves the
  widths only under the fit conditions.
- The design calls a zero-width rate a configuration error. `Formats.FormatFloat` requires
  `2 < length`, as the code's `assert` does.

## Model

| member | source | states |
|---|---|---|
| Formats.RoundHalfEven | co_payroll/wizard/autoliquidaciones.py:142-146 | `.0f` rounding: the result is within 1/2 of `x`, ties go to the even integer, and a non-negative `x` rounds to a non-negative integer |
| Formats.RoundHalfEvenUnique | co_payroll/wizard/autoliquidaciones.py:142-146 | any integer within 1/2 of `x`, even on a tie, is the rounding of `x`, so the rounding is fully determined |
| Formats.RoundToNearest | co_payroll/wizard/autoliquidaciones.py:95-98 | the result is a multiple of `nearest`, at least `value`, and less than `value + nearest` |
| Formats.RoundToNearestIsLeast | co_payroll/wizard/autoliquidaciones.py:95-98 | every multiple of `nearest` that is at least `value` is at least the result, so the result is the least such multiple |
| Formats.RoundToNearestExamples | co_payroll/wizard/autoliquidaciones.py:96 | 3211 rounds to 3300, a multiple (100) maps to itself, and 0 gives 0 |
| Formats.FormatString | co_payroll/wizard/autoliquidaciones.py:133-140 | the result has exactly `length` characters: the first `length` characters of a longer `s`, or `s` followed by spaces |
| Formats.BlankField | co_payroll/wizard/autoliquidaciones.py:138-140 | an empty or absent value gives `length` spaces |
| Formats.FormatStringReadBack | co_payroll/wizard/autoliquidaciones.py:133-140 | a value that fits and has no trailing space is recovered by stripping the padding |
| Formats.FormatNumber | co_payroll/wizard/autoliquidaciones.py:142-146 | the result is never shorter than `length`, and it has exactly `length` characters if and only if the rounded value fits (`NumberFits`) |
| Formats.FormatNumberReadBack | co_payroll/wizard/autoliquidaciones.py:142-146 | for `x >= 0` below `10^length` after rounding, the field is `length` digits whose value is the rounded `x`; a wider value prints all its digits, untruncated |
| Formats.PaddedNumber | co_payroll/wizard/autoliquidaciones.py:142-146 | an integer `0 <= k < 10^w` prints as exactly `w` digits whose value is `k` |
| Formats.ZeroNumber | co_payroll/wizard/autoliquidaciones.py:142-146 | zero prints as `w` zero characters |
| Formats.FormatFloat | co_payroll/wizard/autoliquidaciones.py:148-152 | requires `2 < length`; the result is never shorter than `length` and has exactly `length` characters if and only if the rate fits (`FloatFits`) |
| Formats.FormatFloatReadBack | co_payroll/wizard/autoliquidaciones.py:148-152 | a rate `0 <= x` whose scaled rounding is below `10^(length-2)` prints as `"0."` and `length-2` digits whose value is `x * 10^(length-2)` rounded |
| Formats.ZeroFloat | co_payroll/wizard/autoliquidaciones.py:148-152 | zero with `p` decimals prints as `"0."` and `p` zeros |
| Formats.ZeroRates | co_payroll/wizard/autoliquidaciones.py:148-152 | the zero rate prints as `0.00000` at width 7 and `0.0000000` at width 9 |
| Formats.FormatYearMonth | co_payroll/wizard/autoliquidaciones.py:213-217 | `strftime("%Y-%m")` of a valid date is 7 characters: a 4-digit year, `-`, a 2-digit month, reading back as the date's year and month |
| Formats.FormatDate | co_payroll/wizard/autoliquidaciones.py:154-165 | no date gives 10 spaces; a valid date gives 10 characters |
| Formats.FormatDateReadBack | co_payroll/wizard/autoliquidaciones.py:154-165 | a valid date prints as `YYYY-MM-DD`, with dashes at 4 and 7 and digit groups reading back as the year, month and day |
| Formats.Upper | co_payroll/wizard/autoliquidaciones.py:713 | upper-casing keeps the length and maps each character on its own |
| Formats.UpperIdempotent | co_payroll/wizard/autoliquidaciones.py:713 | upper-casing twice is upper-casing once |
| Formats.UpperSlice | co_payroll/wizard/autoliquidaciones.py:713 | upper-casing commutes with taking a slice |
| Formats.UpperConcat | co_payroll/wizard/autoliquidaciones.py:711-713 | upper-casing the header followed by the lines is the concatenation of the two upper-cased parts |
| Formats.UpperKeepsNumbers | co_payroll/wizard/autoliquidaciones.py:713 | digits, space, `-`, `.`, CR and LF are unchanged by upper-casing |
| Payroll.GetPayslips | co_payroll/wizard/autoliquidaciones.py:39-45 | keeps exactly the payslips whose start and end dates are the wizard's payslip period |
| Payroll.EmployeeIds | co_payroll/wizard/autoliquidaciones.py:223 | the set of employees of the payslips: an id is in it if and only if some payslip belongs to that employee |
| Payroll.LineTotal | co_payroll/wizard/autoliquidaciones.py:77-79 | the absolute total of the first line with the code, or 0 when no line has it |
| Payroll.Percentage | co_payroll/wizard/autoliquidaciones.py:81-86 | zero when no line has code `c` or `c_AD`; non-negative when the rates are |
| Payroll.PercentageAppend | co_payroll/wizard/autoliquidaciones.py:81-86 | the rate sum over two lists of lines is the sum of the two rate sums |
| Payroll.CategoryTotal | co_payroll/wizard/autoliquidaciones.py:412-416 | zero when no line is in the categories; non-negative when the totals are |
| Payroll.CategoryTotalAppend | co_payroll/wizard/autoliquidaciones.py:412-416 | the category sum is additive over concatenation |
| Payroll.SingletonAmount | co_payroll/wizard/autoliquidaciones.py:582-583 | `.amount` of the lines with a code: an error exactly when several lines have the code, 0 when none has it, and the amount of the single line when exactly one has it |
| Payroll.WorkedDays | co_payroll/wizard/autoliquidaciones.py:88-93 | an error exactly when several WORK100 lines exist; 0 when there is none; the absolute days of the single WORK100 line when there is one |
| Payroll.Hours | co_payroll/wizard/autoliquidaciones.py:182-189 | zero when no worked-days line has one of the codes; non-negative when the hours are |
| Payroll.HoursAppend | co_payroll/wizard/autoliquidaciones.py:182-189 | the hours sum is additive over concatenation |
| Payroll.RiskRate | co_payroll/wizard/autoliquidaciones.py:100-109 | defined exactly on the classes 0, I, II, III, IV and V, and a lookup error on any other; every rate lies in [0, 0.1) |
| Payroll.RiskNumber | co_payroll/wizard/autoliquidaciones.py:111-120 | defined exactly on the six classes, one character each, and a lookup error elsewhere |
| Payroll.WorkCenter | co_payroll/wizard/autoliquidaciones.py:122-131 | defined exactly on the six classes, between 0 and 5, and a lookup error elsewhere |
| Payroll.RiskTableExamples | co_payroll/wizard/autoliquidaciones.py:100-131 | class III gives rate 0.02436, number "3" and work centre 1; class 0 gives number " " and rate 0; "VI" and "" are errors |
| Payroll.GetLeaves | co_payroll/wizard/autoliquidaciones.py:47-63 | keeps exactly the leaves of the employee that are validated, start inside the payslip period and match the type and code filters |
| Payroll.GetLeavesAppend | co_payroll/wizard/autoliquidaciones.py:47-63 | the filter distributes over concatenation, so it keeps the input order |
| Payroll.GetLeavesFirst | co_payroll/wizard/autoliquidaciones.py:47-71 | the first leave the filter keeps is the first leave of the list that matches: it matches, and no earlier leave does |
| Payroll.SeparateLineLeaves | co_payroll/wizard/autoliquidaciones.py:73-75 | exactly the employee's validated leaves in the period whose code is one of VAC, LR, IGE, LMA, SLN, IRP and RET |
| Payroll.TotalDays | co_payroll/wizard/autoliquidaciones.py:420-424 | the sum of the absolute days is non-negative and at least each leave's own days |
| Payroll.ApprenticeTagsNest | co_payroll/wizard/autoliquidaciones.py:343-388 | a structure code containing APR_EL contains APR_E, and one containing APR_E contains APR, so the three substring tests nest |
| LineRules.FirstLeaveStart | co_payroll/wizard/autoliquidaciones.py:65-67 | none exactly when no leave of the employee with the code starts validated in the period; otherwise the start date of the first such leave in list order |
| LineRules.FirstLeaveEnd | co_payroll/wizard/autoliquidaciones.py:69-71 | none exactly when no leave of the employee with the code starts validated in the period; otherwise the end date of the first such leave in list order |
| LineRules.HasLeaveMatches | co_payroll/wizard/autoliquidaciones.py:47-63 | a `_get_leaves` search for one code is non-empty exactly when some leave of the list matches the employee, the period and the code |
| LineRules.EntryFlags | co_payroll/wizard/autoliquidaciones.py:255-276 | fields 15-22: 8 characters; 15 is `X` exactly when the contract starts in the period, 16 exactly when it ends in it, 17-21 exactly when the TDE, TAE, TDP, TAP or VSP search is non-empty, and 22 is blank |
| LineRules.SalaryVariationFlag | co_payroll/wizard/autoliquidaciones.py:278-287 | field 23 is `X` if and only if there is no leave, IBC_L differs from the wage, and the structure code contains neither SAL_INT nor APR; otherwise it is a space |
| LineRules.NoveltyFlag | co_payroll/wizard/autoliquidaciones.py:289-309 | the SLN, IGE and LMA flags are `X` or blank, and `X` exactly on a line whose leave has that code while some leave of the employee with the code starts in the period |
| LineRules.VacationFlag | co_payroll/wizard/autoliquidaciones.py:310-320 | field 27 is `X`, `L` or blank: `X` exactly on a VAC line with a VAC leave in the period, `L` exactly on an LR line with an LR leave in the period |
| LineRules.IntegralSalaryFlag | co_payroll/wizard/autoliquidaciones.py:391 | field 41 is `X` if and only if the structure code is exactly SAL_INT |
| LineRules.IrpDays | co_payroll/wizard/autoliquidaciones.py:324-328 | field 30 is the absolute days of the leave on an IRP line and zero on every other line |
| LineRules.LineDays | co_payroll/wizard/autoliquidaciones.py:342-388 | the days of the line are the leave's absolute days on a leave line, and the WORK100 days otherwise |
| LineRules.PensionPart | co_payroll/wizard/autoliquidaciones.py:343-450 | fields 36 and 42 are zero under quotient subtype 01/02 or an APR_E structure, and carry the value otherwise |
| LineRules.RuleTotal | co_payroll/wizard/autoliquidaciones.py:437-443 | the sum over the leave type's rule codes is non-negative and at least each code's total |
| LineRules.FullLeaveBase | co_payroll/wizard/autoliquidaciones.py:425-443 | the base before pro-rating is the IBC_AUT_VACA total for a VAC leave and the sum of the type's salary-rule totals otherwise; non-negative |
| LineRules.LeaveBase | co_payroll/wizard/autoliquidaciones.py:419-444 | an error exactly when a non-VAC type has no salary rules or the type's days sum to zero, with the missing-rules error first; otherwise non-negative and at most the base before pro-rating |
| LineRules.LeaveBaseShare | co_payroll/wizard/autoliquidaciones.py:419-444 | a defined leave base is the full base pro-rated by the leave's absolute days out of the positive total days of its type |
| LineRules.ProRate | co_payroll/wizard/autoliquidaciones.py:426-427 | pro-rating by `days / total` is non-negative, never exceeds the base when `days <= total`, and times `total` gives `base * days` |
| LineRules.ProRateAdd | co_payroll/wizard/autoliquidaciones.py:426-427 | pro-rating is additive in the days: the shares of `d` and `e` add up to the share of `d + e` |
| LineRules.SharesProRate | co_payroll/wizard/autoliquidaciones.py:419-444 | the shares of a list of leaves are the share of their total days |
| LineRules.SharesSum | co_payroll/wizard/autoliquidaciones.py:419-444 | pro-rating every leave of a type by its days out of the type's total days splits the full base exactly: the shares add up to the base |
| LineRules.IbcTotal | co_payroll/wizard/autoliquidaciones.py:393-454 | IBC_AUT without a leave and the leave base with one; non-negative |
| LineRules.IbcCcf | co_payroll/wizard/autoliquidaciones.py:393-457 | field 45: GROSS_70 for an exact SAL_INT structure without a leave, the ING/HOR/MAYVAL total otherwise without a leave, and the leave base on a leave line |
| LineRules.PensionAmount | co_payroll/wizard/autoliquidaciones.py:464-473 | field 47: zero for a VAC leave with an LVACA line; otherwise the least multiple of 100 that is at least `ibc_total * pension_rate` |
| LineRules.HealthAmount | co_payroll/wizard/autoliquidaciones.py:501-510 | field 55: zero for a VAC leave with an LVACA line; otherwise the least multiple of 100 that is at least `ibc_total * healthcare_rate` |
| LineRules.FundAmount | co_payroll/wizard/autoliquidaciones.py:481-492 | fields 51 and 52 are the least multiple of 100 that is at least the `aut_solidaridad_sol` or `aut_solidaridad_subs` total |
| LineRules.RiskRateField | co_payroll/wizard/autoliquidaciones.py:517-522 | field 61 is the class rate without a leave and zero on every leave line |
| LineRules.RiskAmount | co_payroll/wizard/autoliquidaciones.py:524-530 | field 63 is the rounded `ibc_total * rate` without a leave and zero on every leave line |
| LineRules.CcfRateField | co_payroll/wizard/autoliquidaciones.py:532-537 | field 64 is the APORTE_CAJA_COMP rate without a leave or on a VAC/LR leave, and zero otherwise |
| LineRules.CcfAmount | co_payroll/wizard/autoliquidaciones.py:539-550 | field 65 is zero exactly on IGE, LMA, SLN and IRP leaves, and the rounded `ibc_ccf * ccf_rate` otherwise |
| LineRules.SenaRateField | co_payroll/wizard/autoliquidaciones.py:552-561 | field 66 is the SENA rate without a leave or on a VAC/LR leave, and zero otherwise |
| LineRules.SenaAmount | co_payroll/wizard/autoliquidaciones.py:552-561 | field 67 is the rounded `ibc_ccf * sena_rate` under the same condition, and zero otherwise |
| LineRules.IcbfRateField | co_payroll/wizard/autoliquidaciones.py:563-572 | field 68 is the ICBF rate without a leave or on a VAC/LR leave, and zero otherwise |
| LineRules.IcbfAmount | co_payroll/wizard/autoliquidaciones.py:563-572 | field 69 is the rounded `ibc_ccf * icbf_rate` under the same condition, and zero otherwise |
| LineRules.ExemptionFlag | co_payroll/wizard/autoliquidaciones.py:581-589 | an error exactly when COND_APORT_EMP or SMLMV_10 is on several lines; otherwise `N` if and only if COND_APORT_EMP exceeds SMLMV_10 or the structure contains SAL_INT or APR, and `S` otherwise |
| LineRules.CcfBaseField | co_payroll/wizard/autoliquidaciones.py:646-650 | field 95 is zero when field 76 is `S` or the structure contains APR, and `ibc_ccf` otherwise |
| LineRules.HoursField | co_payroll/wizard/autoliquidaciones.py:652-674 | field 96 is zero when a payslip line's code is exactly APR or the structure contains APR_E; otherwise WORK100 hours without a leave, the four VACA codes on VAC, I_152 on LR, and zero on other leaves |
| LineRules.StartDateField | co_payroll/wizard/autoliquidaciones.py:597-601 | field 80 is the contract start when it falls in the period, and otherwise the first ING novelty |
| LineRules.EndDateField | co_payroll/wizard/autoliquidaciones.py:602-606 | field 81 is the contract end when it falls in the period, and otherwise the first RET novelty |
| LineRules.LeaveDate | co_payroll/wizard/autoliquidaciones.py:167-180 | blank unless the line's leave has the code; then the start or end of the first leave with that code |
| LineRules.VacationDate | co_payroll/wizard/autoliquidaciones.py:627-635 | fields 89 and 90: the start or end of the first VAC leave on a VAC line, of the first LR leave on an LR line, and blank otherwise |
| LineRules.LineError | co_payroll/wizard/autoliquidaciones.py:234-678 | no error means the days, both bases, the risk rate and the exemption flag are all defined |
| DetailLines.StartLine | co_payroll/wizard/autoliquidaciones.py:241-287 | fields 1-23 start with `02`; for an index below 100000 they are 145 characters, with the 5-digit index at 2, the document flag at 29, the entry flags `EntryFlags` at 136-143 and field 23 at 144 |
| DetailLines.AppendIdentity | co_payroll/wizard/autoliquidaciones.py:241-247 | fields 1-7 start with `02`; for an index below 100000 they are 30 characters with the 5-digit index at 2 and the document flag at 29 |
| DetailLines.AppendNames | co_payroll/wizard/autoliquidaciones.py:248-276 | fields 8-22 add exactly 114 characters, keep what was written and end with the 8 characters of `EntryFlags` |
| DetailLines.AppendNovelties | co_payroll/wizard/autoliquidaciones.py:289-340 | fields 24-35 add at least 38 characters and start with the four flags of `LeaveFlags`; when the IRP days fit two digits, exactly 38, with field 30 at offsets 6-7 of the group |
| DetailLines.AppendDays | co_payroll/wizard/autoliquidaciones.py:342-388 | an error exactly when the days are undefined; otherwise fields 36-39 in place when they fit |
| DetailLines.AppendBases | co_payroll/wizard/autoliquidaciones.py:390-457 | an error exactly when the IBC total is undefined; otherwise returns IBC total and `ibc_ccf`, with fields 40-45 in place when they fit |
| DetailLines.AppendPensionHealth | co_payroll/wizard/autoliquidaciones.py:459-516 | fields 46-60 add at least 143 characters, with fields 47, 50 and 55 in place when they fit |
| DetailLines.AppendParafiscal | co_payroll/wizard/autoliquidaciones.py:517-579 | an error exactly on an unknown risk class; otherwise fields 61-75 with the risk, CCF, SENA and ICBF fields in place when they fit |
| DetailLines.AppendDates | co_payroll/wizard/autoliquidaciones.py:581-644 | an error exactly when the exemption flag is undefined; otherwise field 76 is written first and fields 76-94 are 159 characters when the dates are valid |
| DetailLines.AppendLeaveDates | co_payroll/wizard/autoliquidaciones.py:608-644 | fields 83-94 add 120 characters when the dates are valid |
| DetailLines.FinishLine | co_payroll/wizard/autoliquidaciones.py:646-678 | ends with CRLF; fields 95 and 96 in place when they fit |
| DetailLines.GenerateLine | co_payroll/wizard/autoliquidaciones.py:234-678 | an error if and only if `LineError` reports one, and that same error; otherwise the line has the `LineLayout` of its index and input |
| DetailLines.LineFromGroups | co_payroll/wizard/autoliquidaciones.py:234-678 | the facts of the field groups, put together in file order, give the `LineLayout` of the whole line |
| LineProperties.LineFrame | co_payroll/wizard/autoliquidaciones.py:241-678 | a line whose fields fit is 678 characters, starts with `02`, ends with CRLF, and reads back its index at 2-7 |
| LineProperties.CcfBaseReadBack | co_payroll/wizard/autoliquidaciones.py:393-457 | the returned `ibc_ccf` is the number written in field 45 at 228-237 |
| LineProperties.LeaveLineRiskZero | co_payroll/wizard/autoliquidaciones.py:517-530 | on any leave line, the risk rate (380-389) and risk amount (398-407) are zero |
| LineProperties.LeaveRiskPrinted | co_payroll/wizard/autoliquidaciones.py:517-530 | on a leave line, fields 61 and 63 print as zeros |
| LineProperties.ParafiscalZeroOnOtherLeaves | co_payroll/wizard/autoliquidaciones.py:532-572 | on a leave other than VAC and LR, the CCF, SENA and ICBF rates and the SENA and ICBF amounts are zero in the line |
| LineProperties.OtherLeaveParafiscalPrinted | co_payroll/wizard/autoliquidaciones.py:532-572 | on such leaves, those five fields print as zeros |
| LineProperties.CcfAmountField | co_payroll/wizard/autoliquidaciones.py:539-550 | field 65 prints zeros for IGE, LMA, SLN and IRP leaves; otherwise it is the least multiple of 100 that is at least `ibc_ccf * ccf_rate` |
| LineProperties.CcfAmountBounds | co_payroll/wizard/autoliquidaciones.py:539-550 | outside those leaves, the CCF amount is the least multiple of 100 that is at least `ibc_ccf * ccf_rate` |
| LineProperties.SplitQuotientZeros | co_payroll/wizard/autoliquidaciones.py:343-450 | quotient subtype 01/02 zeroes fields 36 and 42 |
| LineProperties.DaysAndBaseKept | co_payroll/wizard/autoliquidaciones.py:342-454 | fields 37 and 43 always carry the line's days and IBC total, whatever the subtype |
| LineProperties.ApprenticeZeros | co_payroll/wizard/autoliquidaciones.py:343-454 | an APR_EL structure zeroes fields 36, 38, 39, 42 and 44 |
| LineProperties.PartsZero | co_payroll/wizard/autoliquidaciones.py:343-454 | the zeroed parts print as `00` and nine zeros |
| LineProperties.PartsKept | co_payroll/wizard/autoliquidaciones.py:354-454 | without APR_EL, fields 38 and 44 carry the line's days and IBC total; without APR_E, field 39 carries the days |
| LineProperties.IntegralSalaryField | co_payroll/wizard/autoliquidaciones.py:391 | field 41 at offset 200 is `X` if and only if the structure is exactly SAL_INT, and a space otherwise |
| LineProperties.ForeignerField | co_payroll/wizard/autoliquidaciones.py:247 | offset 29 is `X` if and only if the document code is CE, PA or CD |
| LineProperties.EntryFlagsField | co_payroll/wizard/autoliquidaciones.py:255-276 | offset 136 is `X` exactly when the contract starts in the period, 137 when it ends in it, 138-142 when the employee has a TDE, TAE, TDP, TAP or VSP leave starting in the period, and 143 is blank |
| LineProperties.EntryFlagsRead | co_payroll/wizard/autoliquidaciones.py:255-276 | the same, read off any text holding `EntryFlags` at 136-143 |
| LineProperties.LeaveFlagsField | co_payroll/wizard/autoliquidaciones.py:289-320 | offsets 145-147 are `X` exactly on an SLN, IGE or LMA line with such a leave in the period; 148 is `X` on such a VAC line and `L` on such an LR line |
| LineProperties.LeaveFlagsRead | co_payroll/wizard/autoliquidaciones.py:289-320 | the same, read off any text holding `LeaveFlags` at 145-148 |
| LineProperties.IrpDaysField | co_payroll/wizard/autoliquidaciones.py:324-328 | offsets 151-152 are two digits reading back the rounded days of an IRP leave, and `00` on every other line |
| LineProperties.TwoDigitsPrinted | co_payroll/wizard/autoliquidaciones.py:142-146 | a non-negative value that fits two digits prints as two digits reading back its rounding, and zero prints as `00` |
| LineProperties.SalaryVariationField | co_payroll/wizard/autoliquidaciones.py:278-287 | offset 144 is `X` if and only if there is no leave, IBC_L differs from the wage, and the structure contains neither SAL_INT nor APR |
| LineProperties.VacationWithLvacaZeros | co_payroll/wizard/autoliquidaciones.py:464-510 | a VAC leave with an LVACA line has fields 47, 50 and 55 at zero |
| LineProperties.LvacaPrinted | co_payroll/wizard/autoliquidaciones.py:464-510 | those amounts print as nine zeros |
| LineProperties.PensionTotalField | co_payroll/wizard/autoliquidaciones.py:470-479 | field 50, the sum of fields 47-49, repeats field 47 |
| LineProperties.CcfBaseRepeated | co_payroll/wizard/autoliquidaciones.py:646-650 | field 95 repeats field 45 unless field 76 is `S` or the structure contains APR, in which case it is zeros |
| LineProperties.CcfBasePrinted | co_payroll/wizard/autoliquidaciones.py:646-650 | the same two cases, at the level of the printed field |
| LineProperties.MissingRulesError | co_payroll/wizard/autoliquidaciones.py:430-436 | a non-VAC leave whose type has no salary rules makes the line fail with that type's error |
| LineProperties.UnknownRiskClassError | co_payroll/wizard/autoliquidaciones.py:517 | a risk class outside the table makes the line fail, with the lookup error when the days and base are defined |
| Header.EmployeeCount | co_payroll/wizard/autoliquidaciones.py:222-223 | the number of distinct employees is at most the number of payslips |
| Header.HeaderIdentity | co_payroll/wizard/autoliquidaciones.py:194-201 | 226 characters: registration and plan types, `0001`, company name, document code and VAT at their offsets |
| Header.HeaderClass | co_payroll/wizard/autoliquidaciones.py:202-207 | extends to 298 characters: `E`, 20 spaces, the presentation type and 50 spaces |
| Header.HeaderPeriods | co_payroll/wizard/autoliquidaciones.py:208-220 | extends to 338 characters: the administrator code, both `YYYY-MM` periods, ten zeros and ten spaces |
| Header.HeaderCount | co_payroll/wizard/autoliquidaciones.py:222-226 | when the count fits, 355 characters with the employee count at 338-343 and twelve zeros at 343-355 |
| Header.HeaderOperator | co_payroll/wizard/autoliquidaciones.py:228-230 | the provider type and operator code, then CRLF |
| Header.GenerateHeader | co_payroll/wizard/autoliquidaciones.py:191-232 | `HeaderLayout`: every field at its offset, CRLF last, and, when the numbers fit, 361 characters with field 20 as twelve zeros at [343, 355) |
| Header.EmployeeCountReadBack | co_payroll/wizard/autoliquidaciones.py:222-223 | offsets 338-343 read back the number of distinct employees |
| Header.PeriodsReadBack | co_payroll/wizard/autoliquidaciones.py:213-217 | offsets 304-318 read back the year and month of both periods |
| Report.NormalInputs | co_payroll/wizard/autoliquidaciones.py:685-686 | a payslip gets a normal-days line if and only if its worked days are defined and positive, and at most one |
| Report.LeaveInputs | co_payroll/wizard/autoliquidaciones.py:691-692 | one leave line per separate-line leave, in order, each with that leave |
| Report.FirstLineError | co_payroll/wizard/autoliquidaciones.py:684-696 | no error if and only if no line in the sequence fails |
| Report.FirstLineErrorAppend | co_payroll/wizard/autoliquidaciones.py:684-696 | the first error of two runs of lines is the first run's error, or else the second's |
| Report.FirstErrorNone | co_payroll/wizard/autoliquidaciones.py:680-697 | the file fails if and only if some payslip's worked days are undefined or some line fails |
| Report.EmittedAppend | co_payroll/wizard/autoliquidaciones.py:686-695 | a line generated from an input at the next number extends the emitted sequence |
| Report.EmittedPrefix | co_payroll/wizard/autoliquidaciones.py:686-695 | appending a line keeps every earlier line emitted at its number |
| Report.AppendLine | co_payroll/wizard/autoliquidaciones.py:686-689 | fails exactly when the line fails; otherwise appends it at number `line_nr`, with text and running sum updated |
| Report.LeaveLines | co_payroll/wizard/autoliquidaciones.py:691-695 | the inner loop: fails with the first failing leave line; otherwise emits every leave line in order, keeping counter, text and sum in step |
| Report.LeaveLine | co_payroll/wizard/autoliquidaciones.py:691-695 | one turn of the inner loop: fails only with the first error of the leave lines still to come; otherwise emits the line of leave `j` and moves the lines still to come and their first error on by one |
| Report.PayslipLines | co_payroll/wizard/autoliquidaciones.py:685-695 | one payslip's normal line (when its days are positive) followed by its leave lines, or the first error among them |
| Report.GenerateLines | co_payroll/wizard/autoliquidaciones.py:680-697 | fails exactly with `FirstError`; otherwise the lines are `Emitted` for the inputs in order, and the returned text and total are their concatenation and the sum of their `ibc_ccf` |
| Report.FillTotal | co_payroll/wizard/autoliquidaciones.py:707-709 | the splice keeps the header's text before 343 and after 355, and keeps the length if and only if the total fits 12 digits |
| Report.FillTotalFits | co_payroll/wizard/autoliquidaciones.py:707-709 | a total that fits keeps the length, changes nothing outside [343, 355), and, when non-negative, reads back as the rounded total |
| Report.Generate | co_payroll/wizard/autoliquidaciones.py:699-713 | fails exactly with `FirstError`; otherwise the file is the upper-cased spliced header followed by the emitted lines |
| ReportProperties.EmittedSummarized | co_payroll/wizard/autoliquidaciones.py:680-697 | every emitted sequence has the line numbers, CCF bases and fixed lengths of its lines |
| ReportProperties.SumIsCcfTotal | co_payroll/wizard/autoliquidaciones.py:707 | the total spliced into field 20 is the sum, over the file's lines, of the CCF base the line rules compute (every field 45) |
| ReportProperties.LineNumbers | co_payroll/wizard/autoliquidaciones.py:681-695 | the `i`-th emitted line starts with `02` and reads back `i` at 2-7: numbers run 0, 1, 2, ... without gaps |
| ReportProperties.FullLines | co_payroll/wizard/autoliquidaciones.py:680-697 | when every line's fields fit, every emitted line is exactly 678 characters |
| ReportProperties.TextsAt | co_payroll/wizard/autoliquidaciones.py:687-693 | full-length lines sit one after another: the text is 678 times the number of lines, and line `i` is at [678 i, 678 (i+1)) |
| ReportProperties.FileHeader | co_payroll/wizard/autoliquidaciones.py:704-713 | the finished file has the 361-character header, field 20 reads back as the rounded total, CRLF ends the header, and the upper-cased lines follow from 361 |
| ReportProperties.FileLineAt | co_payroll/wizard/autoliquidaciones.py:711-713 | with full-length lines, the file is 361 + 678 n characters and line `i` is the upper-cased line text at 361 + 678 i |

## Left out

- Database access is replaced by input lists and filters:
  - `_get_payslips` is a filter over a given list of payslips;
  - the `hr.leave` searches are a filter over a given list of leaves;
  - the two `hr.contract` searches at 255-270 become tests of the contract's own dates.
- The order of a search result is the order of the input list. The store's default ordering is not modelled.
- `fields.Datetime.context_timestamp` (162-164) is left out because it is a timezone conversion. `_format_datetime` turns a date into midnight UTC and then into the user's timezone, so for a user west of UTC (Colombia is UTC-5) every printed date is the day before the stored one. The model prints the stored (year, month, day) and also uses it in the period tests.
- Formats.ValidDate: years before 1000 are outside the model. Python's `strftime("%Y")` on glibc prints such a year without zero padding, so the 4-digit layout would not hold for them.
- `_get_document_code` and `_get_vat_without_verification_code` are not part of this model. Their results are input strings on the partner and the company.
- The attachment is not modelled because it is I/O and delivery (715-730). That covers:
  - deleting the old attachment;
  - creating the new one;
  - base64 encoding;
  - the URL action.
- IEEE floating point is left out because amounts and rates are exact rationals:
  - the leave base pro-rating;
  - the rate sums;
  - `ibc_total * rate`;
  - `math.ceil` of a float quotient.

  Values that differ from the rationals only by rounding error may print differently.
- `Formats.Upper` covers ASCII and Latin-1 single-character upper-casing. `str.upper` maps a few characters to several (for example `ß` to `SS`) or outside Latin-1. Those are not modelled.
- Absent (`False`) string fields are modelled as the empty string. An absent date is `None`.
- The ORM `mapped("employee_id")` count is modelled as the number of distinct employee ids.
- DetailLines.GenerateLine: `LineLayout` states the frame, the index, the flags at 29, 136-148 and 200, the IRP days at 151-152, and every numeric and rate field from 36 to 96 that carries a gating rule. For the other fields it states only their length:
  - the identity and name text fields (3-14);
  - the two constant blanks 28-29;
  - the administrator codes (31-35, 77);
  - the pension and health rates (46, 54);
  - the solidarity fields (51-52);
  - the work centre and the risk class number (62, 78);
  - the date fields (80-94).

  Their values are the `LineRules` and `Formats` functions the append methods call.
- Header.GenerateHeader: when the employee count, provider type or operator code is too wide, `HeaderLayout` does not state the offsets after field 19.
- ReportProperties.SumIsCcfTotal: `CcfTotal` counts zero for an input whose CCF base is undefined. That case never occurs among emitted lines, since an undefined base aborts the file.
