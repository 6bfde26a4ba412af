/**
 * What a finished detail line says, read off its fixed positions: the frame of the record,
 * the flags, the bases and the fields the leave type switches off.
 */
module LineProperties {

  import opened Results
  import opened Formats
  import opened Payroll
  import opened LineRules
  import opened DetailLines

  /** A line that every field fits: the marker, the index read back, the terminator and 678 characters. */
  lemma LineFrame(index: nat, inp: LineInput, d: DetailLine)
    requires LineError(inp).None? && AllFit(index, inp) && LineLayout(index, inp, d)
    ensures |d.text| == LineLength
    ensures d.text[..2] == "02" && d.text[676..] == "\r\n"
    ensures AllDigits(d.text[2..7]) && DigitsValue(d.text[2..7]) == index
  {
    PaddedNumber(index, 5);
  }

  /** Field 45 reads back as the rounded base the line returns for the header total. */
  lemma CcfBaseReadBack(index: nat, inp: LineInput, d: DetailLine)
    requires LineError(inp).None? && AllFit(index, inp) && LineLayout(index, inp, d)
    requires 0.0 <= d.ibcCcf
    ensures AllDigits(d.text[228..237]) && DigitsValue(d.text[228..237]) == RoundHalfEven(d.ibcCcf)
  {
    var ibcCcf := IbcCcf(inp).value;
    assert NumberFits(ibcCcf, 9);
    FormatNumberReadBack(ibcCcf, 9);
    NumberTextFacts(ibcCcf, 9);
    if Pow10(9) <= RoundHalfEven(ibcCcf) {
      assert false;
    }
  }

  /** On every leave line the risk rate (field 61) and the risk contribution (field 63) are zero. */
  lemma LeaveLineRiskZero(index: nat, inp: LineInput, d: DetailLine)
    requires LineError(inp).None? && AllFit(index, inp) && LineLayout(index, inp, d)
    requires inp.leave.Some?
    ensures d.text[380..389] == "0.0000000"
    ensures d.text[398..407] == Repeat('0', 9)
  {
    LeaveRiskPrinted(inp, IbcTotal(inp).value, RiskRate(ContractOf(inp).riskClass).value);
  }

  lemma LeaveRiskPrinted(inp: LineInput, ibcTotal: real, rate: real)
    requires inp.leave.Some?
    ensures FormatFloat(RiskRateField(inp, rate), 9) == "0.0000000"
    ensures FormatNumber(RiskAmount(inp, ibcTotal, rate) as real, 9) == Repeat('0', 9)
  {
    ZeroRates();
    ZeroNumber(9);
  }

  /** A leave of a type other than VAC and LR zeroes the rates and amounts of fields 64 and 66-69. */
  lemma ParafiscalZeroOnOtherLeaves(index: nat, inp: LineInput, d: DetailLine)
    requires LineError(inp).None? && AllFit(index, inp) && LineLayout(index, inp, d)
    requires inp.leave.Some? && !LeaveAmong(inp, ["VAC", "LR"])
    ensures d.text[407..414] == "0.00000" && d.text[423..430] == "0.00000" && d.text[439..446] == "0.00000"
    ensures d.text[430..439] == Repeat('0', 9) && d.text[446..455] == Repeat('0', 9)
  {
    OtherLeaveParafiscalPrinted(inp, IbcCcf(inp).value);
  }

  lemma OtherLeaveParafiscalPrinted(inp: LineInput, ibcCcf: real)
    requires inp.leave.Some? && !LeaveAmong(inp, ["VAC", "LR"])
    ensures FormatFloat(CcfRateField(inp), 7) == "0.00000"
    ensures FormatFloat(SenaRateField(inp), 7) == "0.00000" && FormatFloat(IcbfRateField(inp), 7) == "0.00000"
    ensures FormatNumber(SenaAmount(inp, ibcCcf) as real, 9) == Repeat('0', 9)
    ensures FormatNumber(IcbfAmount(inp, ibcCcf) as real, 9) == Repeat('0', 9)
  {
    ZeroRates();
    ZeroNumber(9);
  }

  /**
   * Field 65 is zero on IGE, LMA, SLN and IRP lines, and on every other line the least multiple
   * of 100 at or above the family-compensation base times its rate.
   */
  lemma CcfAmountField(index: nat, inp: LineInput, d: DetailLine)
    requires LineError(inp).None? && AllFit(index, inp) && LineLayout(index, inp, d)
    ensures LeaveAmong(inp, CcfExemptLeaves) ==> d.text[414..423] == Repeat('0', 9)
    ensures !LeaveAmong(inp, CcfExemptLeaves) ==>
              var r := CcfAmount(inp, d.ibcCcf);
              var v := d.ibcCcf * CcfRate(inp.payslip);
              d.text[414..423] == FormatNumber(r as real, 9) && r % 100 == 0 && v <= r as real < v + 100.0
  {
    CcfAmountBounds(inp, d.ibcCcf);
    if LeaveAmong(inp, CcfExemptLeaves) {
      ZeroNumber(9);
    }
  }

  lemma CcfAmountBounds(inp: LineInput, ibcCcf: real)
    ensures !LeaveAmong(inp, CcfExemptLeaves) ==>
              var r := CcfAmount(inp, ibcCcf);
              var v := ibcCcf * CcfRate(inp.payslip);
              r % 100 == 0 && v <= r as real < v + 100.0
  {
  }

  /** A quotient subtype 01 or 02 zeroes the pension days (field 36) and the pension base (field 42). */
  lemma SplitQuotientZeros(index: nat, inp: LineInput, d: DetailLine)
    requires LineError(inp).None? && AllFit(index, inp) && LineLayout(index, inp, d)
    requires SplitQuotient(ContractOf(inp))
    ensures d.text[183..185] == "00" && d.text[201..210] == Repeat('0', 9)
  {
    PartsZero(inp, LineDays(inp).value, IbcTotal(inp).value);
  }

  /** Fields 37 and 43 carry the days and the base whatever the quotient subtype and the structure. */
  lemma DaysAndBaseKept(index: nat, inp: LineInput, d: DetailLine)
    requires LineError(inp).None? && AllFit(index, inp) && LineLayout(index, inp, d)
    ensures d.text[185..187] == FormatNumber(LineDays(inp).value, 2)
    ensures d.text[210..219] == FormatNumber(IbcTotal(inp).value, 9)
  {
  }

  /**
   * Without APR_EL the risk days and base (fields 38 and 44) carry the line's days and base,
   * and without APR_E the family-compensation days (field 39) carry the days.
   */
  lemma PartsKept(index: nat, inp: LineInput, d: DetailLine)
    requires LineError(inp).None? && AllFit(index, inp) && LineLayout(index, inp, d)
    ensures !Contains(StructOf(inp), "APR_EL") ==>
              && d.text[187..189] == FormatNumber(LineDays(inp).value, 2)
              && d.text[219..228] == FormatNumber(IbcTotal(inp).value, 9)
    ensures !Contains(StructOf(inp), "APR_E") ==> d.text[189..191] == FormatNumber(LineDays(inp).value, 2)
  {
  }

  /** An APR_EL structure (which also contains APR_E) zeroes fields 36, 38, 39, 42 and 44. */
  lemma ApprenticeZeros(index: nat, inp: LineInput, d: DetailLine)
    requires LineError(inp).None? && AllFit(index, inp) && LineLayout(index, inp, d)
    requires Contains(StructOf(inp), "APR_EL")
    ensures d.text[183..185] == "00" && d.text[187..189] == "00" && d.text[189..191] == "00"
    ensures d.text[201..210] == Repeat('0', 9) && d.text[219..228] == Repeat('0', 9)
  {
    PartsZero(inp, LineDays(inp).value, IbcTotal(inp).value);
  }

  /** The day and base parts a quotient subtype 01/02 or an APR_EL structure switches off, as printed. */
  lemma PartsZero(inp: LineInput, days: real, ibcTotal: real)
    ensures SplitQuotient(ContractOf(inp)) ==>
              FormatNumber(PensionPart(inp, days), 2) == "00" && FormatNumber(PensionPart(inp, ibcTotal), 9) == Repeat('0', 9)
    ensures Contains(StructOf(inp), "APR_EL") ==>
              && FormatNumber(PensionPart(inp, days), 2) == "00" && FormatNumber(RiskPart(inp, days), 2) == "00"
              && FormatNumber(CcfDaysPart(inp, days), 2) == "00"
              && FormatNumber(PensionPart(inp, ibcTotal), 9) == Repeat('0', 9)
              && FormatNumber(RiskPart(inp, ibcTotal), 9) == Repeat('0', 9)
  {
    ApprenticeTagsNest(StructOf(inp));
    ZeroNumber(2);
    ZeroNumber(9);
    assert Repeat('0', 2) == "00";
  }

  /** Field 41 is `X` exactly for the SAL_INT structure, else blank. */
  lemma IntegralSalaryField(index: nat, inp: LineInput, d: DetailLine)
    requires LineError(inp).None? && AllFit(index, inp) && LineLayout(index, inp, d)
    ensures d.text[200] == 'X' <==> StructOf(inp) == "SAL_INT"
    ensures d.text[200] == 'X' || d.text[200] == ' '
  {
  }

  /** Field 7 is `X` exactly for the foreigners' document types CE, PA and CD. */
  lemma ForeignerField(index: nat, inp: LineInput, d: DetailLine)
    requires LineError(inp).None? && index < 100000 && LineLayout(index, inp, d)
    ensures d.text[29] == 'X' <==> inp.payslip.employee.partner.documentCode in ["CE", "PA", "CD"]
  {
  }

  /**
   * Fields 15-22: field 15 is `X` exactly when the employee's contract starts in the period,
   * field 16 when it ends in it, fields 17-21 when a TDE, TAE, TDP, TAP or VSP leave of the
   * employee starts in the period, and field 22 is blank.
   */
  lemma EntryFlagsField(index: nat, inp: LineInput, d: DetailLine)
    requires LineError(inp).None? && index < 100000 && LineLayout(index, inp, d)
    ensures d.text[136] == 'X' <==> ContractStartsInPeriod(inp)
    ensures d.text[137] == 'X' <==> ContractEndsInPeriod(inp)
    ensures d.text[138] == 'X' <==> exists l | l in inp.leaves :: Matches(inp, l, "TDE")
    ensures d.text[139] == 'X' <==> exists l | l in inp.leaves :: Matches(inp, l, "TAE")
    ensures d.text[140] == 'X' <==> exists l | l in inp.leaves :: Matches(inp, l, "TDP")
    ensures d.text[141] == 'X' <==> exists l | l in inp.leaves :: Matches(inp, l, "TAP")
    ensures d.text[142] == 'X' <==> exists l | l in inp.leaves :: Matches(inp, l, "VSP")
    ensures d.text[143] == ' '
  {
    EntryFlagsRead(d.text, inp);
  }

  lemma EntryFlagsRead(t: string, inp: LineInput)
    requires 144 <= |t| && t[136..144] == EntryFlags(inp)
    ensures t[136] == 'X' <==> ContractStartsInPeriod(inp)
    ensures t[137] == 'X' <==> ContractEndsInPeriod(inp)
    ensures t[138] == 'X' <==> exists l | l in inp.leaves :: Matches(inp, l, "TDE")
    ensures t[139] == 'X' <==> exists l | l in inp.leaves :: Matches(inp, l, "TAE")
    ensures t[140] == 'X' <==> exists l | l in inp.leaves :: Matches(inp, l, "TDP")
    ensures t[141] == 'X' <==> exists l | l in inp.leaves :: Matches(inp, l, "TAP")
    ensures t[142] == 'X' <==> exists l | l in inp.leaves :: Matches(inp, l, "VSP")
    ensures t[143] == ' '
  {
    HasLeaveMatches(inp, "TDE");
    HasLeaveMatches(inp, "TAE");
    HasLeaveMatches(inp, "TDP");
    HasLeaveMatches(inp, "TAP");
    HasLeaveMatches(inp, "VSP");
    var f := t[136..144];
    assert t[136] == f[0] && t[137] == f[1] && t[138] == f[2] && t[139] == f[3];
    assert t[140] == f[4] && t[141] == f[5] && t[142] == f[6] && t[143] == f[7];

  }

  /**
   * Fields 24-27: `X` at 24, 25 and 26 exactly on an SLN, IGE or LMA line whose leave type has
   * a leave of the employee in the period; field 27 `X` on such a VAC line and `L` on such
   * an LR line.
   */
  lemma LeaveFlagsField(index: nat, inp: LineInput, d: DetailLine)
    requires LineError(inp).None? && index < 100000 && LineLayout(index, inp, d)
    ensures d.text[145] == 'X' <==> LeaveIs(inp, "SLN") && exists l | l in inp.leaves :: Matches(inp, l, "SLN")
    ensures d.text[146] == 'X' <==> LeaveIs(inp, "IGE") && exists l | l in inp.leaves :: Matches(inp, l, "IGE")
    ensures d.text[147] == 'X' <==> LeaveIs(inp, "LMA") && exists l | l in inp.leaves :: Matches(inp, l, "LMA")
    ensures d.text[148] == 'X' <==> LeaveIs(inp, "VAC") && exists l | l in inp.leaves :: Matches(inp, l, "VAC")
    ensures d.text[148] == 'L' <==> LeaveIs(inp, "LR") && exists l | l in inp.leaves :: Matches(inp, l, "LR")
  {
    LeaveFlagsRead(d.text, inp);
  }

  lemma LeaveFlagsRead(t: string, inp: LineInput)
    requires 149 <= |t| && t[145..149] == LeaveFlags(inp)
    ensures t[145] == 'X' <==> LeaveIs(inp, "SLN") && exists l | l in inp.leaves :: Matches(inp, l, "SLN")
    ensures t[146] == 'X' <==> LeaveIs(inp, "IGE") && exists l | l in inp.leaves :: Matches(inp, l, "IGE")
    ensures t[147] == 'X' <==> LeaveIs(inp, "LMA") && exists l | l in inp.leaves :: Matches(inp, l, "LMA")
    ensures t[148] == 'X' <==> LeaveIs(inp, "VAC") && exists l | l in inp.leaves :: Matches(inp, l, "VAC")
    ensures t[148] == 'L' <==> LeaveIs(inp, "LR") && exists l | l in inp.leaves :: Matches(inp, l, "LR")
  {
    var f := t[145..149];
    assert t[145] == f[0] && t[146] == f[1] && t[147] == f[2] && t[148] == f[3];
  }

  /** Field 30 reads back as the rounded days of an IRP line and as zero on every other line. */
  lemma IrpDaysField(index: nat, inp: LineInput, d: DetailLine)
    requires LineError(inp).None? && AllFit(index, inp) && LineLayout(index, inp, d)
    ensures AllDigits(d.text[151..153])
    ensures LeaveIs(inp, "IRP") ==> DigitsValue(d.text[151..153]) == RoundHalfEven(Abs(inp.leave.value.days))
    ensures !LeaveIs(inp, "IRP") ==> d.text[151..153] == "00"
  {
    TwoDigitsPrinted(IrpDays(inp));
  }

  lemma TwoDigitsPrinted(x: real)
    requires 0.0 <= x && NumberFits(x, 2)
    ensures AllDigits(FormatNumber(x, 2)) && DigitsValue(FormatNumber(x, 2)) == RoundHalfEven(x)
    ensures x == 0.0 ==> FormatNumber(x, 2) == "00"
  {
    FormatNumberReadBack(x, 2);
    NumberTextFacts(x, 2);
    if Pow10(2) <= RoundHalfEven(x) {
      assert false;
    }
    if x == 0.0 {
      ZeroNumber(2);
      assert Repeat('0', 2) == "00";
    }
  }

  /**
   * Field 23 is `X` exactly on a normal line whose IBC_L total differs from the wage, for a
   * structure containing neither SAL_INT nor APR.
   */
  lemma SalaryVariationField(index: nat, inp: LineInput, d: DetailLine)
    requires LineError(inp).None? && index < 100000 && LineLayout(index, inp, d)
    ensures d.text[144] == 'X' <==>
              inp.leave.None? && LineTotal(inp.payslip.lines, "IBC_L") != ContractOf(inp).wage
              && !Contains(StructOf(inp), "SAL_INT") && !Contains(StructOf(inp), "APR")
  {
  }

  /** On a vacation line of a payslip with an LVACA line, fields 47, 50 and 55 are zero. */
  lemma VacationWithLvacaZeros(index: nat, inp: LineInput, d: DetailLine)
    requires LineError(inp).None? && AllFit(index, inp) && LineLayout(index, inp, d)
    requires LeaveIs(inp, "VAC") && HasLineCode(inp.payslip.lines, "LVACA")
    ensures d.text[244..253] == Repeat('0', 9) && d.text[271..280] == Repeat('0', 9)
    ensures d.text[314..323] == Repeat('0', 9)
  {
    LvacaPrinted(inp, IbcTotal(inp).value);
  }

  lemma LvacaPrinted(inp: LineInput, ibcTotal: real)
    requires LeaveIs(inp, "VAC") && HasLineCode(inp.payslip.lines, "LVACA")
    ensures FormatNumber(PensionAmount(inp, ibcTotal) as real, 9) == Repeat('0', 9)
    ensures FormatNumber(HealthAmount(inp, ibcTotal) as real, 9) == Repeat('0', 9)
  {
    ZeroNumber(9);
  }

  /** Field 50, the sum of field 47 and the two zero fields 48 and 49, repeats field 47. */
  lemma PensionTotalField(index: nat, inp: LineInput, d: DetailLine)
    requires LineError(inp).None? && AllFit(index, inp) && LineLayout(index, inp, d)
    ensures d.text[271..280] == d.text[244..253]
  {
  }

  /**
   * Field 95 repeats field 45 when field 76 is `N` and the structure is no apprenticeship,
   * and is zero otherwise.
   */
  lemma CcfBaseRepeated(index: nat, inp: LineInput, d: DetailLine)
    requires LineError(inp).None? && AllFit(index, inp) && LineLayout(index, inp, d)
    ensures d.text[505] != 'S' && !Contains(StructOf(inp), "APR") ==> d.text[664..673] == d.text[228..237]
    ensures d.text[505] == 'S' || Contains(StructOf(inp), "APR") ==> d.text[664..673] == Repeat('0', 9)
  {
    CcfBasePrinted(inp, IbcCcf(inp).value, ExemptionFlag(inp).value);
  }

  lemma CcfBasePrinted(inp: LineInput, ibcCcf: real, exemption: char)
    ensures exemption != 'S' && !Contains(StructOf(inp), "APR") ==>
              FormatNumber(CcfBaseField(inp, ibcCcf, exemption), 9) == FormatNumber(ibcCcf, 9)
    ensures exemption == 'S' || Contains(StructOf(inp), "APR") ==>
              FormatNumber(CcfBaseField(inp, ibcCcf, exemption), 9) == Repeat('0', 9)
  {
    ZeroNumber(9);
  }

  /** A leave of a type other than VAC with no salary rules stops the line with that type's error. */
  lemma MissingRulesError(inp: LineInput)
    requires inp.leave.Some? && inp.leave.value.leaveType.code != "VAC"
    requires inp.leave.value.leaveType.salaryRuleCodes == []
    ensures LineError(inp) == Some(MissingSalaryRules(inp.leave.value.leaveType.id))
  {
  }

  /** A risk class outside the ARL tables stops the line with an error. */
  lemma UnknownRiskClassError(inp: LineInput)
    requires ContractOf(inp).riskClass !in RiskClasses
    ensures LineError(inp).Some?
    ensures LineDays(inp).Ok? && IbcTotal(inp).Ok? ==>
              LineError(inp) == Some(UnknownRiskClass(ContractOf(inp).riskClass))
  {
  }
}
