/**
 * The detail-line builder: about 96 fields appended in a fixed order, each a resolver value
 * from `LineRules` run through one formatter, returned with the family-compensation base
 * the line contributes to the header total.
 */
module DetailLines {

  import opened Results
  import opened Formats
  import opened Payroll
  import opened LineRules

  /** A type-2 record of the file and the base (field 45) it adds to header field 20. */
  datatype DetailLine = DetailLine(text: string, ibcCcf: real)

  /** 676 characters of fields and the CRLF terminator. */
  const LineLength: nat := 678

  /**
   * Where the gated fields sit in a finished line. The record marker and the terminator are
   * always in place, the fields up to 23 whenever the index fits five digits, and every other
   * field at its fixed offset once every field fits its width.
   */
  ghost predicate LineLayout(index: nat, inp: LineInput, d: DetailLine)
    requires LineError(inp).None?
  {
    var t := d.text;
    var days := LineDays(inp).value;
    var ibcTotal := IbcTotal(inp).value;
    var ibcCcf := IbcCcf(inp).value;
    var rate := RiskRate(ContractOf(inp).riskClass).value;
    var exemption := ExemptionFlag(inp).value;
    && d.ibcCcf == ibcCcf
    && 7 <= |t| && t[..2] == "02" && t[|t| - 2..] == "\r\n"
    && (index < 100000 ==>
          && 183 <= |t|
          && t[2..7] == FormatNumber(index as real, 5)
          && t[29] == Flag(ForeignDocument(inp.payslip.employee.partner.documentCode))
          && t[136..144] == EntryFlags(inp)
          && t[144] == SalaryVariationFlag(inp)
          && t[145..149] == LeaveFlags(inp)
          && (NumberFits(IrpDays(inp), 2) ==> t[151..153] == FormatNumber(IrpDays(inp), 2)))
    && (AllFit(index, inp) ==>
          && |t| == LineLength
          && t[183..185] == FormatNumber(PensionPart(inp, days), 2)
          && t[185..187] == FormatNumber(days, 2)
          && t[187..189] == FormatNumber(RiskPart(inp, days), 2)
          && t[189..191] == FormatNumber(CcfDaysPart(inp, days), 2)
          && t[200] == IntegralSalaryFlag(inp)
          && t[201..210] == FormatNumber(PensionPart(inp, ibcTotal), 9)
          && t[210..219] == FormatNumber(ibcTotal, 9)
          && t[219..228] == FormatNumber(RiskPart(inp, ibcTotal), 9)
          && t[228..237] == FormatNumber(ibcCcf, 9)
          && t[244..253] == FormatNumber(PensionAmount(inp, ibcTotal) as real, 9)
          && t[271..280] == FormatNumber(PensionAmount(inp, ibcTotal) as real, 9)
          && t[314..323] == FormatNumber(HealthAmount(inp, ibcTotal) as real, 9)
          && t[380..389] == FormatFloat(RiskRateField(inp, rate), 9)
          && t[398..407] == FormatNumber(RiskAmount(inp, ibcTotal, rate) as real, 9)
          && t[407..414] == FormatFloat(CcfRateField(inp), 7)
          && t[414..423] == FormatNumber(CcfAmount(inp, ibcCcf) as real, 9)
          && t[423..430] == FormatFloat(SenaRateField(inp), 7)
          && t[430..439] == FormatNumber(SenaAmount(inp, ibcCcf) as real, 9)
          && t[439..446] == FormatFloat(IcbfRateField(inp), 7)
          && t[446..455] == FormatNumber(IcbfAmount(inp, ibcCcf) as real, 9)
          && t[505] == exemption
          && t[664..673] == FormatNumber(CcfBaseField(inp, ibcCcf, exemption), 9)
          && t[673..676] == FormatNumber(HoursField(inp), 3))
  }

  predicate ValidOrNone(d: Option<Date>)
  {
    d.None? || ValidDate(d.value)
  }

  /** A date taken from a leave record is valid when every leave's dates are. */
  lemma LeaveDateValid(inp: LineInput, code: string, start: bool)
    requires DatesValid(inp) && code != ""
    ensures ValidOrNone(FirstLeaveStart(inp, code)) && ValidOrNone(FirstLeaveEnd(inp, code))
    ensures ValidOrNone(LeaveDate(inp, code, start))
  {
  }

  /** Fields 80-82 print ten characters each. */
  lemma ContractDateWidths(inp: LineInput)
    requires DatesValid(inp)
    ensures |FormatDate(StartDateField(inp))| == 10 && |FormatDate(EndDateField(inp))| == 10
    ensures |FormatDate(FirstLeaveStart(inp, "VSP"))| == 10
  {
    if !ContractStartsInPeriod(inp) {
      LeaveDateValid(inp, "ING", true);
    }
    if !ContractEndsInPeriod(inp) {
      LeaveDateValid(inp, "RET", true);
    }
    LeaveDateValid(inp, "VSP", true);
  }

  /** A leave date field prints ten characters. */
  lemma LeaveDateWidth(inp: LineInput, code: string, start: bool)
    requires DatesValid(inp) && code != ""
    ensures |FormatDate(LeaveDate(inp, code, start))| == 10
  {
    LeaveDateValid(inp, code, start);
  }

  /** The vacation date fields print ten characters. */
  lemma VacationDateWidth(inp: LineInput, start: bool)
    requires DatesValid(inp)
    ensures |FormatDate(VacationDate(inp, start))| == 10
  {
    if LeaveIs(inp, "VAC") {
      LeaveDateWidth(inp, "VAC", start);
    } else if LeaveIs(inp, "LR") {
      LeaveDateWidth(inp, "LR", start);
    }
  }

  /** The zero amount and the zero rate have exactly their width. */
  lemma ZeroWidths()
    ensures |FormatNumber(0.0, 9)| == 9 && |FormatFloat(0.0, 7)| == 7
  {
    ZeroNumber(9);
    RoundOfInteger(0);
    assert Scaled(0.0, 5) == 0;
  }

  /** A risk-class rate (below 0.1) renders in nine characters. */
  lemma RiskRateWidth(rate: real)
    requires 0.0 <= rate < 0.1
    ensures FloatFits(rate, 9)
  {
    assert Pow10(7) == 10000000;
  }

  // ------------------------------------------------------ field groups

  /** Fields 36-39 written at offset `at`. */
  ghost predicate DaysAt(t: string, at: nat, inp: LineInput, days: real)
  {
    && |t| == at + 8
    && t[at..at + 2] == FormatNumber(PensionPart(inp, days), 2)
    && t[at + 2..at + 4] == FormatNumber(days, 2)
    && t[at + 4..at + 6] == FormatNumber(RiskPart(inp, days), 2)
    && t[at + 6..at + 8] == FormatNumber(CcfDaysPart(inp, days), 2)
  }

  /** Fields 40-45 written at offset `at`. */
  ghost predicate BasesAt(t: string, at: nat, inp: LineInput, ibcTotal: real, ibcCcf: real)
  {
    && |t| == at + 46
    && t[at + 9] == IntegralSalaryFlag(inp)
    && t[at + 10..at + 19] == FormatNumber(PensionPart(inp, ibcTotal), 9)
    && t[at + 19..at + 28] == FormatNumber(ibcTotal, 9)
    && t[at + 28..at + 37] == FormatNumber(RiskPart(inp, ibcTotal), 9)
    && t[at + 37..at + 46] == FormatNumber(ibcCcf, 9)
  }

  /** Fields 46-60 written at offset `at`: 47 and 50 carry the pension amount, 55 the health amount. */
  ghost predicate PensionHealthAt(t: string, at: nat, inp: LineInput, ibcTotal: real)
  {
    && |t| == at + 143
    && t[at + 7..at + 16] == FormatNumber(PensionAmount(inp, ibcTotal) as real, 9)
    && t[at + 34..at + 43] == FormatNumber(PensionAmount(inp, ibcTotal) as real, 9)
    && t[at + 77..at + 86] == FormatNumber(HealthAmount(inp, ibcTotal) as real, 9)
  }

  /** Fields 61-75 written at offset `at`. */
  ghost predicate ParafiscalAt(t: string, at: nat, inp: LineInput, ibcTotal: real, ibcCcf: real, rate: real)
  {
    && |t| == at + 125
    && t[at..at + 9] == FormatFloat(RiskRateField(inp, rate), 9)
    && t[at + 18..at + 27] == FormatNumber(RiskAmount(inp, ibcTotal, rate) as real, 9)
    && t[at + 27..at + 34] == FormatFloat(CcfRateField(inp), 7)
    && t[at + 34..at + 43] == FormatNumber(CcfAmount(inp, ibcCcf) as real, 9)
    && t[at + 43..at + 50] == FormatFloat(SenaRateField(inp), 7)
    && t[at + 50..at + 59] == FormatNumber(SenaAmount(inp, ibcCcf) as real, 9)
    && t[at + 59..at + 66] == FormatFloat(IcbfRateField(inp), 7)
    && t[at + 66..at + 75] == FormatNumber(IcbfAmount(inp, ibcCcf) as real, 9)
  }

  /**
   * Fields 1-23: record marker, index, identity, names and the novelty flags. Each field is
   * the `LineRules` value of its column, so the branches of the source sit in those functions.
   */
  method StartLine(index: nat, inp: LineInput) returns (line: string)
    ensures 145 <= |line| && line[..2] == "02"
    ensures index < 100000 ==>
              && |line| == 145
              && line[2..7] == FormatNumber(index as real, 5)
              && line[29] == Flag(ForeignDocument(inp.payslip.employee.partner.documentCode))
              && line[136..144] == EntryFlags(inp)
              && line[144] == SalaryVariationFlag(inp)
  {
    line := AppendIdentity(index, inp);
    ghost var upTo7 := line;
    line := AppendNames(line, inp);
    ghost var upTo22 := line;
    var f23 := [SalaryVariationFlag(inp)];
    line := line + f23;

    Grows(upTo22, f23);
    PrefixTrans(upTo7, upTo22, line);
    PrefixSlice(upTo7, line, 0, 2);
    if index < 100000 {
      PrefixSlice(upTo7, line, 2, 7);
      PrefixAt(upTo7, line, 29);
      PrefixSlice(upTo22, line, 136, 144);
    }
  }

  /** Fields 1-7: record marker, index, document type and number, quotient type and subtype, foreigner flag. */
  method AppendIdentity(index: nat, inp: LineInput) returns (line: string)
    ensures 30 <= |line| && line[..2] == "02"
    ensures index < 100000 ==>
              && |line| == 30
              && line[2..7] == FormatNumber(index as real, 5)
              && line[29] == Flag(ForeignDocument(inp.payslip.employee.partner.documentCode))
  {
    var partner := inp.payslip.employee.partner;
    var contract := inp.payslip.employee.contract;
    var f2 := FormatNumber(index as real, 5);
    var f3 := FormatString(partner.documentCode, 2);
    var f4 := FormatString(partner.vat, 16);
    var f5 := FormatString(contract.quotientType, 2);
    var f6 := FormatString(contract.quotientSubtype, 2);
    var f7 := [Flag(ForeignDocument(partner.documentCode))];
    line := "02";  // field 1
    line := line + f2;
    ghost var upTo2 := line;
    line := line + f3;
    ghost var upTo3 := line;
    line := line + f4;
    ghost var upTo4 := line;
    line := line + f5;
    ghost var upTo5 := line;
    line := line + f6;
    ghost var upTo6 := line;
    line := line + f7;

    IndexWidth(index);
    Placed("02", f2, 2, 7);
    Grows(upTo2, f3);
    Grows(upTo3, f4);
    Grows(upTo4, f5);
    Grows(upTo5, f6);
    Grows(upTo6, f7);
    PrefixTrans(upTo5, upTo6, line);
    PrefixTrans(upTo4, upTo5, line);
    PrefixTrans(upTo3, upTo4, line);
    PrefixTrans(upTo2, upTo3, line);
    PrefixSlice(upTo2, line, 0, 2);
    PrefixSlice(upTo2, line, 2, 7);
  }

  /** The line index renders in five digits while it is below 100000. */
  lemma IndexWidth(index: nat)
    ensures index < 100000 ==> |FormatNumber(index as real, 5)| == 5
  {
    if index < 100000 {
      PaddedNumber(index, 5);
    }
  }

  /**
   * Fields 8-22: the empty field 8, the location codes, the four name parts and the entry
   * and exit flags of fields 15-22.
   */
  method AppendNames(line: string, inp: LineInput) returns (out: string)
    ensures line <= out && |out| == |line| + 114
    ensures out[|line| + 106..] == EntryFlags(inp)
  {
    var partner := inp.payslip.employee.partner;
    var f8 := " ";
    var f9 := FormatString(partner.stateCode, 2);
    var f10 := FormatString(partner.cityCode, 3);
    var f11 := FormatString(partner.lastName1, 20);
    var f12 := FormatString(partner.lastName2, 30);
    var f13 := FormatString(partner.name1, 20);
    var f14 := FormatString(partner.name2, 30);
    var f15to22 := EntryFlags(inp);
    out := line + f8;
    ghost var upTo8 := out;
    out := out + f9;
    ghost var upTo9 := out;
    out := out + f10;
    ghost var upTo10 := out;
    out := out + f11;
    ghost var upTo11 := out;
    out := out + f12;
    ghost var upTo12 := out;
    out := out + f13;
    ghost var upTo13 := out;
    out := out + f14;
    ghost var upTo14 := out;
    out := out + f15to22;

    Grows(line, f8);
    Grows(upTo8, f9);
    Grows(upTo9, f10);
    Grows(upTo10, f11);
    Grows(upTo11, f12);
    Grows(upTo12, f13);
    Grows(upTo13, f14);
    Placed(upTo14, f15to22, |upTo14|, |out|);
    PrefixTrans(upTo13, upTo14, out);
    PrefixTrans(upTo12, upTo13, out);
    PrefixTrans(upTo11, upTo12, out);
    PrefixTrans(upTo10, upTo11, out);
    PrefixTrans(upTo9, upTo10, out);
    PrefixTrans(upTo8, upTo9, out);
    PrefixTrans(line, upTo8, out);
  }

  /** Fields 24-35: the leave flags, the IRP days and the administrators' codes. */
  method AppendNovelties(line: string, inp: LineInput) returns (out: string)
    ensures line <= out && |line| + 38 <= |out|
    ensures out[|line|..|line| + 4] == LeaveFlags(inp)
    ensures NumberFits(IrpDays(inp), 2) ==>
              |out| == |line| + 38 && out[|line| + 6..|line| + 8] == FormatNumber(IrpDays(inp), 2)
  {
    var contract := inp.payslip.employee.contract;
    var f24to27 := LeaveFlags(inp);
    var f28 := " ";
    var f29 := " ";
    var f30 := FormatNumber(IrpDays(inp), 2);
    var f31 := FormatString(contract.pensionAdmin, 6);
    var f32 := FormatString(" ", 6);
    var f33 := FormatString(contract.healthAdmin, 6);
    var f34 := FormatString(" ", 6);
    var f35 := FormatString(contract.familyCompensationAdmin, 6);
    out := line + f24to27;
    ghost var upTo27 := out;
    out := out + f28;
    ghost var upTo28 := out;
    out := out + f29;
    ghost var upTo29 := out;
    out := out + f30;
    ghost var upTo30 := out;
    out := out + f31;
    ghost var upTo31 := out;
    out := out + f32;
    ghost var upTo32 := out;
    out := out + f33;
    ghost var upTo33 := out;
    out := out + f34;
    ghost var upTo34 := out;
    out := out + f35;

    Placed(line, f24to27, |line|, |upTo27|);
    Grows(upTo27, f28);
    Grows(upTo28, f29);
    Placed(upTo29, f30, |upTo29|, |upTo30|);
    Grows(upTo30, f31);
    Grows(upTo31, f32);
    Grows(upTo32, f33);
    Grows(upTo33, f34);
    Grows(upTo34, f35);
    PrefixTrans(upTo33, upTo34, out);
    PrefixTrans(upTo32, upTo33, out);
    PrefixTrans(upTo31, upTo32, out);
    PrefixTrans(upTo30, upTo31, out);
    PrefixTrans(upTo29, upTo30, out);
    PrefixTrans(upTo28, upTo29, out);
    PrefixTrans(upTo27, upTo28, out);
    PrefixTrans(line, upTo27, out);
    PrefixSlice(upTo27, out, |line|, |line| + 4);
    if NumberFits(IrpDays(inp), 2) {
      PrefixSlice(upTo30, out, |line| + 6, |line| + 8);
    }
  }

  /** Fields 36-39: the day counts. An error reading WORK100 aborts the line. */
  method AppendDays(line: string, inp: LineInput) returns (r: Result<string>)
    ensures r.Err? <==> LineDays(inp).Err?
    ensures r.Err? ==> r.error == LineDays(inp).error
    ensures r.Ok? ==> line <= r.value && |line| + 8 <= |r.value|
    ensures r.Ok? && DaysFit(inp, LineDays(inp).value) ==> DaysAt(r.value, |line|, inp, LineDays(inp).value)
  {
    var days :- LineDays(inp);
    var f36 := FormatNumber(PensionPart(inp, days), 2);
    var f37 := FormatNumber(days, 2);
    var f38 := FormatNumber(RiskPart(inp, days), 2);
    var f39 := FormatNumber(CcfDaysPart(inp, days), 2);
    var out := line + f36;
    ghost var upTo36 := out;
    out := out + f37;
    ghost var upTo37 := out;
    out := out + f38;
    ghost var upTo38 := out;
    out := out + f39;
    r := Ok(out);

    ghost var at := |line|;
    Placed(line, f36, at, at + 2);
    Placed(upTo36, f37, at + 2, at + 4);
    Placed(upTo37, f38, at + 4, at + 6);
    Placed(upTo38, f39, at + 6, at + 8);
    PrefixTrans(upTo37, upTo38, out);
    PrefixTrans(upTo36, upTo37, out);
    PrefixTrans(line, upTo36, out);
    PrefixSlice(upTo36, out, at, at + 2);
    PrefixSlice(upTo37, out, at + 2, at + 4);
    PrefixSlice(upTo38, out, at + 4, at + 6);
  }

  /** Fields 40-45: wage, integral flag and the contribution bases; returns IBC total and `ibc_ccf`. */
  method AppendBases(line: string, inp: LineInput) returns (r: Result<string>, ibcTotal: real, ibcCcf: real)
    ensures r.Err? <==> IbcTotal(inp).Err?
    ensures r.Err? ==> r.error == IbcTotal(inp).error
    ensures r.Ok? ==> ibcTotal == IbcTotal(inp).value && ibcCcf == IbcCcf(inp).value
    ensures r.Ok? ==> line <= r.value && |line| + 46 <= |r.value|
    ensures r.Ok? && BasesFit(inp, ibcTotal, ibcCcf) ==> BasesAt(r.value, |line|, inp, ibcTotal, ibcCcf)
  {
    ibcTotal, ibcCcf := 0.0, 0.0;
    var total := IbcTotal(inp);
    if total.Err? {
      return Err(total.error), ibcTotal, ibcCcf;
    }
    ibcTotal := total.value;
    ibcCcf := IbcCcf(inp).value;
    var f40 := FormatNumber(ContractOf(inp).wage, 9);
    var f41 := IntegralSalaryFlag(inp);
    var f42 := FormatNumber(PensionPart(inp, ibcTotal), 9);
    var f43 := FormatNumber(ibcTotal, 9);
    var f44 := FormatNumber(RiskPart(inp, ibcTotal), 9);
    var f45 := FormatNumber(ibcCcf, 9);
    var out := line + f40;
    ghost var upTo40 := out;
    out := out + [f41];
    ghost var upTo41 := out;
    out := out + f42;
    ghost var upTo42 := out;
    out := out + f43;
    ghost var upTo43 := out;
    out := out + f44;
    ghost var upTo44 := out;
    out := out + f45;
    r := Ok(out);

    ghost var at := |line|;
    Placed(line, f40, at, at + 9);
    Placed(upTo40, [f41], at + 9, at + 10);
    Placed(upTo41, f42, at + 10, at + 19);
    Placed(upTo42, f43, at + 19, at + 28);
    Placed(upTo43, f44, at + 28, at + 37);
    Placed(upTo44, f45, at + 37, at + 46);
    PrefixTrans(upTo43, upTo44, out);
    PrefixTrans(upTo42, upTo43, out);
    PrefixTrans(upTo41, upTo42, out);
    PrefixTrans(upTo40, upTo41, out);
    PrefixTrans(line, upTo40, out);
    PrefixAt(upTo41, out, at + 9);
    PrefixSlice(upTo42, out, at + 10, at + 19);
    PrefixSlice(upTo43, out, at + 19, at + 28);
    PrefixSlice(upTo44, out, at + 28, at + 37);
  }

  /** Fields 46-60: pension and health rates and amounts, the solidarity funds and the empty fields. */
  method AppendPensionHealth(line: string, inp: LineInput, ibcTotal: real) returns (out: string)
    ensures line <= out && |line| + 143 <= |out|
    ensures PensionHealthFit(inp, ibcTotal) ==> PensionHealthAt(out, |line|, inp, ibcTotal)
  {
    var p := inp.payslip;
    var pension := PensionAmount(inp, ibcTotal);
    var field48 := 0;
    var field49 := 0;
    var f46 := FormatFloat(PensionRate(p), 7);
    var f47 := FormatNumber(pension as real, 9);
    var f48 := FormatNumber(field48 as real, 9);
    var f49 := FormatNumber(field49 as real, 9);
    var f50 := FormatNumber((pension + field48 + field49) as real, 9);
    var f51 := FormatNumber(FundAmount(p, "aut_solidaridad_sol") as real, 9);
    var f52 := FormatNumber(FundAmount(p, "aut_solidaridad_subs") as real, 9);
    var f53 := FormatNumber(0.0, 9);
    var f54 := FormatFloat(HealthRate(p), 7);
    var f55 := FormatNumber(HealthAmount(inp, ibcTotal) as real, 9);
    var f56 := FormatNumber(0.0, 9);
    var f57 := FormatString("", 15);
    var f58 := FormatNumber(0.0, 9);
    var f59 := FormatString("", 15);
    var f60 := FormatNumber(0.0, 9);
    out := line + f46;
    ghost var upTo46 := out;
    out := out + f47;
    ghost var upTo47 := out;
    out := out + f48;
    ghost var upTo48 := out;
    out := out + f49;
    ghost var upTo49 := out;
    out := out + f50;
    ghost var upTo50 := out;
    out := out + f51;
    ghost var upTo51 := out;
    out := out + f52;
    ghost var upTo52 := out;
    out := out + f53;
    ghost var upTo53 := out;
    out := out + f54;
    ghost var upTo54 := out;
    out := out + f55;
    ghost var upTo55 := out;
    out := out + f56;
    ghost var upTo56 := out;
    out := out + f57;
    ghost var upTo57 := out;
    out := out + f58;
    ghost var upTo58 := out;
    out := out + f59;
    ghost var upTo59 := out;
    out := out + f60;

    ZeroWidths();
    ghost var at := |line|;
    Placed(line, f46, at, at + 7);
    Placed(upTo46, f47, at + 7, at + 16);
    Grows(upTo47, f48);
    Grows(upTo48, f49);
    Placed(upTo49, f50, at + 34, at + 43);
    Grows(upTo50, f51);
    Grows(upTo51, f52);
    Grows(upTo52, f53);
    Grows(upTo53, f54);
    Placed(upTo54, f55, at + 77, at + 86);
    Grows(upTo55, f56);
    Grows(upTo56, f57);
    Grows(upTo57, f58);
    Grows(upTo58, f59);
    Grows(upTo59, f60);
    PrefixTrans(upTo58, upTo59, out);
    PrefixTrans(upTo57, upTo58, out);
    PrefixTrans(upTo56, upTo57, out);
    PrefixTrans(upTo55, upTo56, out);
    PrefixTrans(upTo54, upTo55, out);
    PrefixTrans(upTo53, upTo54, out);
    PrefixTrans(upTo52, upTo53, out);
    PrefixTrans(upTo51, upTo52, out);
    PrefixTrans(upTo50, upTo51, out);
    PrefixTrans(upTo49, upTo50, out);
    PrefixTrans(upTo48, upTo49, out);
    PrefixTrans(upTo47, upTo48, out);
    PrefixTrans(upTo46, upTo47, out);
    PrefixTrans(line, upTo46, out);
    PrefixSlice(upTo47, out, at + 7, at + 16);
    PrefixSlice(upTo50, out, at + 34, at + 43);
    PrefixSlice(upTo55, out, at + 77, at + 86);
  }

  /** Fields 61-75: risk, family compensation, SENA, ICBF and the empty exoneration fields. */
  method AppendParafiscal(line: string, inp: LineInput, ibcTotal: real, ibcCcf: real) returns (r: Result<string>)
    ensures r.Err? <==> RiskRate(ContractOf(inp).riskClass).Err?
    ensures r.Err? ==> r.error == RiskRate(ContractOf(inp).riskClass).error
    ensures r.Ok? ==> line <= r.value && |line| + 125 <= |r.value|
    ensures r.Ok? && ParafiscalFit(inp, ibcTotal, ibcCcf, RiskRate(ContractOf(inp).riskClass).value) ==>
              ParafiscalAt(r.value, |line|, inp, ibcTotal, ibcCcf, RiskRate(ContractOf(inp).riskClass).value)
  {
    var riskClass := ContractOf(inp).riskClass;
    var jobRiskRate :- RiskRate(riskClass);
    var f61 := FormatFloat(RiskRateField(inp, jobRiskRate), 9);
    var f62 := FormatNumber(WorkCenter(riskClass).value as real, 9);
    var f63 := FormatNumber(RiskAmount(inp, ibcTotal, jobRiskRate) as real, 9);
    var f64 := FormatFloat(CcfRateField(inp), 7);
    var f65 := FormatNumber(CcfAmount(inp, ibcCcf) as real, 9);
    var f66 := FormatFloat(SenaRateField(inp), 7);
    var f67 := FormatNumber(SenaAmount(inp, ibcCcf) as real, 9);
    var f68 := FormatFloat(IcbfRateField(inp), 7);
    var f69 := FormatNumber(IcbfAmount(inp, ibcCcf) as real, 9);
    var out := line + f61;
    ghost var upTo61 := out;
    out := out + f62;
    ghost var upTo62 := out;
    out := out + f63;
    ghost var upTo63 := out;
    out := out + f64;
    ghost var upTo64 := out;
    out := out + f65;
    ghost var upTo65 := out;
    out := out + f66;
    ghost var upTo66 := out;
    out := out + f67;
    ghost var upTo67 := out;
    out := out + f68;
    ghost var upTo68 := out;
    out := out + f69;
    ghost var upTo69 := out;
    var f70 := FormatFloat(0.0, 7);
    var f71 := FormatNumber(0.0, 9);
    var f72 := FormatFloat(0.0, 7);
    var f73 := FormatNumber(0.0, 9);
    var f74 := FormatString(" ", 2);
    var f75 := FormatString(" ", 16);
    out := out + f70;
    ghost var upTo70 := out;
    out := out + f71;
    ghost var upTo71 := out;
    out := out + f72;
    ghost var upTo72 := out;
    out := out + f73;
    ghost var upTo73 := out;
    out := out + f74;
    ghost var upTo74 := out;
    out := out + f75;
    r := Ok(out);

    ZeroWidths();
    RiskRateWidth(jobRiskRate);
    PaddedNumber(WorkCenter(riskClass).value, 9);
    ghost var at := |line|;
    Placed(line, f61, at, at + 9);
    Placed(upTo61, f62, at + 9, at + 18);
    Placed(upTo62, f63, at + 18, at + 27);
    Placed(upTo63, f64, at + 27, at + 34);
    Placed(upTo64, f65, at + 34, at + 43);
    Placed(upTo65, f66, at + 43, at + 50);
    Placed(upTo66, f67, at + 50, at + 59);
    Placed(upTo67, f68, at + 59, at + 66);
    Placed(upTo68, f69, at + 66, at + 75);
    Grows(upTo69, f70);
    Grows(upTo70, f71);
    Grows(upTo71, f72);
    Grows(upTo72, f73);
    Grows(upTo73, f74);
    Grows(upTo74, f75);
    PrefixTrans(upTo73, upTo74, out);
    PrefixTrans(upTo72, upTo73, out);
    PrefixTrans(upTo71, upTo72, out);
    PrefixTrans(upTo70, upTo71, out);
    PrefixTrans(upTo69, upTo70, out);
    PrefixTrans(upTo68, upTo69, out);
    PrefixTrans(upTo67, upTo68, out);
    PrefixTrans(upTo66, upTo67, out);
    PrefixTrans(upTo65, upTo66, out);
    PrefixTrans(upTo64, upTo65, out);
    PrefixTrans(upTo63, upTo64, out);
    PrefixTrans(upTo62, upTo63, out);
    PrefixTrans(upTo61, upTo62, out);
    PrefixTrans(line, upTo61, out);
    PrefixSlice(upTo61, out, at, at + 9);
    PrefixSlice(upTo63, out, at + 18, at + 27);
    PrefixSlice(upTo64, out, at + 27, at + 34);
    PrefixSlice(upTo65, out, at + 34, at + 43);
    PrefixSlice(upTo66, out, at + 43, at + 50);
    PrefixSlice(upTo67, out, at + 50, at + 59);
    PrefixSlice(upTo68, out, at + 59, at + 66);
    PrefixSlice(upTo69, out, at + 66, at + 75);
  }

  /** Fields 76-94: the exemption flag, the risk administrator and class, and the novelty dates. */
  method AppendDates(line: string, inp: LineInput) returns (r: Result<string>, field76: char)
    requires ContractOf(inp).riskClass in RiskClasses
    ensures r.Err? <==> ExemptionFlag(inp).Err?
    ensures r.Err? ==> r.error == ExemptionFlag(inp).error
    ensures r.Ok? ==> field76 == ExemptionFlag(inp).value
    ensures r.Ok? ==> line <= r.value && |line| + 159 <= |r.value| && r.value[|line|] == field76
    ensures r.Ok? && DatesValid(inp) ==> |r.value| == |line| + 159
  {
    var contract := ContractOf(inp);
    field76 := ' ';
    field76 :- ExemptionFlag(inp);
    var f77 := FormatString(contract.riskAdmin, 6);
    var f78 := RiskNumber(contract.riskClass).value;
    var f79 := " ";
    var f80 := FormatDate(StartDateField(inp));
    var f81 := FormatDate(EndDateField(inp));
    var f82 := FormatDate(FirstLeaveStart(inp, "VSP"));
    var out := line + [field76];
    ghost var upTo76 := out;
    out := out + f77;
    ghost var upTo77 := out;
    out := out + f78;
    ghost var upTo78 := out;
    out := out + f79;
    ghost var upTo79 := out;
    out := out + f80;
    ghost var upTo80 := out;
    out := out + f81;
    ghost var upTo81 := out;
    out := out + f82;
    ghost var upTo82 := out;
    out := AppendLeaveDates(out, inp);
    r := Ok(out);

    if DatesValid(inp) {
      ContractDateWidths(inp);
    }
    Placed(line, [field76], |line|, |line| + 1);
    Grows(upTo76, f77);
    Grows(upTo77, f78);
    Grows(upTo78, f79);
    Grows(upTo79, f80);
    Grows(upTo80, f81);
    Grows(upTo81, f82);
    PrefixTrans(upTo81, upTo82, out);
    PrefixTrans(upTo80, upTo81, out);
    PrefixTrans(upTo79, upTo80, out);
    PrefixTrans(upTo78, upTo79, out);
    PrefixTrans(upTo77, upTo78, out);
    PrefixTrans(upTo76, upTo77, out);
    PrefixTrans(line, upTo76, out);
    PrefixAt(upTo76, out, |line|);
  }

  /** Fields 83-94: the start and end dates of each kind of leave; 91-92 are always blank. */
  method AppendLeaveDates(line: string, inp: LineInput) returns (out: string)
    ensures line <= out && |line| + 120 <= |out|
    ensures DatesValid(inp) ==> |out| == |line| + 120
  {
    var f83 := FormatDate(LeaveDate(inp, "SLN", true));
    var f84 := FormatDate(LeaveDate(inp, "SLN", false));
    var f85 := FormatDate(LeaveDate(inp, "IGE", true));
    var f86 := FormatDate(LeaveDate(inp, "IGE", false));
    var f87 := FormatDate(LeaveDate(inp, "LMA", true));
    var f88 := FormatDate(LeaveDate(inp, "LMA", false));
    out := line + f83;
    ghost var upTo83 := out;
    out := out + f84;
    ghost var upTo84 := out;
    out := out + f85;
    ghost var upTo85 := out;
    out := out + f86;
    ghost var upTo86 := out;
    out := out + f87;
    ghost var upTo87 := out;
    out := out + f88;
    ghost var upTo88 := out;
    var f89 := FormatDate(VacationDate(inp, true));
    var f90 := FormatDate(VacationDate(inp, false));
    var f91 := FormatDate(None);
    var f92 := FormatDate(None);
    var f93 := FormatDate(LeaveDate(inp, "IRP", true));
    var f94 := FormatDate(LeaveDate(inp, "IRP", false));
    out := out + f89;
    ghost var upTo89 := out;
    out := out + f90;
    ghost var upTo90 := out;
    out := out + f91;
    ghost var upTo91 := out;
    out := out + f92;
    ghost var upTo92 := out;
    out := out + f93;
    ghost var upTo93 := out;
    out := out + f94;

    if DatesValid(inp) {
      LeaveDateWidth(inp, "SLN", true);
      LeaveDateWidth(inp, "SLN", false);
      LeaveDateWidth(inp, "IGE", true);
      LeaveDateWidth(inp, "IGE", false);
      LeaveDateWidth(inp, "LMA", true);
      LeaveDateWidth(inp, "LMA", false);
      VacationDateWidth(inp, true);
      VacationDateWidth(inp, false);
      LeaveDateWidth(inp, "IRP", true);
      LeaveDateWidth(inp, "IRP", false);
    }
    Grows(line, f83);
    Grows(upTo83, f84);
    Grows(upTo84, f85);
    Grows(upTo85, f86);
    Grows(upTo86, f87);
    Grows(upTo87, f88);
    Grows(upTo88, f89);
    Grows(upTo89, f90);
    Grows(upTo90, f91);
    Grows(upTo91, f92);
    Grows(upTo92, f93);
    Grows(upTo93, f94);
    PrefixTrans(upTo92, upTo93, out);
    PrefixTrans(upTo91, upTo92, out);
    PrefixTrans(upTo90, upTo91, out);
    PrefixTrans(upTo89, upTo90, out);
    PrefixTrans(upTo88, upTo89, out);
    PrefixTrans(upTo87, upTo88, out);
    PrefixTrans(upTo86, upTo87, out);
    PrefixTrans(upTo85, upTo86, out);
    PrefixTrans(upTo84, upTo85, out);
    PrefixTrans(upTo83, upTo84, out);
    PrefixTrans(line, upTo83, out);
  }

  /** Fields 95-96 and the CRLF terminator. */
  method FinishLine(line: string, inp: LineInput, ibcCcf: real, field76: char) returns (out: string)
    ensures line <= out && |line| + 14 <= |out| && out[|out| - 2..] == "\r\n"
    ensures FinishFit(inp, ibcCcf, field76) ==>
              && |out| == |line| + 14
              && out[|line|..|line| + 9] == FormatNumber(CcfBaseField(inp, ibcCcf, field76), 9)
              && out[|line| + 9..|line| + 12] == FormatNumber(HoursField(inp), 3)
  {
    var f95 := FormatNumber(CcfBaseField(inp, ibcCcf, field76), 9);
    var f96 := FormatNumber(HoursField(inp), 3);
    out := line + f95;
    ghost var upTo95 := out;
    out := out + f96;
    ghost var upTo96 := out;
    out := out + "\r\n";

    ghost var at := |line|;
    Placed(line, f95, at, at + 9);
    Placed(upTo95, f96, at + 9, at + 12);
    Placed(upTo96, "\r\n", |upTo96|, |upTo96| + 2);
    PrefixTrans(upTo95, upTo96, out);
    PrefixTrans(line, upTo95, out);
    PrefixSlice(upTo95, out, at, at + 9);
    PrefixSlice(upTo96, out, at + 9, at + 12);
  }

  // ---------------------------------------------------------- the line

  /**
   * `_generate_line`: the field groups in file order. An error aborts the line where the
   * source raises it: worked days at field 37, the leave base at fields 42-45, the risk
   * class at field 61 and the single-record amounts at field 76.
   */
  method GenerateLine(index: nat, inp: LineInput) returns (r: Result<DetailLine>)
    ensures r.Err? <==> LineError(inp).Some?
    ensures r.Err? ==> r.error == LineError(inp).value
    ensures r.Ok? ==> LineLayout(index, inp, r.value)
  {
    var line := StartLine(index, inp);
    ghost var upTo23 := line;
    line := AppendNovelties(line, inp);
    ghost var upTo35 := line;
    line :- AppendDays(line, inp);
    ghost var upTo39 := line;
    var ibcTotal, ibcCcf;
    line, ibcTotal, ibcCcf :- AppendBases(line, inp);
    ghost var upTo45 := line;
    line := AppendPensionHealth(line, inp, ibcTotal);
    ghost var upTo60 := line;
    line :- AppendParafiscal(line, inp, ibcTotal, ibcCcf);
    ghost var upTo75 := line;
    var field76;
    line, field76 :- AppendDates(line, inp);
    ghost var upTo94 := line;
    line := FinishLine(line, inp, ibcCcf, field76);
    LineFromGroups(index, inp, upTo23, upTo35, upTo39, upTo45, upTo60, upTo75, upTo94, line,
                   LineDays(inp).value, ibcTotal, ibcCcf, RiskRate(ContractOf(inp).riskClass).value, field76);
    r := Ok(DetailLine(line, ibcCcf));
  }

  /** The group facts put together: the finished line has the layout `LineLayout` describes. */
  lemma LineFromGroups(index: nat, inp: LineInput, g23: string, g35: string, g39: string, g45: string,
                       g60: string, g75: string, g94: string, t: string,
                       days: real, ibcTotal: real, ibcCcf: real, rate: real, exemption: char)
    requires LineError(inp).None?
    requires LineDays(inp) == Ok(days) && IbcTotal(inp) == Ok(ibcTotal) && IbcCcf(inp) == Ok(ibcCcf)
    requires RiskRate(ContractOf(inp).riskClass) == Ok(rate) && ExemptionFlag(inp) == Ok(exemption)
    requires 145 <= |g23| && g23[..2] == "02"
    requires index < 100000 ==>
               && |g23| == 145
               && g23[2..7] == FormatNumber(index as real, 5)
               && g23[29] == Flag(ForeignDocument(inp.payslip.employee.partner.documentCode))
               && g23[136..144] == EntryFlags(inp)
               && g23[144] == SalaryVariationFlag(inp)
    requires g23 <= g35 && |g23| + 38 <= |g35| && g35[|g23|..|g23| + 4] == LeaveFlags(inp)
    requires NumberFits(IrpDays(inp), 2) ==>
               |g35| == |g23| + 38 && g35[|g23| + 6..|g23| + 8] == FormatNumber(IrpDays(inp), 2)
    requires g35 <= g39 && (DaysFit(inp, days) ==> DaysAt(g39, |g35|, inp, days))
    requires g39 <= g45 && (BasesFit(inp, ibcTotal, ibcCcf) ==> BasesAt(g45, |g39|, inp, ibcTotal, ibcCcf))
    requires g45 <= g60 && (PensionHealthFit(inp, ibcTotal) ==> PensionHealthAt(g60, |g45|, inp, ibcTotal))
    requires g60 <= g75
    requires ParafiscalFit(inp, ibcTotal, ibcCcf, rate) ==> ParafiscalAt(g75, |g60|, inp, ibcTotal, ibcCcf, rate)
    requires g75 <= g94 && |g75| < |g94| && g94[|g75|] == exemption
    requires DatesValid(inp) ==> |g94| == |g75| + 159
    requires g94 <= t && |g94| + 14 <= |t| && t[|t| - 2..] == "\r\n"
    requires FinishFit(inp, ibcCcf, exemption) ==>
               && |t| == |g94| + 14
               && t[|g94|..|g94| + 9] == FormatNumber(CcfBaseField(inp, ibcCcf, exemption), 9)
               && t[|g94| + 9..|g94| + 12] == FormatNumber(HoursField(inp), 3)
    ensures LineLayout(index, inp, DetailLine(t, ibcCcf))
  {
    PrefixTrans(g75, g94, t);
    PrefixTrans(g60, g75, t);
    PrefixTrans(g45, g60, t);
    PrefixTrans(g39, g45, t);
    PrefixTrans(g35, g39, t);
    PrefixTrans(g23, g35, t);
    PrefixSlice(g23, t, 0, 2);
    PrefixSlice(g23, t, 2, 7);
    PrefixAt(g23, t, 29);
    PrefixAt(g23, t, 144);
    PrefixSlice(g23, t, 136, 144);
    PrefixSlice(g35, t, |g23|, |g23| + 4);
    PrefixSlice(g35, t, |g23| + 6, |g23| + 8);
    if AllFit(index, inp) {
      PlacedGroups(inp, g39, g45, g60, g75, g94, t, ibcCcf);
    }
  }

  /** Under `AllFit`, the slices of each group survive in the finished line. */
  lemma PlacedGroups(inp: LineInput, g39: string, g45: string, g60: string, g75: string, g94: string,
                     t: string, ibcCcf: real)
    requires g39 <= t && g45 <= t && g60 <= t && g75 <= t && g94 <= t
    requires |g39| == 191 && |g45| == 237 && |g60| == 380 && |g75| == 505
    ensures t[183..185] == g39[183..185] && t[185..187] == g39[185..187]
    ensures t[187..189] == g39[187..189] && t[189..191] == g39[189..191]
    ensures t[200] == g45[200] && t[201..210] == g45[201..210] && t[210..219] == g45[210..219]
    ensures t[219..228] == g45[219..228] && t[228..237] == g45[228..237]
    ensures t[244..253] == g60[244..253] && t[271..280] == g60[271..280] && t[314..323] == g60[314..323]
    ensures t[380..389] == g75[380..389] && t[398..407] == g75[398..407] && t[407..414] == g75[407..414]
    ensures t[414..423] == g75[414..423] && t[423..430] == g75[423..430] && t[430..439] == g75[430..439]
    ensures t[439..446] == g75[439..446] && t[446..455] == g75[446..455]
    ensures 505 < |g94| ==> t[505] == g94[505]
  {
    PrefixSlice(g39, t, 183, 185);
    PrefixSlice(g39, t, 185, 187);
    PrefixSlice(g39, t, 187, 189);
    PrefixSlice(g39, t, 189, 191);
    PrefixAt(g45, t, 200);
    PrefixSlice(g45, t, 201, 210);
    PrefixSlice(g45, t, 210, 219);
    PrefixSlice(g45, t, 219, 228);
    PrefixSlice(g45, t, 228, 237);
    PrefixSlice(g60, t, 244, 253);
    PrefixSlice(g60, t, 271, 280);
    PrefixSlice(g60, t, 314, 323);
    PrefixSlice(g75, t, 380, 389);
    PrefixSlice(g75, t, 398, 407);
    PrefixSlice(g75, t, 407, 414);
    PrefixSlice(g75, t, 414, 423);
    PrefixSlice(g75, t, 423, 430);
    PrefixSlice(g75, t, 430, 439);
    PrefixSlice(g75, t, 439, 446);
    PrefixSlice(g75, t, 446, 455);
    PrefixAt(g94, t, 505);
  }
}
