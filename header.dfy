/**
 * The type-1 record of the file: the contributor, the periods, the number of employees and
 * a twelve-zero placeholder for field 20, which the assembly fills in with the base total.
 */
module Header {

  import opened Formats
  import opened Payroll

  /** 359 characters of fields and the CRLF terminator. */
  const HeaderLength: nat := 361

  /** Field 20 occupies [TotalStart, TotalEnd) of the header. */
  const TotalStart: nat := 343
  const TotalEnd: nat := 355

  /** The number of distinct employees among the payslips of the period. */
  function EmployeeCount(w: Wizard, payslips: seq<Payslip>): (n: nat)
    ensures n <= |GetPayslips(w, payslips)|
  {
    |EmployeeIds(GetPayslips(w, payslips))|
  }

  /** The numeric fields of the header that can overflow fit their widths. */
  predicate HeaderFits(w: Wizard, payslips: seq<Payslip>)
  {
    && NumberFits(EmployeeCount(w, payslips) as real, 5)
    && NumberFits(w.providerType as real, 2) && NumberFits(w.operatorCode as real, 2)
  }

  /**
   * Where the header's fields sit: everything up to offset 338 always at fixed offsets, the
   * terminator at the end, and the rest at fixed offsets once the employee count and the two
   * operator codes fit their widths.
   */
  ghost predicate HeaderLayout(w: Wizard, company: Company, payslips: seq<Payslip>, h: string)
  {
    && HeaderLength <= |h|
    && h[..2] == FormatString(w.registrationType, 2)
    && h[2..3] == FormatString(w.planType, 1)
    && h[3..7] == "0001"
    && h[7..207] == FormatString(company.name, 200)
    && h[207..209] == FormatString(company.documentCode, 2)
    && h[209..226] == FormatString(company.vat, 17)
    && h[226] == 'E'
    && h[227..247] == Repeat(' ', 20)
    && h[247..248] == FormatString(w.presentationType, 1)
    && h[248..298] == Repeat(' ', 50)
    && h[298..304] == FormatString(company.administrationCode, 6)
    && h[304..311] == FormatString(FormatYearMonth(w.payslipStart), 7)
    && h[311..318] == FormatString(FormatYearMonth(w.reportStart), 7)
    && h[318..328] == Repeat('0', 10)
    && h[328..338] == Repeat(' ', 10)
    && h[|h| - 2..] == "\r\n"
    && (HeaderFits(w, payslips) ==>
          && |h| == HeaderLength
          && h[338..343] == FormatNumber(EmployeeCount(w, payslips) as real, 5)
          && h[TotalStart..TotalEnd] == Repeat('0', 12)
          && h[355..357] == FormatNumber(w.providerType as real, 2)
          && h[357..359] == FormatNumber(w.operatorCode as real, 2))
  }

  /** The identity block: registration type, plan type, the fixed "0001", and the company's name, document and VAT. */
  method HeaderIdentity(w: Wizard, company: Company) returns (h: string)
    ensures |h| == 226
    ensures h[..2] == FormatString(w.registrationType, 2)
    ensures h[2..3] == FormatString(w.planType, 1)
    ensures h[3..7] == "0001"
    ensures h[7..207] == FormatString(company.name, 200)
    ensures h[207..209] == FormatString(company.documentCode, 2)
    ensures h[209..226] == FormatString(company.vat, 17)
  {
    var f1 := FormatString(w.registrationType, 2);
    var f2 := FormatString(w.planType, 1);
    var f3 := "0001";
    var f4 := FormatString(company.name, 200);
    var f5 := FormatString(company.documentCode, 2);
    var f6 := FormatString(company.vat, 17);
    h := f1;
    h := h + f2;
    ghost var upTo2 := h;
    h := h + f3;
    ghost var upTo3 := h;
    h := h + f4;
    ghost var upTo4 := h;
    h := h + f5;
    ghost var upTo5 := h;
    h := h + f6;

    Placed(f1, f2, 2, 3);
    Placed(upTo2, f3, 3, 7);
    Placed(upTo3, f4, 7, 207);
    Placed(upTo4, f5, 207, 209);
    Placed(upTo5, f6, 209, 226);
    PrefixTrans(upTo4, upTo5, h);
    PrefixTrans(upTo3, upTo4, h);
    PrefixTrans(upTo2, upTo3, h);
    PrefixSlice(upTo2, h, 0, 2);
    PrefixSlice(upTo2, h, 2, 3);
    PrefixSlice(upTo3, h, 3, 7);
    PrefixSlice(upTo4, h, 7, 207);
    PrefixSlice(upTo5, h, 207, 209);
  }

  /** The class block: the contributor class, two empty fields, the presentation type and two more empty fields. */
  method HeaderClass(h0: string, w: Wizard) returns (h: string)
    requires |h0| == 226
    ensures h0 <= h && |h| == 298
    ensures h[226] == 'E'
    ensures h[227..247] == Repeat(' ', 20)
    ensures h[247..248] == FormatString(w.presentationType, 1)
    ensures h[248..298] == Repeat(' ', 50)
  {
    BlankField(10);
    BlankField(40);
    var f7 := "E";
    var f8and9 := FormatString("", 10) + FormatString("", 10);
    var f10 := FormatString(w.presentationType, 1);
    var f11and12 := FormatString("", 10) + FormatString("", 40);
    assert f8and9 == Repeat(' ', 20);
    assert f11and12 == Repeat(' ', 50);
    h := h0 + f7;
    ghost var upTo7 := h;
    h := h + f8and9;
    ghost var upTo9 := h;
    h := h + f10;
    ghost var upTo10 := h;
    h := h + f11and12;

    Placed(h0, f7, 226, 227);
    Placed(upTo7, f8and9, 227, 247);
    Placed(upTo9, f10, 247, 248);
    Placed(upTo10, f11and12, 248, 298);
    PrefixTrans(upTo9, upTo10, h);
    PrefixTrans(upTo7, upTo9, h);
    PrefixAt(upTo7, h, 226);
    PrefixSlice(upTo9, h, 227, 247);
    PrefixSlice(upTo10, h, 247, 248);
  }

  /** The period block: the administrator, the two periods, a zero number and an empty field. */
  method HeaderPeriods(h0: string, w: Wizard, company: Company) returns (h: string)
    requires |h0| == 298
    ensures h0 <= h && |h| == 338
    ensures h[298..304] == FormatString(company.administrationCode, 6)
    ensures h[304..311] == FormatString(FormatYearMonth(w.payslipStart), 7)
    ensures h[311..318] == FormatString(FormatYearMonth(w.reportStart), 7)
    ensures h[318..328] == Repeat('0', 10)
    ensures h[328..338] == Repeat(' ', 10)
  {
    BlankField(10);
    ZeroNumber(10);
    var f13 := FormatString(company.administrationCode, 6);
    var f14 := FormatString(FormatYearMonth(w.payslipStart), 7);
    var f15 := FormatString(FormatYearMonth(w.reportStart), 7);
    var f16 := FormatNumber(0.0, 10);
    var f17 := FormatString("", 10);
    h := h0 + f13;
    ghost var upTo13 := h;
    h := h + f14;
    ghost var upTo14 := h;
    h := h + f15;
    ghost var upTo15 := h;
    h := h + f16;
    ghost var upTo16 := h;
    h := h + f17;

    Placed(h0, f13, 298, 304);
    Placed(upTo13, f14, 304, 311);
    Placed(upTo14, f15, 311, 318);
    Placed(upTo15, f16, 318, 328);
    Placed(upTo16, f17, 328, 338);
    PrefixTrans(upTo15, upTo16, h);
    PrefixTrans(upTo14, upTo15, h);
    PrefixTrans(upTo13, upTo14, h);
    PrefixTrans(h0, upTo13, h);
    PrefixSlice(upTo13, h, 298, 304);
    PrefixSlice(upTo14, h, 304, 311);
    PrefixSlice(upTo15, h, 311, 318);
    PrefixSlice(upTo16, h, 318, 328);
  }

  /** The count block: the employee count and the twelve-zero placeholder of field 20. */
  method HeaderCount(h0: string, w: Wizard, payslips: seq<Payslip>) returns (h: string)
    requires |h0| == 338
    ensures h0 <= h && 355 <= |h|
    ensures NumberFits(EmployeeCount(w, payslips) as real, 5) ==>
              && |h| == 355
              && h[338..343] == FormatNumber(EmployeeCount(w, payslips) as real, 5)
              && h[TotalStart..TotalEnd] == Repeat('0', 12)
  {
    ZeroNumber(12);
    var f18 := FormatNumber(EmployeeCount(w, payslips) as real, 5);
    var f20 := FormatNumber(0.0, 12);
    h := h0 + f18;
    ghost var upTo18 := h;
    h := h + f20;

    Placed(h0, f18, 338, 343);
    Placed(upTo18, f20, 343, 355);
    PrefixTrans(h0, upTo18, h);
    if |f18| == 5 {
      PrefixSlice(upTo18, h, 338, 343);
    }
  }

  /** The operator block: the information operator's type and code, and the CRLF terminator. */
  method HeaderOperator(h0: string, w: Wizard) returns (h: string)
    ensures h0 <= h && |h0| + 6 <= |h| && h[|h| - 2..] == "\r\n"
    ensures NumberFits(w.providerType as real, 2) && NumberFits(w.operatorCode as real, 2) ==>
              && |h| == |h0| + 6
              && h[|h0|..|h0| + 2] == FormatNumber(w.providerType as real, 2)
              && h[|h0| + 2..|h0| + 4] == FormatNumber(w.operatorCode as real, 2)
  {
    var f21 := FormatNumber(w.providerType as real, 2);
    var f22 := FormatNumber(w.operatorCode as real, 2);
    h := h0 + f21;
    ghost var upTo21 := h;
    h := h + f22;
    ghost var upTo22 := h;
    h := h + "\r\n";

    Placed(h0, f21, |h0|, |h0| + 2);
    Placed(upTo21, f22, |h0| + 2, |h0| + 4);
    Grows(upTo22, "\r\n");
    PrefixTrans(upTo21, upTo22, h);
    PrefixTrans(h0, upTo21, h);
    if |f21| == 2 && |f22| == 2 {
      PrefixSlice(upTo21, h, |h0|, |h0| + 2);
    }
  }

  /** `_generate_header`: the whole type-1 record. */
  method GenerateHeader(w: Wizard, company: Company, payslips: seq<Payslip>) returns (header: string)
    ensures HeaderLayout(w, company, payslips, header)
  {
    header := HeaderIdentity(w, company);
    ghost var upTo6 := header;
    header := HeaderClass(header, w);
    ghost var upTo12 := header;
    header := HeaderPeriods(header, w, company);
    ghost var upTo17 := header;
    header := HeaderCount(header, w, payslips);
    ghost var upTo20 := header;
    header := HeaderOperator(header, w);

    PrefixTrans(upTo17, upTo20, header);
    PrefixTrans(upTo12, upTo17, header);
    PrefixTrans(upTo6, upTo12, header);
    PrefixSlice(upTo6, header, 0, 2);
    PrefixSlice(upTo6, header, 2, 3);
    PrefixSlice(upTo6, header, 3, 7);
    PrefixSlice(upTo6, header, 7, 207);
    PrefixSlice(upTo6, header, 207, 209);
    PrefixSlice(upTo6, header, 209, 226);
    PrefixAt(upTo12, header, 226);
    PrefixSlice(upTo12, header, 227, 247);
    PrefixSlice(upTo12, header, 247, 248);
    PrefixSlice(upTo12, header, 248, 298);
    PrefixSlice(upTo17, header, 298, 304);
    PrefixSlice(upTo17, header, 304, 311);
    PrefixSlice(upTo17, header, 311, 318);
    PrefixSlice(upTo17, header, 318, 328);
    PrefixSlice(upTo17, header, 328, 338);
    if HeaderFits(w, payslips) {
      PrefixSlice(upTo20, header, 338, 343);
      PrefixSlice(upTo20, header, TotalStart, TotalEnd);
    }
  }

  /** The employee count reads back from its field of a header whose fields fit. */
  lemma EmployeeCountReadBack(w: Wizard, company: Company, payslips: seq<Payslip>, h: string)
    requires HeaderLayout(w, company, payslips, h) && HeaderFits(w, payslips)
    ensures AllDigits(h[338..343]) && DigitsValue(h[338..343]) == EmployeeCount(w, payslips)
  {
    var n := EmployeeCount(w, payslips);
    NumberTextFacts(n as real, 5);
    RoundOfInteger(n);
    assert Pow10(5) == 100000;
    PaddedNumber(n, 5);
  }

  /** The two month fields carry the payroll and the reporting month as YYYY-MM. */
  lemma PeriodsReadBack(w: Wizard, company: Company, payslips: seq<Payslip>, h: string)
    requires HeaderLayout(w, company, payslips, h)
    requires ValidDate(w.payslipStart) && ValidDate(w.reportStart)
    ensures AllDigits(h[304..308]) && DigitsValue(h[304..308]) == w.payslipStart.year
    ensures h[308] == '-' && AllDigits(h[309..311]) && DigitsValue(h[309..311]) == w.payslipStart.month
    ensures AllDigits(h[311..315]) && DigitsValue(h[311..315]) == w.reportStart.year
    ensures h[315] == '-' && AllDigits(h[316..318]) && DigitsValue(h[316..318]) == w.reportStart.month
  {
    YearMonthAt(h, 304, w.payslipStart);
    YearMonthAt(h, 311, w.reportStart);
  }

  /** A month field at offset `k` reads back as its year and month. */
  lemma YearMonthAt(h: string, k: nat, d: Date)
    requires ValidDate(d) && k + 7 <= |h| && h[k..k + 7] == FormatString(FormatYearMonth(d), 7)
    ensures AllDigits(h[k..k + 4]) && DigitsValue(h[k..k + 4]) == d.year
    ensures h[k + 4] == '-' && AllDigits(h[k + 5..k + 7]) && DigitsValue(h[k + 5..k + 7]) == d.month
  {
    var r := FormatYearMonth(d);
    assert h[k..k + 7] == r;
    assert h[k..k + 4] == r[..4];
    assert h[k + 5..k + 7] == r[5..];
    assert h[k + 4] == r[4];
  }
}
