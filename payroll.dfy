/**
 * The records the report reads (payslips with their lines and worked days, employees,
 * contracts, leaves) and the lookup and aggregate helpers over them: line totals, rate sums,
 * worked days and hours, the occupational-risk (ARL) tables and the leave filter.
 *
 * The records are snapshots handed over by the payroll system; database searches become
 * filters over input lists, and the order of a list stands for the order the search returns.
 */
module Payroll {

  import opened Results
  import opened Formats

  // ------------------------------------------------------------- records

  /** A computed payslip line: salary-rule code, category code, total, rate (in percent), amount. */
  datatype PayslipLine = PayslipLine(code: string, category: string, total: real, rate: real, amount: real)

  datatype WorkedDaysLine = WorkedDaysLine(code: string, days: real, hours: real)

  /** The employee's home address partner; `documentCode` is the two-letter identity-document code. */
  datatype Partner = Partner(
    documentCode: string, vat: string, stateCode: string, cityCode: string,
    lastName1: string, lastName2: string, name1: string, name2: string)

  datatype Contract = Contract(
    id: int, wage: real, quotientType: string, quotientSubtype: string,
    structCode: string, riskClass: string,
    pensionAdmin: string, healthAdmin: string, familyCompensationAdmin: string, riskAdmin: string,
    dateStart: Date, dateEnd: Option<Date>)

  datatype Employee = Employee(id: int, partner: Partner, contract: Contract)

  datatype Payslip = Payslip(
    employee: Employee, dateFrom: Date, dateTo: Date,
    lines: seq<PayslipLine>, workedDays: seq<WorkedDaysLine>)

  /** A leave type: its novelty code ("" when unset) and the codes of its linked salary rules. */
  datatype LeaveType = LeaveType(id: int, name: string, code: string, salaryRuleCodes: seq<string>)

  datatype Leave = Leave(
    employeeId: int, state: string, dateFrom: Date, dateTo: Date, days: real, leaveType: LeaveType)

  datatype Period = Period(start: Date, end: Date)

  /** The wizard's own fields. */
  datatype Wizard = Wizard(
    planType: string, presentationType: string,
    payslipStart: Date, payslipEnd: Date, reportStart: Date, reportEnd: Date,
    providerType: int, operatorCode: int, registrationType: string)

  /** The current user's company partner; `documentCode` is the two-letter identity-document code. */
  datatype Company = Company(name: string, documentCode: string, vat: string, administrationCode: string)

  function PayslipPeriod(w: Wizard): Period
  {
    Period(w.payslipStart, w.payslipEnd)
  }

  /** `_get_payslips` over a given list: the payslips whose period is exactly the wizard's. */
  function GetPayslips(w: Wizard, payslips: seq<Payslip>): (r: seq<Payslip>)
    ensures |r| <= |payslips|
    ensures forall p :: p in r <==> p in payslips && p.dateFrom == w.payslipStart && p.dateTo == w.payslipEnd
  {
    if payslips == [] then []
    else (if payslips[0].dateFrom == w.payslipStart && payslips[0].dateTo == w.payslipEnd then [payslips[0]] else [])
         + GetPayslips(w, payslips[1..])
  }

  /** `payslips.mapped("employee_id")`: the distinct employees, identified by id. */
  function EmployeeIds(payslips: seq<Payslip>): (r: set<int>)
    ensures forall id :: id in r <==> exists i | 0 <= i < |payslips| :: payslips[i].employee.id == id
    ensures |r| <= |payslips|
  {
    if payslips == [] then {}
    else
      var rest := EmployeeIds(payslips[1..]);
      assert forall i | 1 <= i < |payslips| :: payslips[i] == payslips[1..][i - 1];
      rest + {payslips[0].employee.id}
  }

  predicate InPeriod(d: Date, period: Period)
  {
    DateLe(period.start, d) && DateLe(d, period.end)
  }

  // ------------------------------------------------------- payslip lines

  /** `_get_line_total`: absolute total of the first line with `code`, or 0 when there is none. */
  function LineTotal(lines: seq<PayslipLine>, code: string): (r: real)
    ensures 0.0 <= r
    ensures (forall i | 0 <= i < |lines| :: lines[i].code != code) ==> r == 0.0
    ensures forall i | 0 <= i < |lines| && lines[i].code == code ::
              (forall j | 0 <= j < i :: lines[j].code != code) ==> r == Abs(lines[i].total)
  {
    if lines == [] then 0.0
    else if lines[0].code == code then Abs(lines[0].total)
    else LineTotal(lines[1..], code)
  }

  /** A code counts towards the rate of `code` when it is `code` or its additional `code_AD`. */
  predicate IsRateCode(lineCode: string, code: string)
  {
    lineCode == code || lineCode == code + "_AD"
  }

  /** `_get_percentage`: the sum of `rate / 100` over the lines coded `code` or `code_AD`. */
  function Percentage(lines: seq<PayslipLine>, code: string): (r: real)
    ensures (forall l | l in lines :: !IsRateCode(l.code, code)) ==> r == 0.0
    ensures (forall l | l in lines :: 0.0 <= l.rate) ==> 0.0 <= r
  {
    if lines == [] then 0.0
    else (if IsRateCode(lines[0].code, code) then lines[0].rate / 100.0 else 0.0)
         + Percentage(lines[1..], code)
  }

  /** The rate sum splits over a concatenation of line lists. */
  lemma {:induction false} PercentageAppend(a: seq<PayslipLine>, b: seq<PayslipLine>, code: string)
    ensures Percentage(a + b, code) == Percentage(a, code) + Percentage(b, code)
  {
    if a == [] {
      assert a + b == b;
    } else {
      assert (a + b)[0] == a[0];
      assert (a + b)[1..] == a[1..] + b;
      PercentageAppend(a[1..], b, code);
    }
  }

  /** Lines whose category code is one of `categories`, summed by total (signed). */
  function CategoryTotal(lines: seq<PayslipLine>, categories: seq<string>): (r: real)
    ensures (forall l | l in lines :: l.category !in categories) ==> r == 0.0
    ensures (forall l | l in lines :: 0.0 <= l.total) ==> 0.0 <= r
  {
    if lines == [] then 0.0
    else (if lines[0].category in categories then lines[0].total else 0.0)
         + CategoryTotal(lines[1..], categories)
  }

  lemma {:induction false} CategoryTotalAppend(a: seq<PayslipLine>, b: seq<PayslipLine>, categories: seq<string>)
    ensures CategoryTotal(a + b, categories) == CategoryTotal(a, categories) + CategoryTotal(b, categories)
  {
    if a == [] {
      assert a + b == b;
    } else {
      assert (a + b)[0] == a[0];
      assert (a + b)[1..] == a[1..] + b;
      CategoryTotalAppend(a[1..], b, categories);
    }
  }

  /** `code in payslip.line_ids.mapped("code")`: list membership, not a substring test. */
  predicate HasLineCode(lines: seq<PayslipLine>, code: string)
  {
    exists i | 0 <= i < |lines| :: lines[i].code == code
  }

  /** The lines with `code`, in order. */
  function LinesWithCode(lines: seq<PayslipLine>, code: string): (r: seq<PayslipLine>)
    ensures |r| <= |lines|
    ensures forall l :: l in r <==> l in lines && l.code == code
  {
    if lines == [] then []
    else (if lines[0].code == code then [lines[0]] else []) + LinesWithCode(lines[1..], code)
  }

  /**
   * `lines.filtered(code == c).amount`: reading a field of a filtered recordset gives False
   * (here 0) when it is empty, the value of its one record, and fails on several records.
   */
  function SingletonAmount(lines: seq<PayslipLine>, code: string): (r: Result<real>)
    ensures r.Err? <==> 1 < |LinesWithCode(lines, code)|
    ensures r.Err? ==> r.error == ExpectedSingleton(code)
    ensures r.Ok? && (forall i | 0 <= i < |lines| :: lines[i].code != code) ==> r.value == 0.0
    ensures |LinesWithCode(lines, code)| == 1 ==> r == Ok(LinesWithCode(lines, code)[0].amount)
  {
    var m := LinesWithCode(lines, code);
    if |m| == 0 then
      Ok(0.0)
    else if |m| == 1 then
      Ok(m[0].amount)
    else
      Err(ExpectedSingleton(code))
  }

  // ---------------------------------------------------------- worked days

  function WorkedDaysWithCode(ws: seq<WorkedDaysLine>, code: string): (r: seq<WorkedDaysLine>)
    ensures |r| <= |ws|
    ensures forall w :: w in r <==> w in ws && w.code == code
  {
    if ws == [] then []
    else (if ws[0].code == code then [ws[0]] else []) + WorkedDaysWithCode(ws[1..], code)
  }

  const WorkCode := "WORK100"

  /**
   * `_get_number_of_worked_days`: the absolute days of the payslip's single WORK100 line,
   * 0 without one; several such lines make the field read fail.
   */
  function WorkedDays(p: Payslip): (r: Result<real>)
    ensures r.Err? <==> 1 < |WorkedDaysWithCode(p.workedDays, WorkCode)|
    ensures r.Err? ==> r.error == ExpectedSingleton(WorkCode)
    ensures r.Ok? ==> 0.0 <= r.value
    ensures r.Ok? && 0.0 < r.value ==> exists w :: w in p.workedDays && w.code == WorkCode && Abs(w.days) == r.value
    ensures |WorkedDaysWithCode(p.workedDays, WorkCode)| == 0 ==> r == Ok(0.0)
    ensures |WorkedDaysWithCode(p.workedDays, WorkCode)| == 1 ==>
              r == Ok(Abs(WorkedDaysWithCode(p.workedDays, WorkCode)[0].days))
  {
    var m := WorkedDaysWithCode(p.workedDays, WorkCode);
    if |m| == 0 then
      Ok(0.0)
    else if |m| == 1 then
      assert m[0] in m;
      Ok(Abs(m[0].days))
    else
      Err(ExpectedSingleton(WorkCode))
  }

  /** `_get_hours_for_worked_days_with_codes`: total hours of the worked-day lines with a code in `codes`. */
  function Hours(ws: seq<WorkedDaysLine>, codes: seq<string>): (r: real)
    ensures (forall w | w in ws :: w.code !in codes) ==> r == 0.0
    ensures (forall w | w in ws :: 0.0 <= w.hours) ==> 0.0 <= r
  {
    if ws == [] then 0.0
    else (if ws[0].code in codes then ws[0].hours else 0.0) + Hours(ws[1..], codes)
  }

  lemma {:induction false} HoursAppend(a: seq<WorkedDaysLine>, b: seq<WorkedDaysLine>, codes: seq<string>)
    ensures Hours(a + b, codes) == Hours(a, codes) + Hours(b, codes)
  {
    if a == [] {
      assert a + b == b;
    } else {
      assert (a + b)[0] == a[0];
      assert (a + b)[1..] == a[1..] + b;
      HoursAppend(a[1..], b, codes);
    }
  }

  // ------------------------------------------------- occupational risk (ARL)

  const RiskClasses: set<string> := {"0", "I", "II", "III", "IV", "V"}

  const RiskClassRate: map<string, real> :=
    map["0" := 0.0, "I" := 0.00522, "II" := 0.01044, "III" := 0.02436, "IV" := 0.0435, "V" := 0.0696]

  const RiskClassNumber: map<string, string> :=
    map["0" := " ", "I" := "1", "II" := "2", "III" := "3", "IV" := "4", "V" := "5"]

  /** Work centres; classes 0, II and IV are 0 in the regulation table as the code has it. */
  const RiskClassWorkCenter: map<string, int> :=
    map["0" := 0, "I" := 2, "II" := 0, "III" := 1, "IV" := 0, "V" := 5]

  /** `_get_arl_value`: the risk rate; an unknown class is a lookup error. */
  function RiskRate(riskClass: string): (r: Result<real>)
    ensures r.Ok? <==> riskClass in RiskClasses
    ensures r.Err? ==> r.error == UnknownRiskClass(riskClass)
    ensures r.Ok? ==> 0.0 <= r.value < 0.1
  {
    if riskClass in RiskClassRate then Ok(RiskClassRate[riskClass]) else Err(UnknownRiskClass(riskClass))
  }

  /** `_get_arl_number`: the one-character class number, a space for class 0. */
  function RiskNumber(riskClass: string): (r: Result<string>)
    ensures r.Ok? <==> riskClass in RiskClasses
    ensures r.Err? ==> r.error == UnknownRiskClass(riskClass)
    ensures r.Ok? ==> |r.value| == 1
  {
    if riskClass in RiskClassNumber then Ok(RiskClassNumber[riskClass]) else Err(UnknownRiskClass(riskClass))
  }

  /** `_get_work_center`. */
  function WorkCenter(riskClass: string): (r: Result<int>)
    ensures r.Ok? <==> riskClass in RiskClasses
    ensures r.Err? ==> r.error == UnknownRiskClass(riskClass)
    ensures r.Ok? ==> 0 <= r.value <= 5
  {
    if riskClass in RiskClassWorkCenter then Ok(RiskClassWorkCenter[riskClass])
    else Err(UnknownRiskClass(riskClass))
  }

  lemma RiskTableExamples()
    ensures RiskRate("III") == Ok(0.02436) && RiskNumber("III") == Ok("3") && WorkCenter("III") == Ok(1)
    ensures RiskNumber("0") == Ok(" ") && RiskRate("0") == Ok(0.0)
    ensures RiskRate("VI").Err? && RiskRate("").Err?
  {
  }

  // --------------------------------------------------------------- leaves

  /** `any(codes)`: the code condition applies only when some code is given. */
  predicate CodeFilterActive(codes: seq<string>)
  {
    exists i | 0 <= i < |codes| :: codes[i] != ""
  }

  /**
   * The search domain of `_get_leaves`: the employee's validated leaves starting inside the
   * payroll period, of a type with a code in `codes` (when any is given) and of the given
   * leave type (when one is given).
   */
  predicate LeaveMatches(l: Leave, employeeId: int, period: Period, leaveTypeId: Option<int>, codes: seq<string>)
  {
    && l.employeeId == employeeId
    && l.state == "validate"
    && InPeriod(l.dateFrom, period)
    && (CodeFilterActive(codes) ==> l.leaveType.code in codes)
    && (leaveTypeId.Some? ==> l.leaveType.id == leaveTypeId.value)
  }

  /** `_get_leaves` over a given list of leaves: the matching ones, in list order. */
  function GetLeaves(leaves: seq<Leave>, employeeId: int, period: Period, leaveTypeId: Option<int>, codes: seq<string>)
    : (r: seq<Leave>)
    ensures |r| <= |leaves|
    ensures forall l :: l in r <==> l in leaves && LeaveMatches(l, employeeId, period, leaveTypeId, codes)
  {
    if leaves == [] then []
    else (if LeaveMatches(leaves[0], employeeId, period, leaveTypeId, codes) then [leaves[0]] else [])
         + GetLeaves(leaves[1..], employeeId, period, leaveTypeId, codes)
  }

  /** The filter keeps the order of the list it filters: it commutes with concatenation. */
  lemma {:induction false} GetLeavesAppend(
    a: seq<Leave>, b: seq<Leave>, employeeId: int, period: Period, leaveTypeId: Option<int>, codes: seq<string>)
    ensures GetLeaves(a + b, employeeId, period, leaveTypeId, codes)
            == GetLeaves(a, employeeId, period, leaveTypeId, codes) + GetLeaves(b, employeeId, period, leaveTypeId, codes)
  {
    if a == [] {
      assert a + b == b;
    } else {
      assert (a + b)[0] == a[0];
      assert (a + b)[1..] == a[1..] + b;
      GetLeavesAppend(a[1..], b, employeeId, period, leaveTypeId, codes);
    }
  }

  /** The first leave the filter keeps is the first matching leave of the list. */
  lemma {:induction false} GetLeavesFirst(
    leaves: seq<Leave>, employeeId: int, period: Period, leaveTypeId: Option<int>, codes: seq<string>)
    requires GetLeaves(leaves, employeeId, period, leaveTypeId, codes) != []
    ensures exists k | 0 <= k < |leaves| ::
              && GetLeaves(leaves, employeeId, period, leaveTypeId, codes)[0] == leaves[k]
              && LeaveMatches(leaves[k], employeeId, period, leaveTypeId, codes)
              && forall j | 0 <= j < k :: !LeaveMatches(leaves[j], employeeId, period, leaveTypeId, codes)
  {
    var first := GetLeaves(leaves, employeeId, period, leaveTypeId, codes)[0];
    if LeaveMatches(leaves[0], employeeId, period, leaveTypeId, codes) {
      assert first == leaves[0];
    } else {
      var rest := leaves[1..];
      assert GetLeaves(leaves, employeeId, period, leaveTypeId, codes) == GetLeaves(rest, employeeId, period, leaveTypeId, codes);
      GetLeavesFirst(rest, employeeId, period, leaveTypeId, codes);
      var k :| 0 <= k < |rest| && first == rest[k]
               && LeaveMatches(rest[k], employeeId, period, leaveTypeId, codes)
               && forall j | 0 <= j < k :: !LeaveMatches(rest[j], employeeId, period, leaveTypeId, codes);
      forall j | 0 <= j < k + 1
        ensures !LeaveMatches(leaves[j], employeeId, period, leaveTypeId, codes)
      {
        if 0 < j {
          assert leaves[j] == rest[j - 1];
        }
      }
      assert first == leaves[k + 1];
    }
  }

  /** `_get_leaves_needing_separate_lines`: the leave types that get a detail line of their own. */
  const SeparateLineCodes: seq<string> := ["VAC", "LR", "IGE", "LMA", "SLN", "IRP", "RET"]

  function SeparateLineLeaves(leaves: seq<Leave>, employeeId: int, period: Period): (r: seq<Leave>)
    ensures forall l :: l in r <==>
              l in leaves && l.employeeId == employeeId && l.state == "validate"
              && InPeriod(l.dateFrom, period) && l.leaveType.code in SeparateLineCodes
  {
    assert CodeFilterActive(SeparateLineCodes) by { assert SeparateLineCodes[0] != ""; }
    GetLeaves(leaves, employeeId, period, None, SeparateLineCodes)
  }

  /** Sum of the absolute days of the given leaves. */
  function TotalDays(leaves: seq<Leave>): (r: real)
    ensures 0.0 <= r
    ensures forall l | l in leaves :: Abs(l.days) <= r
  {
    if leaves == [] then 0.0 else Abs(leaves[0].days) + TotalDays(leaves[1..])
  }

  // ------------------------------------------------------------ substrings

  /** Python's `sub in s` on strings: `sub` occurs in `s` at some position. */
  predicate Contains(s: string, sub: string)
  {
    exists i | 0 <= i <= |s| - |sub| :: OccursAt(s, sub, i)
  }

  predicate OccursAt(s: string, sub: string, i: nat)
  {
    i + |sub| <= |s| && s[i..i + |sub|] == sub
  }

  /** An occurrence of a needle is an occurrence of each of its prefixes. */
  lemma ContainsPrefix(s: string, sub: string, k: nat)
    requires k <= |sub| && Contains(s, sub)
    ensures Contains(s, sub[..k])
  {
    var i :| 0 <= i <= |s| - |sub| && OccursAt(s, sub, i);
    assert s[i..i + k] == sub[..k];
    assert OccursAt(s, sub[..k], i);
  }

  /** The structure tags nest: APR_EL implies APR_E, and APR_E implies APR. */
  lemma ApprenticeTagsNest(s: string)
    ensures Contains(s, "APR_EL") ==> Contains(s, "APR_E")
    ensures Contains(s, "APR_E") ==> Contains(s, "APR")
  {
    if Contains(s, "APR_EL") {
      ContainsPrefix(s, "APR_EL", 5);
      assert "APR_EL"[..5] == "APR_E";
    }
    if Contains(s, "APR_E") {
      ContainsPrefix(s, "APR_E", 3);
      assert "APR_E"[..3] == "APR";
    }
  }

  lemma ContainsItself(s: string)
    ensures Contains(s, s)
  {
    assert s[0..|s|] == s;
    assert OccursAt(s, s, 0);
  }
}
