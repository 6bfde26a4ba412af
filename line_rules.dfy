/**
 * The value of every computed field of a detail line, as a function of what the line builder
 * reads. Each function is one gating rule of the line builder; `LineError` is the first
 * error the builder runs into, and `AllFit` says when every numeric field fits its width.
 */
module LineRules {

  import opened Results
  import opened Formats
  import opened Payroll

  /** What one call of the line builder reads: the wizard, the leave table, the payslip and the leave (if any). */
  datatype LineInput = LineInput(wizard: Wizard, leaves: seq<Leave>, payslip: Payslip, leave: Option<Leave>)

  function ContractOf(inp: LineInput): Contract
  {
    inp.payslip.employee.contract
  }

  function StructOf(inp: LineInput): string
  {
    ContractOf(inp).structCode
  }

  /** `_get_leaves(employee, codes=codes)` for the line's employee. */
  function EmployeeLeaves(inp: LineInput, codes: seq<string>): seq<Leave>
  {
    GetLeaves(inp.leaves, inp.payslip.employee.id, PayslipPeriod(inp.wizard), None, codes)
  }

  /** The employee has some leave of type `code` in the period (the truth value of a search). */
  predicate HasLeave(inp: LineInput, code: string)
  {
    EmployeeLeaves(inp, [code]) != []
  }

  /** `leave` is one the search for the employee's leaves of type `code` finds. */
  predicate Matches(inp: LineInput, leave: Leave, code: string)
  {
    LeaveMatches(leave, inp.payslip.employee.id, PayslipPeriod(inp.wizard), None, [code])
  }

  /** The search is non-empty exactly when some leave of the table matches it. */
  lemma HasLeaveMatches(inp: LineInput, code: string)
    ensures HasLeave(inp, code) <==> exists l | l in inp.leaves :: Matches(inp, l, code)
  {
    if HasLeave(inp, code) {
      assert EmployeeLeaves(inp, [code])[0] in EmployeeLeaves(inp, [code]);
    }
  }

  predicate LeaveIs(inp: LineInput, code: string)
  {
    inp.leave.Some? && inp.leave.value.leaveType.code == code
  }

  predicate LeaveAmong(inp: LineInput, codes: seq<string>)
  {
    inp.leave.Some? && inp.leave.value.leaveType.code in codes
  }

  /** `_find_start_first_leave`: the start of the employee's first leave of type `code`. */
  function FirstLeaveStart(inp: LineInput, code: string): (r: Option<Date>)
    requires code != ""
    ensures r.None? <==> forall l | l in inp.leaves :: !Matches(inp, l, code)
    ensures r.Some? ==> exists k | 0 <= k < |inp.leaves| ::
              && Matches(inp, inp.leaves[k], code) && inp.leaves[k].dateFrom == r.value
              && forall j | 0 <= j < k :: !Matches(inp, inp.leaves[j], code)
  {
    var found := EmployeeLeaves(inp, [code]);
    if found == [] then None
    else
      GetLeavesFirst(inp.leaves, inp.payslip.employee.id, PayslipPeriod(inp.wizard), None, [code]);
      Some(found[0].dateFrom)
  }

  /** `_find_end_first_leave`: the end of the employee's first leave of type `code`. */
  function FirstLeaveEnd(inp: LineInput, code: string): (r: Option<Date>)
    requires code != ""
    ensures r.None? <==> forall l | l in inp.leaves :: !Matches(inp, l, code)
    ensures r.Some? ==> exists k | 0 <= k < |inp.leaves| ::
              && Matches(inp, inp.leaves[k], code) && inp.leaves[k].dateTo == r.value
              && forall j | 0 <= j < k :: !Matches(inp, inp.leaves[j], code)
  {
    var found := EmployeeLeaves(inp, [code]);
    if found == [] then None
    else
      GetLeavesFirst(inp.leaves, inp.payslip.employee.id, PayslipPeriod(inp.wizard), None, [code]);
      Some(found[0].dateTo)
  }

  // ------------------------------------------------------------ flags

  function Flag(b: bool): char
  {
    if b then 'X' else ' '
  }

  /** Field 7: foreigner's identity documents. */
  predicate ForeignDocument(documentCode: string)
  {
    documentCode in ["CE", "PA", "CD"]
  }

  /** Field 15: the contract starts inside the payroll period. */
  predicate ContractStartsInPeriod(inp: LineInput)
  {
    InPeriod(ContractOf(inp).dateStart, PayslipPeriod(inp.wizard))
  }

  /** Field 16: the contract has an end date, inside the payroll period. */
  predicate ContractEndsInPeriod(inp: LineInput)
  {
    ContractOf(inp).dateEnd.Some? && InPeriod(ContractOf(inp).dateEnd.value, PayslipPeriod(inp.wizard))
  }

  /** Field 23: marked only on a normal line of a non-integral, non-apprentice salary that differs from IBC_L. */
  function SalaryVariationFlag(inp: LineInput): (c: char)
    ensures c == 'X' || c == ' '
    ensures c == 'X' <==>
              inp.leave.None? && LineTotal(inp.payslip.lines, "IBC_L") != ContractOf(inp).wage
              && !Contains(StructOf(inp), "SAL_INT") && !Contains(StructOf(inp), "APR")
  {
    if inp.leave.Some? || LineTotal(inp.payslip.lines, "IBC_L") == ContractOf(inp).wage
       || Contains(StructOf(inp), "SAL_INT") || Contains(StructOf(inp), "APR")
    then ' ' else 'X'
  }

  /**
   * Fields 15-22: the contract starts (15) or ends (16) inside the period, the employee has a
   * TDE, TAE, TDP, TAP or VSP leave there (17-21), and the empty field 22.
   */
  function EntryFlags(inp: LineInput): (r: string)
    ensures |r| == 8 && r[7] == ' '
    ensures r[0] == 'X' <==> ContractStartsInPeriod(inp)
    ensures r[1] == 'X' <==> ContractEndsInPeriod(inp)
    ensures r[2] == 'X' <==> HasLeave(inp, "TDE")
    ensures r[3] == 'X' <==> HasLeave(inp, "TAE")
    ensures r[4] == 'X' <==> HasLeave(inp, "TDP")
    ensures r[5] == 'X' <==> HasLeave(inp, "TAP")
    ensures r[6] == 'X' <==> HasLeave(inp, "VSP")
  {
    [ Flag(ContractStartsInPeriod(inp)), Flag(ContractEndsInPeriod(inp)),
      Flag(HasLeave(inp, "TDE")), Flag(HasLeave(inp, "TAE")), Flag(HasLeave(inp, "TDP")),
      Flag(HasLeave(inp, "TAP")), Flag(HasLeave(inp, "VSP")), ' ' ]
  }

  /** Fields 24-26: the line's leave is of type `code` and the employee has such a leave. */
  function NoveltyFlag(inp: LineInput, code: string): (c: char)
    ensures c == 'X' || c == ' '
    ensures c == 'X' <==> LeaveIs(inp, code) && exists l | l in inp.leaves :: Matches(inp, l, code)
  {
    HasLeaveMatches(inp, code);
    Flag(LeaveIs(inp, code) && HasLeave(inp, code))
  }

  /** Field 27: `X` for vacation, `L` for paid leave (LR). */
  function VacationFlag(inp: LineInput): (c: char)
    ensures c == 'X' || c == 'L' || c == ' '
    ensures c == 'X' <==> LeaveIs(inp, "VAC") && exists l | l in inp.leaves :: Matches(inp, l, "VAC")
    ensures c == 'L' <==> LeaveIs(inp, "LR") && exists l | l in inp.leaves :: Matches(inp, l, "LR")
  {
    HasLeaveMatches(inp, "VAC");
    HasLeaveMatches(inp, "LR");
    if LeaveIs(inp, "VAC") && HasLeave(inp, "VAC") then 'X'
    else if LeaveIs(inp, "LR") && HasLeave(inp, "LR") then 'L'
    else ' '
  }

  /** Fields 24-27 in file order: the SLN, IGE and LMA flags and the vacation flag. */
  function LeaveFlags(inp: LineInput): string
  {
    [NoveltyFlag(inp, "SLN"), NoveltyFlag(inp, "IGE"), NoveltyFlag(inp, "LMA"), VacationFlag(inp)]
  }

  /** Field 41: integral salary, recognised by the exact structure code. */
  function IntegralSalaryFlag(inp: LineInput): (c: char)
    ensures c == 'X' <==> StructOf(inp) == "SAL_INT"
  {
    Flag(StructOf(inp) == "SAL_INT")
  }

  // ------------------------------------------------------------- days

  /** Field 30: days of an IRP leave, 0 on other lines. */
  function IrpDays(inp: LineInput): (r: real)
    ensures 0.0 <= r
    ensures !LeaveIs(inp, "IRP") ==> r == 0.0
    ensures LeaveIs(inp, "IRP") ==> r == Abs(inp.leave.value.days)
  {
    if LeaveIs(inp, "IRP") then Abs(inp.leave.value.days) else 0.0
  }

  /** The day count behind fields 36-39: worked days on a normal line, the leave's days otherwise. */
  function LineDays(inp: LineInput): (r: Result<real>)
    ensures r.Ok? ==> 0.0 <= r.value
    ensures inp.leave.Some? ==> r == Ok(Abs(inp.leave.value.days))
    ensures inp.leave.None? ==> r == WorkedDays(inp.payslip)
  {
    if inp.leave.None? then WorkedDays(inp.payslip) else Ok(Abs(inp.leave.value.days))
  }

  predicate SplitQuotient(c: Contract)
  {
    c.quotientSubtype in ["01", "02"]
  }

  /** Fields 36 and 42 (pension): zero for quotient subtypes 01/02 and for APR_E structures. */
  function PensionPart(inp: LineInput, v: real): (r: real)
    ensures r == 0.0 || r == v
    ensures r == v <== !SplitQuotient(ContractOf(inp)) && !Contains(StructOf(inp), "APR_E")
    ensures r == 0.0 <== SplitQuotient(ContractOf(inp)) || Contains(StructOf(inp), "APR_E")
  {
    if SplitQuotient(ContractOf(inp)) then 0.0
    else if Contains(StructOf(inp), "APR_E") then 0.0
    else v
  }

  /** Fields 38 and 44 (occupational risk): zero for APR_EL structures. */
  function RiskPart(inp: LineInput, v: real): real
  {
    if Contains(StructOf(inp), "APR_EL") then 0.0 else v
  }

  /** Field 39 (family compensation days): zero for APR_E structures. */
  function CcfDaysPart(inp: LineInput, v: real): real
  {
    if Contains(StructOf(inp), "APR_E") then 0.0 else v
  }

  // ------------------------------------------------------------ bases

  /** The employee's leaves of the same leave type as the line's, with no code condition. */
  function SameTypeLeaves(inp: LineInput): seq<Leave>
    requires inp.leave.Some?
  {
    GetLeaves(inp.leaves, inp.payslip.employee.id, PayslipPeriod(inp.wizard), Some(inp.leave.value.leaveType.id), [])
  }

  /** The sum of `_get_line_total` over salary-rule codes. */
  function RuleTotal(lines: seq<PayslipLine>, codes: seq<string>): (r: real)
    ensures 0.0 <= r
    ensures forall i | 0 <= i < |codes| :: LineTotal(lines, codes[i]) <= r
  {
    if codes == [] then 0.0 else LineTotal(lines, codes[0]) + RuleTotal(lines, codes[1..])
  }

  /** The base a leave line contributes on before pro-rating: IBC_AUT_VACA for VAC, else its rule codes. */
  function FullLeaveBase(inp: LineInput): (r: real)
    requires inp.leave.Some?
    ensures 0.0 <= r
    ensures inp.leave.value.leaveType.code == "VAC" ==> r == LineTotal(inp.payslip.lines, "IBC_AUT_VACA")
    ensures inp.leave.value.leaveType.code != "VAC" ==>
              r == RuleTotal(inp.payslip.lines, inp.leave.value.leaveType.salaryRuleCodes)
  {
    if inp.leave.value.leaveType.code == "VAC" then LineTotal(inp.payslip.lines, "IBC_AUT_VACA")
    else RuleTotal(inp.payslip.lines, inp.leave.value.leaveType.salaryRuleCodes)
  }

  /**
   * The leave base: the full base pro-rated by the leave's share of the days of its type.
   * A non-VAC type without salary rules is an error, checked before dividing; dividing by
   * zero days is one too.
   */
  function LeaveBase(inp: LineInput): (r: Result<real>)
    requires inp.leave.Some?
    ensures var t := inp.leave.value.leaveType;
            r.Err? <==> (t.code != "VAC" && t.salaryRuleCodes == []) || TotalDays(SameTypeLeaves(inp)) == 0.0
    ensures var t := inp.leave.value.leaveType;
            t.code != "VAC" && t.salaryRuleCodes == [] ==> r == Err(MissingSalaryRules(t.id))
    ensures r.Err? && r.error != DivisionByZero ==> r.error == MissingSalaryRules(inp.leave.value.leaveType.id)
    ensures r.Ok? ==> 0.0 <= r.value
    ensures r.Ok? && inp.leave.value in SameTypeLeaves(inp) ==> r.value <= FullLeaveBase(inp)
  {
    var l := inp.leave.value;
    var total := TotalDays(SameTypeLeaves(inp));
    if l.leaveType.code != "VAC" && l.leaveType.salaryRuleCodes == [] then
      Err(MissingSalaryRules(l.leaveType.id))
    else if total == 0.0 then
      Err(DivisionByZero)
    else
      Ok(ProRate(FullLeaveBase(inp), Abs(l.days), total))
  }

  /**
   * A leave base that is not an error is the full base pro-rated by the leave's days out
   * of the total days of its type; by `ProRate`, it times that total equals the full base
   * times the leave's days, as in the two pro-rating products of the source.
   */
  lemma LeaveBaseShare(inp: LineInput)
    requires inp.leave.Some?
    ensures LeaveBase(inp).Ok? ==>
              && 0.0 < TotalDays(SameTypeLeaves(inp))
              && LeaveBase(inp)
                 == Ok(ProRate(FullLeaveBase(inp), Abs(inp.leave.value.days), TotalDays(SameTypeLeaves(inp))))
  {
  }

  /** The pro-rated shares of `base` of every leave in `leaves`, out of `total` days. */
  function Shares(base: real, leaves: seq<Leave>, total: real): (r: real)
    requires 0.0 <= base && 0.0 < total
    ensures 0.0 <= r
  {
    if leaves == [] then 0.0
    else ProRate(base, Abs(leaves[0].days), total) + Shares(base, leaves[1..], total)
  }

  /** Pro-rating is additive in the days: two shares of one base add up to the share of their days. */
  lemma ProRateAdd(base: real, d: real, e: real, total: real)
    requires 0.0 <= base && 0.0 <= d && 0.0 <= e && 0.0 < total
    ensures ProRate(base, d, total) + ProRate(base, e, total) == ProRate(base, d + e, total)
  {
    assert d / total + e / total == (d + e) / total;
    Distribute(d / total, e / total, base);
  }

  lemma Distribute(a: real, b: real, c: real)
    ensures c * (a + b) == c * a + c * b
  {
  }

  /** The shares of a list of leaves are the share of their total days. */
  lemma {:induction false} SharesProRate(base: real, leaves: seq<Leave>, total: real)
    requires 0.0 <= base && 0.0 < total
    ensures Shares(base, leaves, total) == ProRate(base, TotalDays(leaves), total)
  {
    if leaves != [] {
      SharesProRate(base, leaves[1..], total);
      assert Shares(base, leaves, total)
             == ProRate(base, Abs(leaves[0].days), total) + Shares(base, leaves[1..], total);
      assert TotalDays(leaves) == Abs(leaves[0].days) + TotalDays(leaves[1..]);
      ProRateAdd(base, Abs(leaves[0].days), TotalDays(leaves[1..]), total);
    }
  }

  /**
   * Pro-rating every leave of a type by its days out of the type's total days splits the
   * full base exactly: the shares of all the leaves add up to the base.
   */
  lemma SharesSum(base: real, leaves: seq<Leave>)
    requires 0.0 <= base && 0.0 < TotalDays(leaves)
    ensures Shares(base, leaves, TotalDays(leaves)) == base
  {
    var total := TotalDays(leaves);
    SharesProRate(base, leaves, total);
    ProRateWhole(base, total);
  }

  lemma ProRateWhole(base: real, total: real)
    requires 0.0 <= base && 0.0 < total
    ensures ProRate(base, total, total) == base
  {
    assert total / total == 1.0;
  }

  /** `base * (days / total)`: a share of `base` in proportion to `days` out of `total`. */
  function ProRate(base: real, days: real, total: real): (r: real)
    requires 0.0 <= base && 0.0 <= days && 0.0 < total
    ensures 0.0 <= r
    ensures days <= total ==> r <= base
    ensures r * total == base * days
  {
    assert 0.0 <= days / total;
    assert days <= total ==> days / total <= 1.0;
    assert (days / total) * total == days;
    base * (days / total)
  }

  /** The base of fields 42-44: IBC_AUT on a normal line, the leave base on a leave line. */
  function IbcTotal(inp: LineInput): (r: Result<real>)
    ensures r.Ok? ==> 0.0 <= r.value
    ensures inp.leave.None? ==> r == Ok(LineTotal(inp.payslip.lines, "IBC_AUT"))
    ensures inp.leave.Some? ==> r == LeaveBase(inp)
  {
    if inp.leave.None? then Ok(LineTotal(inp.payslip.lines, "IBC_AUT")) else LeaveBase(inp)
  }

  const CcfCategories: seq<string> := ["ING", "HOR", "MAYVAL"]

  /**
   * Field 45, the family-compensation base (`ibc_ccf`): GROSS_70 for an integral salary,
   * else the income categories ING, HOR and MAYVAL; on a leave line, the leave base.
   */
  function IbcCcf(inp: LineInput): (r: Result<real>)
    ensures inp.leave.Some? ==> r == IbcTotal(inp)
    ensures inp.leave.None? && StructOf(inp) == "SAL_INT" ==> r == Ok(LineTotal(inp.payslip.lines, "GROSS_70"))
    ensures inp.leave.None? && StructOf(inp) != "SAL_INT" ==> r == Ok(CategoryTotal(inp.payslip.lines, CcfCategories))
  {
    if inp.leave.Some? then LeaveBase(inp)
    else if StructOf(inp) == "SAL_INT" then Ok(LineTotal(inp.payslip.lines, "GROSS_70"))
    else Ok(CategoryTotal(inp.payslip.lines, CcfCategories))
  }

  // ------------------------------------------------------- contributions

  function PensionRate(p: Payslip): real
  {
    Percentage(p.lines, "201") + Percentage(p.lines, "AP_PENSION")
  }

  function HealthRate(p: Payslip): real
  {
    Percentage(p.lines, "200") + Percentage(p.lines, "AP_SAL")
  }

  function CcfRate(p: Payslip): real
  {
    Percentage(p.lines, "APORTE_CAJA_COMP")
  }

  function SenaRate(p: Payslip): real
  {
    Percentage(p.lines, "AP_SENA")
  }

  function IcbfRate(p: Payslip): real
  {
    Percentage(p.lines, "AP_ICFB")
  }

  /** A vacation line of a payslip that also pays LVACA: fields 47, 50 and 55 are zero there. */
  predicate VacationWithLvaca(inp: LineInput)
  {
    LeaveIs(inp, "VAC") && HasLineCode(inp.payslip.lines, "LVACA")
  }

  /** Field 47 (and field 50, its sum with two zero fields): pension contribution. */
  function PensionAmount(inp: LineInput, ibcTotal: real): (r: int)
    ensures VacationWithLvaca(inp) ==> r == 0
    ensures !VacationWithLvaca(inp) ==>
              r % 100 == 0 && ibcTotal * PensionRate(inp.payslip) <= r as real < ibcTotal * PensionRate(inp.payslip) + 100.0
  {
    if VacationWithLvaca(inp) then 0 else RoundToNearest(ibcTotal * PensionRate(inp.payslip), 100)
  }

  /** Field 55: health contribution. */
  function HealthAmount(inp: LineInput, ibcTotal: real): (r: int)
    ensures VacationWithLvaca(inp) ==> r == 0
    ensures !VacationWithLvaca(inp) ==>
              r % 100 == 0 && ibcTotal * HealthRate(inp.payslip) <= r as real < ibcTotal * HealthRate(inp.payslip) + 100.0
  {
    if VacationWithLvaca(inp) then 0 else RoundToNearest(ibcTotal * HealthRate(inp.payslip), 100)
  }

  /**
   * Fields 51 and 52: the solidarity-fund contributions, the totals of the lines
   * `aut_solidaridad_sol` and `aut_solidaridad_subs` rounded up to a multiple of 100.
   */
  function FundAmount(p: Payslip, code: string): (r: int)
    ensures 0 <= r && r % 100 == 0
    ensures LineTotal(p.lines, code) <= r as real < LineTotal(p.lines, code) + 100.0
  {
    RoundToNearest(LineTotal(p.lines, code), 100)
  }

  /** Field 61: the risk rate of the contract's class, written as zero on every leave line. */
  function RiskRateField(inp: LineInput, rate: real): (r: real)
    ensures inp.leave.Some? ==> r == 0.0
    ensures inp.leave.None? ==> r == rate
  {
    if inp.leave.None? then rate else 0.0
  }

  /** Field 63: the risk contribution, zero on every leave line. */
  function RiskAmount(inp: LineInput, ibcTotal: real, rate: real): (r: int)
    ensures inp.leave.Some? ==> r == 0
    ensures inp.leave.None? ==> r == RoundToNearest(ibcTotal * rate, 100)
  {
    if inp.leave.None? then RoundToNearest(ibcTotal * rate, 100) else 0
  }

  /** The lines that keep their family-compensation rate and their SENA and ICBF contributions. */
  predicate KeepsParafiscal(inp: LineInput)
  {
    inp.leave.None? || LeaveAmong(inp, ["VAC", "LR"])
  }

  const CcfExemptLeaves: seq<string> := ["IGE", "LMA", "SLN", "IRP"]

  /** Field 64: the family-compensation rate, zero on leave lines other than VAC and LR. */
  function CcfRateField(inp: LineInput): (r: real)
    ensures !KeepsParafiscal(inp) ==> r == 0.0
    ensures KeepsParafiscal(inp) ==> r == CcfRate(inp.payslip)
  {
    if KeepsParafiscal(inp) then CcfRate(inp.payslip) else 0.0
  }

  /** Field 65: the family-compensation contribution, zero only on IGE, LMA, SLN and IRP lines. */
  function CcfAmount(inp: LineInput, ibcCcf: real): (r: int)
    ensures LeaveAmong(inp, CcfExemptLeaves) ==> r == 0
    ensures !LeaveAmong(inp, CcfExemptLeaves) ==> r == RoundToNearest(ibcCcf * CcfRate(inp.payslip), 100)
  {
    if LeaveAmong(inp, CcfExemptLeaves) then 0 else RoundToNearest(ibcCcf * CcfRate(inp.payslip), 100)
  }

  /** Fields 66 and 67: SENA rate and contribution. */
  function SenaRateField(inp: LineInput): (r: real)
    ensures !KeepsParafiscal(inp) ==> r == 0.0
    ensures KeepsParafiscal(inp) ==> r == SenaRate(inp.payslip)
  {
    if KeepsParafiscal(inp) then SenaRate(inp.payslip) else 0.0
  }

  function SenaAmount(inp: LineInput, ibcCcf: real): (r: int)
    ensures !KeepsParafiscal(inp) ==> r == 0
    ensures KeepsParafiscal(inp) ==> r == RoundToNearest(ibcCcf * SenaRate(inp.payslip), 100)
  {
    if KeepsParafiscal(inp) then RoundToNearest(ibcCcf * SenaRate(inp.payslip), 100) else 0
  }

  /** Fields 68 and 69: ICBF rate and contribution. */
  function IcbfRateField(inp: LineInput): (r: real)
    ensures !KeepsParafiscal(inp) ==> r == 0.0
    ensures KeepsParafiscal(inp) ==> r == IcbfRate(inp.payslip)
  {
    if KeepsParafiscal(inp) then IcbfRate(inp.payslip) else 0.0
  }

  function IcbfAmount(inp: LineInput, ibcCcf: real): (r: int)
    ensures !KeepsParafiscal(inp) ==> r == 0
    ensures KeepsParafiscal(inp) ==> r == RoundToNearest(ibcCcf * IcbfRate(inp.payslip), 100)
  {
    if KeepsParafiscal(inp) then RoundToNearest(ibcCcf * IcbfRate(inp.payslip), 100) else 0
  }

  /**
   * Field 76: `N` when the employee's contribution condition exceeds ten minimum wages or the
   * salary is integral or an apprenticeship, `S` otherwise. Both amounts are read as single
   * records, COND_APORT_EMP first.
   */
  function ExemptionFlag(inp: LineInput): (r: Result<char>)
    ensures r.Err? <==> SingletonAmount(inp.payslip.lines, "COND_APORT_EMP").Err?
                        || SingletonAmount(inp.payslip.lines, "SMLMV_10").Err?
    ensures r.Ok? ==> (r.value == 'N' <==>
              SingletonAmount(inp.payslip.lines, "COND_APORT_EMP").value > SingletonAmount(inp.payslip.lines, "SMLMV_10").value
              || Contains(StructOf(inp), "SAL_INT") || Contains(StructOf(inp), "APR"))
    ensures r.Ok? ==> r.value == 'N' || r.value == 'S'
  {
    var condition :- SingletonAmount(inp.payslip.lines, "COND_APORT_EMP");
    var tenMinimumWages :- SingletonAmount(inp.payslip.lines, "SMLMV_10");
    if condition > tenMinimumWages || Contains(StructOf(inp), "SAL_INT") || Contains(StructOf(inp), "APR")
    then Ok('N') else Ok('S')
  }

  /** Field 95: the family-compensation base again, zero when field 76 is `S` or for apprentices. */
  function CcfBaseField(inp: LineInput, ibcCcf: real, exemption: char): (r: real)
    ensures exemption == 'S' || Contains(StructOf(inp), "APR") ==> r == 0.0
    ensures exemption != 'S' && !Contains(StructOf(inp), "APR") ==> r == ibcCcf
  {
    if exemption == 'S' || Contains(StructOf(inp), "APR") then 0.0 else ibcCcf
  }

  const VacationHourCodes: seq<string> := ["VACAC", "VACAH", "VACAS", "VACAP"]

  /** Field 96: hours — WORK100 on a normal line, the vacation codes on VAC, I_152 on LR, else 0. */
  function HoursField(inp: LineInput): (r: real)
    ensures HasLineCode(inp.payslip.lines, "APR") || Contains(StructOf(inp), "APR_E") ==> r == 0.0
    ensures !HasLineCode(inp.payslip.lines, "APR") && !Contains(StructOf(inp), "APR_E") ==>
              r == if inp.leave.None? then Hours(inp.payslip.workedDays, [WorkCode])
                   else if LeaveIs(inp, "VAC") then Hours(inp.payslip.workedDays, VacationHourCodes)
                   else if LeaveIs(inp, "LR") then Hours(inp.payslip.workedDays, ["I_152"])
                   else 0.0
  {
    if HasLineCode(inp.payslip.lines, "APR") || Contains(StructOf(inp), "APR_E") then 0.0
    else if inp.leave.None? then Hours(inp.payslip.workedDays, [WorkCode])
    else if LeaveIs(inp, "VAC") then Hours(inp.payslip.workedDays, VacationHourCodes)
    else if LeaveIs(inp, "LR") then Hours(inp.payslip.workedDays, ["I_152"])
    else 0.0
  }

  // ------------------------------------------------------------ dates

  /** Field 80: the contract start when it falls in the period, else the first ING leave's start. */
  function StartDateField(inp: LineInput): (r: Option<Date>)
    ensures ContractStartsInPeriod(inp) ==> r == Some(ContractOf(inp).dateStart)
    ensures !ContractStartsInPeriod(inp) ==> r == FirstLeaveStart(inp, "ING")
  {
    if ContractStartsInPeriod(inp) then Some(ContractOf(inp).dateStart) else FirstLeaveStart(inp, "ING")
  }

  /** Field 81: the contract end when it falls in the period, else the first RET leave's start. */
  function EndDateField(inp: LineInput): (r: Option<Date>)
    ensures ContractEndsInPeriod(inp) ==> r == ContractOf(inp).dateEnd
    ensures !ContractEndsInPeriod(inp) ==> r == FirstLeaveStart(inp, "RET")
  {
    if ContractEndsInPeriod(inp) then ContractOf(inp).dateEnd else FirstLeaveStart(inp, "RET")
  }

  /**
   * `_format_datetime_for_leave` before formatting: on a line whose leave is of type `code`,
   * the start (or end) of the employee's first leave of that type; no date on other lines.
   */
  function LeaveDate(inp: LineInput, code: string, start: bool): (r: Option<Date>)
    requires code != ""
    ensures !LeaveIs(inp, code) ==> r == None
    ensures LeaveIs(inp, code) ==> r == if start then FirstLeaveStart(inp, code) else FirstLeaveEnd(inp, code)
  {
    if LeaveIs(inp, code) then (if start then FirstLeaveStart(inp, code) else FirstLeaveEnd(inp, code))
    else None
  }

  /** Fields 89 and 90: the first VAC (or LR) leave's start and end on a VAC (or LR) line. */
  function VacationDate(inp: LineInput, start: bool): (r: Option<Date>)
    ensures !LeaveAmong(inp, ["VAC", "LR"]) ==> r == None
    ensures LeaveIs(inp, "VAC") ==> r == if start then FirstLeaveStart(inp, "VAC") else FirstLeaveEnd(inp, "VAC")
    ensures LeaveIs(inp, "LR") ==> r == if start then FirstLeaveStart(inp, "LR") else FirstLeaveEnd(inp, "LR")
  {
    if LeaveIs(inp, "VAC") then LeaveDate(inp, "VAC", start)
    else if LeaveIs(inp, "LR") then LeaveDate(inp, "LR", start)
    else None
  }

  // ------------------------------------------------------ errors and fit

  /** The first error the line builder raises, in the order it evaluates the fields. */
  function LineError(inp: LineInput): (r: Option<Error>)
    ensures r.None? ==> LineDays(inp).Ok? && IbcTotal(inp).Ok? && IbcCcf(inp).Ok?
                        && RiskRate(ContractOf(inp).riskClass).Ok? && ExemptionFlag(inp).Ok?
  {
    if LineDays(inp).Err? then Some(LineDays(inp).error)
    else if IbcTotal(inp).Err? then Some(IbcTotal(inp).error)
    else if RiskRate(ContractOf(inp).riskClass).Err? then Some(RiskRate(ContractOf(inp).riskClass).error)
    else if ExemptionFlag(inp).Err? then Some(ExemptionFlag(inp).error)
    else None
  }

  /** Every date the line may print is a calendar date of a four-digit year. */
  predicate DatesValid(inp: LineInput)
  {
    && ValidDate(ContractOf(inp).dateStart)
    && (ContractOf(inp).dateEnd.Some? ==> ValidDate(ContractOf(inp).dateEnd.value))
    && forall l | l in inp.leaves :: ValidDate(l.dateFrom) && ValidDate(l.dateTo)
  }

  /** Fields 36-39 fit two characters each. */
  predicate DaysFit(inp: LineInput, days: real)
  {
    && NumberFits(PensionPart(inp, days), 2) && NumberFits(days, 2)
    && NumberFits(RiskPart(inp, days), 2) && NumberFits(CcfDaysPart(inp, days), 2)
  }

  /** The wage (field 40) and the bases of fields 42-45 fit nine characters each. */
  predicate BasesFit(inp: LineInput, ibcTotal: real, ibcCcf: real)
  {
    && NumberFits(ContractOf(inp).wage, 9)
    && NumberFits(PensionPart(inp, ibcTotal), 9) && NumberFits(ibcTotal, 9)
    && NumberFits(RiskPart(inp, ibcTotal), 9) && NumberFits(ibcCcf, 9)
  }

  /** The pension, solidarity and health fields (46-55) fit their widths. */
  predicate PensionHealthFit(inp: LineInput, ibcTotal: real)
  {
    var p := inp.payslip;
    && FloatFits(PensionRate(p), 7) && NumberFits(PensionAmount(inp, ibcTotal) as real, 9)
    && NumberFits(FundAmount(p, "aut_solidaridad_sol") as real, 9)
    && NumberFits(FundAmount(p, "aut_solidaridad_subs") as real, 9)
    && FloatFits(HealthRate(p), 7) && NumberFits(HealthAmount(inp, ibcTotal) as real, 9)
  }

  /** The risk, family-compensation, SENA and ICBF fields (63-69) fit their widths. */
  predicate ParafiscalFit(inp: LineInput, ibcTotal: real, ibcCcf: real, rate: real)
  {
    && NumberFits(RiskAmount(inp, ibcTotal, rate) as real, 9)
    && FloatFits(CcfRateField(inp), 7) && NumberFits(CcfAmount(inp, ibcCcf) as real, 9)
    && FloatFits(SenaRateField(inp), 7) && NumberFits(SenaAmount(inp, ibcCcf) as real, 9)
    && FloatFits(IcbfRateField(inp), 7) && NumberFits(IcbfAmount(inp, ibcCcf) as real, 9)
  }

  /** Fields 95 and 96 fit nine and three characters. */
  predicate FinishFit(inp: LineInput, ibcCcf: real, exemption: char)
  {
    NumberFits(CcfBaseField(inp, ibcCcf, exemption), 9) && NumberFits(HoursField(inp), 3)
  }

  /** Every field of the line has exactly its width: the numbers fit and the dates are valid. */
  predicate AllFit(index: nat, inp: LineInput)
    requires LineError(inp).None?
  {
    var ibcTotal := IbcTotal(inp).value;
    var ibcCcf := IbcCcf(inp).value;
    && index < 100000
    && DatesValid(inp)
    && NumberFits(IrpDays(inp), 2)
    && DaysFit(inp, LineDays(inp).value)
    && BasesFit(inp, ibcTotal, ibcCcf)
    && PensionHealthFit(inp, ibcTotal)
    && ParafiscalFit(inp, ibcTotal, ibcCcf, RiskRate(ContractOf(inp).riskClass).value)
    && FinishFit(inp, ibcCcf, ExemptionFlag(inp).value)
  }
}
