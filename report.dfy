/**
 * The whole self-liquidation file: one detail line per payslip with worked days, one per
 * leave that needs a line of its own, the header with field 20 patched to the sum of the
 * lines' CCF bases, and the text upper-cased.
 */
module Report {

  import opened Results
  import opened Formats
  import opened Payroll
  import opened LineRules
  import opened DetailLines
  import opened Header

  // -------------------------------------------------- which lines the file holds

  /** The normal-days line of a payslip, present when the payslip has worked days. */
  function NormalInputs(w: Wizard, leaves: seq<Leave>, p: Payslip): (r: seq<LineInput>)
    ensures |r| <= 1
    ensures |r| == 1 <==> WorkedDays(p).Ok? && 0.0 < WorkedDays(p).value
    ensures |r| == 1 ==> r[0] == LineInput(w, leaves, p, None)
  {
    if WorkedDays(p).Ok? && 0.0 < WorkedDays(p).value then [LineInput(w, leaves, p, None)] else []
  }

  /** One leave line per given leave, in order, all in the context of payslip `p`. */
  function LeaveInputs(w: Wizard, leaves: seq<Leave>, p: Payslip, ls: seq<Leave>): (r: seq<LineInput>)
    ensures |r| == |ls|
    ensures forall i | 0 <= i < |ls| :: r[i] == LineInput(w, leaves, p, Some(ls[i]))
  {
    if ls == [] then [] else [LineInput(w, leaves, p, Some(ls[0]))] + LeaveInputs(w, leaves, p, ls[1..])
  }

  lemma LeaveInputsAt(w: Wizard, leaves: seq<Leave>, p: Payslip, ls: seq<Leave>, j: nat)
    requires j < |ls|
    ensures LeaveInputs(w, leaves, p, ls[j..])
            == [LineInput(w, leaves, p, Some(ls[j]))] + LeaveInputs(w, leaves, p, ls[j + 1..])
  {
    assert ls[j..][0] == ls[j] && ls[j..][1..] == ls[j + 1..];
  }

  /** One leave line further: the lines still to come and their first error move on together. */
  lemma LeaveStep(w: Wizard, leaves: seq<Leave>, p: Payslip, ls: seq<Leave>, j: nat,
                  emitted: seq<LineInput>, target: seq<LineInput>, e: Option<Error>)
    requires j < |ls| && LineError(LineInput(w, leaves, p, Some(ls[j]))).None?
    requires emitted + LeaveInputs(w, leaves, p, ls[j..]) == target
    requires FirstLineError(LeaveInputs(w, leaves, p, ls[j..])) == e
    ensures (emitted + [LineInput(w, leaves, p, Some(ls[j]))]) + LeaveInputs(w, leaves, p, ls[j + 1..]) == target
    ensures FirstLineError(LeaveInputs(w, leaves, p, ls[j + 1..])) == e
  {
    var inp := LineInput(w, leaves, p, Some(ls[j]));
    var rest := LeaveInputs(w, leaves, p, ls[j + 1..]);
    LeaveInputsAt(w, leaves, p, ls, j);
    FirstLineErrorCons(inp, rest);
    AppendAssoc(emitted, [inp], rest);
  }

  /** The leaves of the payslip's employee that get lines of their own. */
  function SeparateLeaves(w: Wizard, leaves: seq<Leave>, p: Payslip): seq<Leave>
  {
    SeparateLineLeaves(leaves, p.employee.id, PayslipPeriod(w))
  }

  /** The lines of one payslip: the normal-days line first, then its leave lines. */
  function PayslipInputs(w: Wizard, leaves: seq<Leave>, p: Payslip): seq<LineInput>
  {
    NormalInputs(w, leaves, p) + LeaveInputs(w, leaves, p, SeparateLeaves(w, leaves, p))
  }

  /** The lines of the file, payslip by payslip. */
  function Inputs(w: Wizard, leaves: seq<Leave>, ps: seq<Payslip>): seq<LineInput>
  {
    if ps == [] then [] else PayslipInputs(w, leaves, ps[0]) + Inputs(w, leaves, ps[1..])
  }

  lemma AppendAssoc<T>(a: seq<T>, b: seq<T>, c: seq<T>)
    ensures a + (b + c) == (a + b) + c
  {
  }

  lemma AppendEmpty<T>(a: seq<T>)
    ensures a + [] == a
  {
  }

  lemma SpliceParts<T>(a: seq<T>, b: seq<T>, c: seq<T>)
    ensures (a + b + c)[..|a|] == a && (a + b + c)[|a|..|a| + |b|] == b
    ensures (a + b + c)[|a| + |b|..] == c
  {
  }

  // -------------------------------------------------- the first error raised

  function Then(a: Option<Error>, b: Option<Error>): Option<Error>
  {
    if a.Some? then a else b
  }

  /** The error of the first line, in file order, that cannot be generated. */
  function FirstLineError(inps: seq<LineInput>): (r: Option<Error>)
    ensures r.None? <==> forall i | 0 <= i < |inps| :: LineError(inps[i]).None?
  {
    if inps == [] then None
    else
      var rest := FirstLineError(inps[1..]);
      assert forall i | 1 <= i < |inps| :: inps[i] == inps[1..][i - 1];
      Then(LineError(inps[0]), rest)
  }

  /** A payslip fails first on its worked days, then on its lines in order. */
  function PayslipError(w: Wizard, leaves: seq<Leave>, p: Payslip): Option<Error>
  {
    if WorkedDays(p).Err? then Some(WorkedDays(p).error)
    else FirstLineError(PayslipInputs(w, leaves, p))
  }

  /** The error the generation stops with: the first failing payslip's. */
  function FirstError(w: Wizard, leaves: seq<Leave>, ps: seq<Payslip>): Option<Error>
  {
    if ps == [] then None else Then(PayslipError(w, leaves, ps[0]), FirstError(w, leaves, ps[1..]))
  }

  lemma {:induction false} FirstLineErrorAppend(a: seq<LineInput>, b: seq<LineInput>)
    ensures FirstLineError(a + b) == Then(FirstLineError(a), FirstLineError(b))
  {
    if a != [] {
      assert (a + b)[0] == a[0];
      assert (a + b)[1..] == a[1..] + b;
      FirstLineErrorAppend(a[1..], b);
    } else {
      assert a + b == b;
    }
  }

  lemma FirstLineErrorCons(inp: LineInput, rest: seq<LineInput>)
    ensures FirstLineError([inp] + rest) == Then(LineError(inp), FirstLineError(rest))
  {
    assert ([inp] + rest)[0] == inp && ([inp] + rest)[1..] == rest;
  }

  /** Generation fails exactly when a payslip's worked days or one of the file's lines fails. */
  lemma {:induction false} FirstErrorNone(w: Wizard, leaves: seq<Leave>, ps: seq<Payslip>)
    ensures FirstError(w, leaves, ps).None? <==>
              (forall p | p in ps :: WorkedDays(p).Ok?) && FirstLineError(Inputs(w, leaves, ps)).None?
  {
    if ps != [] {
      FirstErrorNone(w, leaves, ps[1..]);
      var here := PayslipInputs(w, leaves, ps[0]);
      var rest := Inputs(w, leaves, ps[1..]);
      assert Inputs(w, leaves, ps) == here + rest;
      FirstLineErrorAppend(here, rest);
      assert forall p | p in ps :: p == ps[0] || p in ps[1..];
    }
  }

  // -------------------------------------------------- what the lines add up to

  /** The text of the lines one after the other. */
  function Texts(ds: seq<DetailLine>): string
  {
    if ds == [] then "" else Texts(ds[..|ds| - 1]) + ds[|ds| - 1].text
  }

  /** The sum of the lines' CCF bases: field 20 of the header. */
  function SumCcf(ds: seq<DetailLine>): real
  {
    if ds == [] then 0.0 else SumCcf(ds[..|ds| - 1]) + ds[|ds| - 1].ibcCcf
  }

  lemma TextsAppend(ds: seq<DetailLine>, d: DetailLine)
    ensures Texts(ds + [d]) == Texts(ds) + d.text && SumCcf(ds + [d]) == SumCcf(ds) + d.ibcCcf
  {
    assert (ds + [d])[..|ds|] == ds;
  }

  /** Line `i` of the file was generated from input `i`, which raises nothing, with index `i`. */
  ghost predicate LineEmitted(i: nat, inp: LineInput, d: DetailLine)
  {
    LineError(inp).None? && LineLayout(i, inp, d)
  }

  /** Each line of the file was generated from the input at its position. */
  ghost predicate Emitted(inps: seq<LineInput>, ds: seq<DetailLine>)
  {
    && |inps| == |ds|
    && forall i {:trigger LineEmitted(i, inps[i], ds[i])} | 0 <= i < |ds| :: LineEmitted(i, inps[i], ds[i])
  }

  lemma EmittedAppend(inps: seq<LineInput>, ds: seq<DetailLine>, inp: LineInput, d: DetailLine)
    requires Emitted(inps, ds) && LineEmitted(|ds|, inp, d)
    ensures Emitted(inps + [inp], ds + [d])
  {
    EmittedPrefix(inps, ds, inp, d);
    assert (inps + [inp])[|ds|] == inp && (ds + [d])[|ds|] == d;
  }

  lemma EmittedPrefix(inps: seq<LineInput>, ds: seq<DetailLine>, inp: LineInput, d: DetailLine)
    requires Emitted(inps, ds)
    ensures forall i | 0 <= i < |ds| :: LineEmitted(i, (inps + [inp])[i], (ds + [d])[i])
  {
    forall i | 0 <= i < |ds|
      ensures LineEmitted(i, (inps + [inp])[i], (ds + [d])[i])
    {
      assert (inps + [inp])[i] == inps[i] && (ds + [d])[i] == ds[i];
      assert LineEmitted(i, inps[i], ds[i]);
    }
  }

  /** `_generate_line` with the running text and total of `_generate_lines`. */
  method AppendLine(inp: LineInput, lineNr: nat, lines: string, total: real,
                    ghost done: seq<LineInput>, ghost ds: seq<DetailLine>)
    returns (r: Result<(string, real)>, ghost ds': seq<DetailLine>)
    requires Emitted(done, ds) && lineNr == |ds| && lines == Texts(ds) && total == SumCcf(ds)
    ensures r.Err? <==> LineError(inp).Some?
    ensures r.Err? ==> r.error == LineError(inp).value
    ensures r.Ok? ==> Emitted(done + [inp], ds') && r.value.0 == Texts(ds') && r.value.1 == SumCcf(ds')
    ensures r.Ok? ==> |ds'| == |ds| + 1
  {
    var line := GenerateLine(lineNr, inp);
    if line.Err? {
      return Err(line.error), ds;
    }
    ghost var d := line.value;
    EmittedAppend(done, ds, inp, d);
    ds' := ds + [d];
    TextsAppend(ds, d);
    r := Ok((lines + line.value.text, total + line.value.ibcCcf));
  }

  /** The inner loop of `_generate_lines`: one line per leave, in order, for payslip `p`. */
  method LeaveLines(w: Wizard, leaves: seq<Leave>, p: Payslip, separate: seq<Leave>,
                    lineNr: nat, lines: string, total: real,
                    ghost done: seq<LineInput>, ghost ds: seq<DetailLine>)
    returns (r: Result<(nat, string, real)>, ghost ds': seq<DetailLine>)
    requires Emitted(done, ds) && lineNr == |ds| && lines == Texts(ds) && total == SumCcf(ds)
    ensures r.Err? <==> FirstLineError(LeaveInputs(w, leaves, p, separate)).Some?
    ensures r.Err? ==> r.error == FirstLineError(LeaveInputs(w, leaves, p, separate)).value
    ensures r.Ok? ==> Emitted(done + LeaveInputs(w, leaves, p, separate), ds')
                      && r.value.0 == |ds'| && r.value.1 == Texts(ds') && r.value.2 == SumCcf(ds')
  {
    ghost var target := done + LeaveInputs(w, leaves, p, separate);
    ghost var firstError := FirstLineError(LeaveInputs(w, leaves, p, separate));
    var n, text, sum := lineNr, lines, total;
    ghost var emitted, out := done, ds;
    var j := 0;
    assert separate[j..] == separate;
    while j < |separate|
      invariant 0 <= j <= |separate|
      invariant emitted + LeaveInputs(w, leaves, p, separate[j..]) == target
      invariant FirstLineError(LeaveInputs(w, leaves, p, separate[j..])) == firstError
      invariant n == |out| && text == Texts(out) && sum == SumCcf(out) && Emitted(emitted, out)
    {
      var res;
      res, emitted, out := LeaveLine(w, leaves, p, separate, j, n, text, sum, emitted, out, target, firstError);
      if res.Err? {
        return Err(res.error), out;
      }
      n, text, sum := res.value.0, res.value.1, res.value.2;
      j := j + 1;
    }
    assert separate[j..] == [];
    AppendEmpty(emitted);
    r, ds' := Ok((n, text, sum)), out;
  }

  /** One turn of the leave loop: the line of leave `j`, or the first error of the lines still to come. */
  method LeaveLine(w: Wizard, leaves: seq<Leave>, p: Payslip, separate: seq<Leave>, j: nat,
                   n: nat, text: string, sum: real, ghost emitted: seq<LineInput>, ghost out: seq<DetailLine>,
                   ghost target: seq<LineInput>, ghost firstError: Option<Error>)
    returns (r: Result<(nat, string, real)>, ghost emitted': seq<LineInput>, ghost out': seq<DetailLine>)
    requires j < |separate|
    requires emitted + LeaveInputs(w, leaves, p, separate[j..]) == target
    requires FirstLineError(LeaveInputs(w, leaves, p, separate[j..])) == firstError
    requires n == |out| && text == Texts(out) && sum == SumCcf(out) && Emitted(emitted, out)
    ensures r.Err? ==> firstError == Some(r.error)
    ensures r.Ok? ==>
              && emitted' + LeaveInputs(w, leaves, p, separate[j + 1..]) == target
              && FirstLineError(LeaveInputs(w, leaves, p, separate[j + 1..])) == firstError
              && r.value.0 == |out'| && r.value.1 == Texts(out') && r.value.2 == SumCcf(out')
              && Emitted(emitted', out')
  {
    var inp := LineInput(w, leaves, p, Some(separate[j]));
    var res;
    ghost var next;
    res, next := AppendLine(inp, n, text, sum, emitted, out);
    if res.Err? {
      LeaveInputsAt(w, leaves, p, separate, j);
      FirstLineErrorCons(inp, LeaveInputs(w, leaves, p, separate[j + 1..]));
      return Err(res.error), emitted, out;
    }
    LeaveStep(w, leaves, p, separate, j, emitted, target, firstError);
    r, emitted', out' := Ok((n + 1, res.value.0, res.value.1)), emitted + [inp], next;
  }

  /**
   * The lines of one payslip, as the body of the loop of `_generate_lines` emits them: the
   * normal-days line when `days` is positive, then one line per leave needing its own.
   */
  method PayslipLines(w: Wizard, leaves: seq<Leave>, p: Payslip, days: real,
                      lineNr: nat, lines: string, total: real,
                      ghost done: seq<LineInput>, ghost ds: seq<DetailLine>)
    returns (r: Result<(nat, string, real)>, ghost ds': seq<DetailLine>)
    requires WorkedDays(p) == Ok(days)
    requires Emitted(done, ds) && lineNr == |ds| && lines == Texts(ds) && total == SumCcf(ds)
    ensures r.Err? <==> FirstLineError(PayslipInputs(w, leaves, p)).Some?
    ensures r.Err? ==> r.error == FirstLineError(PayslipInputs(w, leaves, p)).value
    ensures r.Ok? ==> Emitted(done + PayslipInputs(w, leaves, p), ds')
                      && r.value.0 == |ds'| && r.value.1 == Texts(ds') && r.value.2 == SumCcf(ds')
  {
    ghost var normal := NormalInputs(w, leaves, p);
    var separate := SeparateLineLeaves(leaves, p.employee.id, PayslipPeriod(w));
    ghost var leaveLines := LeaveInputs(w, leaves, p, separate);
    FirstLineErrorAppend(normal, leaveLines);
    AppendAssoc(done, normal, leaveLines);
    var n, text, sum := lineNr, lines, total;
    ghost var emitted, out := done, ds;
    if 0.0 < days {
      var inp := LineInput(w, leaves, p, None);
      FirstLineErrorCons(inp, []);
      AppendEmpty([inp]);
      var res;
      ghost var next;
      res, next := AppendLine(inp, n, text, sum, emitted, out);
      if res.Err? {
        return Err(res.error), out;
      }
      n, text, sum := n + 1, res.value.0, res.value.1;
      emitted, out := emitted + [inp], next;
    }
    assert emitted == done + normal;
    r, ds' := LeaveLines(w, leaves, p, separate, n, text, sum, emitted, out);
  }

  /**
   * `_generate_lines`: the lines of every payslip of the period with their indexes, the
   * concatenated text and the sum of the CCF bases, or the first error raised on the way.
   */
  method GenerateLines(w: Wizard, leaves: seq<Leave>, allPayslips: seq<Payslip>)
    returns (r: Result<(string, real)>, ghost ds: seq<DetailLine>)
    ensures r.Err? <==> FirstError(w, leaves, GetPayslips(w, allPayslips)).Some?
    ensures r.Err? ==> r.error == FirstError(w, leaves, GetPayslips(w, allPayslips)).value
    ensures r.Ok? ==> Emitted(Inputs(w, leaves, GetPayslips(w, allPayslips)), ds)
                      && r.value.0 == Texts(ds) && r.value.1 == SumCcf(ds)
  {
    var ps := GetPayslips(w, allPayslips);
    var lineNr: nat := 0;
    var lines := "";
    var total := 0.0;
    ds := [];
    ghost var done: seq<LineInput> := [];
    var k := 0;
    while k < |ps|
      invariant 0 <= k <= |ps|
      invariant done + Inputs(w, leaves, ps[k..]) == Inputs(w, leaves, ps)
      invariant FirstError(w, leaves, ps[k..]) == FirstError(w, leaves, ps)
      invariant lineNr == |ds| && lines == Texts(ds) && total == SumCcf(ds) && Emitted(done, ds)
    {
      var p := ps[k];
      assert ps[k..][0] == p && ps[k..][1..] == ps[k + 1..];
      var days := WorkedDays(p);
      if days.Err? {
        return Err(days.error), ds;
      }
      var res;
      ghost var next;
      res, next := PayslipLines(w, leaves, p, days.value, lineNr, lines, total, done, ds);
      if res.Err? {
        return Err(res.error), ds;
      }
      lineNr, lines, total := res.value.0, res.value.1, res.value.2;
      AppendAssoc(done, PayslipInputs(w, leaves, p), Inputs(w, leaves, ps[k + 1..]));
      done, ds := done + PayslipInputs(w, leaves, p), next;
      k := k + 1;
    }
    assert ps[k..] == [];
    AppendEmpty(done);
    r := Ok((lines, total));
  }

  // -------------------------------------------------- the file

  /**
   * The header with field 20 replaced by the total, as `generate` splices it. A total too
   * wide for twelve digits is printed in full and shifts the rest of the header.
   */
  function FillTotal(header: string, total: real): (r: string)
    requires TotalEnd <= |header|
    ensures |r| == |header| <==> NumberFits(total, 12)
    ensures TotalStart <= |r| && r[..TotalStart] == header[..TotalStart]
    ensures |header| - TotalEnd <= |r| && r[|r| - (|header| - TotalEnd)..] == header[TotalEnd..]
  {
    var field := FormatNumber(total, 12);
    SpliceParts(header[..TotalStart], field, header[TotalEnd..]);
    header[..TotalStart] + field + header[TotalEnd..]
  }

  /**
   * A total that fits twelve digits changes field 20 and nothing else, and a non-negative
   * one reads back from the field as its rounded value.
   */
  lemma FillTotalFits(header: string, total: real)
    requires TotalEnd <= |header| && NumberFits(total, 12)
    ensures |FillTotal(header, total)| == |header|
    ensures FillTotal(header, total)[TotalStart..TotalEnd] == FormatNumber(total, 12)
    ensures forall i | 0 <= i < |header| && !(TotalStart <= i < TotalEnd) :: FillTotal(header, total)[i] == header[i]
    ensures 0.0 <= total ==>
              AllDigits(FillTotal(header, total)[TotalStart..TotalEnd])
              && DigitsValue(FillTotal(header, total)[TotalStart..TotalEnd]) == RoundHalfEven(total)
  {
    var field := FormatNumber(total, 12);
    SpliceParts(header[..TotalStart], field, header[TotalEnd..]);
    if 0.0 <= total {
      NumberTextFacts(total, 12);
      FormatNumberReadBack(total, 12);
    }
  }

  /** `generate` up to the attachment: header, lines, field 20 and upper case. */
  method Generate(w: Wizard, company: Company, leaves: seq<Leave>, allPayslips: seq<Payslip>)
    returns (r: Result<string>, ghost header: string, ghost ds: seq<DetailLine>)
    ensures r.Err? <==> FirstError(w, leaves, GetPayslips(w, allPayslips)).Some?
    ensures r.Err? ==> r.error == FirstError(w, leaves, GetPayslips(w, allPayslips)).value
    ensures r.Ok? ==> && HeaderLayout(w, company, allPayslips, header)
                      && Emitted(Inputs(w, leaves, GetPayslips(w, allPayslips)), ds)
                      && r.value == Upper(FillTotal(header, SumCcf(ds)) + Texts(ds))
  {
    var head := GenerateHeader(w, company, allPayslips);
    header := head;
    var result;
    result, ds := GenerateLines(w, leaves, allPayslips);
    if result.Err? {
      return Err(result.error), header, ds;
    }
    var (lines, total) := result.value;
    var filled := head[..TotalStart] + FormatNumber(total, 12) + head[TotalEnd..];
    var content := filled;
    content := content + lines;
    content := Upper(content);
    r := Ok(content);
  }
}
