/**
 * What the generated file as a whole promises: consecutive line numbers from zero, field 20
 * holding the sum of the lines' CCF bases, and each record at its fixed offset.
 */
module ReportProperties {

  import opened Results
  import opened Formats
  import opened Payroll
  import opened LineRules
  import opened DetailLines
  import opened Header
  import opened Report

  /** The CCF base the line rules compute for one line, zero where they fail. */
  function CcfBase(inp: LineInput): real
  {
    if IbcCcf(inp).Ok? then IbcCcf(inp).value else 0.0
  }

  /** The sum of the CCF bases the line rules give to the file's lines. */
  function CcfTotal(inps: seq<LineInput>): real
  {
    if inps == [] then 0.0 else CcfTotal(inps[..|inps| - 1]) + CcfBase(inps[|inps| - 1])
  }

  /** Every line's fields fit their widths, each line numbered by its position. */
  ghost predicate EveryFit(inps: seq<LineInput>)
    decreases |inps|
  {
    inps != [] ==>
      && EveryFit(inps[..|inps| - 1])
      && LineError(inps[|inps| - 1]).None? && AllFit(|inps| - 1, inps[|inps| - 1])
  }

  // The three facts about each emitted line that the whole-file properties need, kept apart
  // so that each proof below sees only its own.

  /** Line `k` starts with the record marker and, below 100000, reads back the number `k`. */
  ghost predicate Numbered(ds: seq<DetailLine>)
    decreases |ds|
  {
    ds != [] ==>
      var t := ds[|ds| - 1].text;
      && Numbered(ds[..|ds| - 1])
      && 7 <= |t| && t[..2] == "02"
      && (|ds| - 1 < 100000 ==> AllDigits(t[2..7]) && DigitsValue(t[2..7]) == |ds| - 1)
  }

  /** Each line remembers the CCF base the line rules compute for its input. */
  ghost predicate Based(inps: seq<LineInput>, ds: seq<DetailLine>)
    decreases |ds|
  {
    && |inps| == |ds|
    && (ds != [] ==>
          && Based(inps[..|ds| - 1], ds[..|ds| - 1])
          && IbcCcf(inps[|ds| - 1]).Ok? && ds[|ds| - 1].ibcCcf == IbcCcf(inps[|ds| - 1]).value)
  }

  /** A line whose fields all fit is exactly `LineLength` long. */
  ghost predicate Sized(inps: seq<LineInput>, ds: seq<DetailLine>)
    decreases |ds|
  {
    && |inps| == |ds|
    && (ds != [] ==>
          && Sized(inps[..|ds| - 1], ds[..|ds| - 1])
          && LineError(inps[|ds| - 1]).None?
          && (AllFit(|ds| - 1, inps[|ds| - 1]) ==> |ds[|ds| - 1].text| == LineLength))
  }

  lemma SummaryOf(index: nat, inp: LineInput, d: DetailLine)
    requires LineError(inp).None? && LineLayout(index, inp, d)
    ensures 7 <= |d.text| && d.text[..2] == "02"
    ensures index < 100000 ==> AllDigits(d.text[2..7]) && DigitsValue(d.text[2..7]) == index
    ensures IbcCcf(inp).Ok? && d.ibcCcf == IbcCcf(inp).value
    ensures AllFit(index, inp) ==> |d.text| == LineLength
  {
    if index < 100000 {
      assert Pow10(5) == 100000;
      PaddedNumber(index, 5);
    }
  }

  /** Every sequence of lines `GenerateLines` emits has the three facts. */
  lemma {:induction false} EmittedSummarized(inps: seq<LineInput>, ds: seq<DetailLine>)
    requires Emitted(inps, ds)
    ensures Numbered(ds) && Based(inps, ds) && Sized(inps, ds)
    decreases |ds|
  {
    if ds != [] {
      var n := |ds| - 1;
      forall i | 0 <= i < n
        ensures LineEmitted(i, inps[..n][i], ds[..n][i])
      {
        assert inps[..n][i] == inps[i] && ds[..n][i] == ds[i];
        assert LineEmitted(i, inps[i], ds[i]);
      }
      EmittedSummarized(inps[..n], ds[..n]);
      assert LineEmitted(n, inps[n], ds[n]);
      SummaryOf(n, inps[n], ds[n]);
    }
  }

  /**
   * The value `_generate_lines` adds up for field 20 is the sum, over the file's lines, of
   * the CCF base the line rules compute.
   */
  lemma {:induction false} SumIsCcfTotal(inps: seq<LineInput>, ds: seq<DetailLine>)
    requires Based(inps, ds)
    ensures SumCcf(ds) == CcfTotal(inps)
    decreases |ds|
  {
    if ds != [] {
      SumIsCcfTotal(inps[..|ds| - 1], ds[..|ds| - 1]);
    }
  }

  /** Line `i` of the file carries the record marker and the number `i`. */
  lemma {:induction false} LineNumbers(ds: seq<DetailLine>, i: nat)
    requires Numbered(ds) && i < |ds| && i < 100000
    ensures 7 <= |ds[i].text| && ds[i].text[..2] == "02"
    ensures AllDigits(ds[i].text[2..7]) && DigitsValue(ds[i].text[2..7]) == i
    decreases |ds|
  {
    var n := |ds| - 1;
    if i < n {
      LineNumbers(ds[..n], i);
      assert ds[..n][i] == ds[i];
    }
  }

  /** Every line is exactly `LineLength` long. */
  ghost predicate FullLength(ds: seq<DetailLine>)
    decreases |ds|
  {
    ds != [] ==> FullLength(ds[..|ds| - 1]) && |ds[|ds| - 1].text| == LineLength
  }

  /** When every line's fields fit, every line is exactly 678 characters long. */
  lemma {:induction false} FullLines(inps: seq<LineInput>, ds: seq<DetailLine>)
    requires Sized(inps, ds) && EveryFit(inps)
    ensures FullLength(ds)
    decreases |ds|
  {
    if ds != [] {
      FullLines(inps[..|ds| - 1], ds[..|ds| - 1]);
    }
  }

  /** Lines of the fixed length sit one after the other at multiples of 678. */
  lemma {:induction false} TextsAt(ds: seq<DetailLine>, i: nat)
    requires FullLength(ds)
    ensures |Texts(ds)| == LineLength * |ds|
    ensures i < |ds| ==> Texts(ds)[LineLength * i..LineLength * (i + 1)] == ds[i].text
    decreases |ds|
  {
    if ds != [] {
      var n := |ds| - 1;
      var front := Texts(ds[..n]);
      TextsAt(ds[..n], i);
      assert Texts(ds) == front + ds[n].text;
      PrefixSlice(front, Texts(ds), LineLength * i, LineLength * (i + 1));
      Placed(front, ds[n].text, LineLength * i, LineLength * (i + 1));
      if i < n {
        assert ds[..n][i] == ds[i];
      }
    }
  }

  /**
   * The header part of the finished file: 361 characters, field 20 reading back as the
   * rounded total, the lines right after, and everything before field 20 as generated.
   */
  lemma FileHeader(header: string, total: real, lines: string)
    requires |header| == HeaderLength && header[HeaderLength - 2..] == "\r\n" && NumberFits(total, 12)
    ensures |Upper(FillTotal(header, total) + lines)| == HeaderLength + |lines|
    ensures Upper(FillTotal(header, total) + lines)[..TotalStart] == Upper(header[..TotalStart])
    ensures Upper(FillTotal(header, total) + lines)[HeaderLength - 2..HeaderLength] == "\r\n"
    ensures Upper(FillTotal(header, total) + lines)[HeaderLength..] == Upper(lines)
    ensures 0.0 <= total ==>
              var field := Upper(FillTotal(header, total) + lines)[TotalStart..TotalEnd];
              AllDigits(field) && DigitsValue(field) == RoundHalfEven(total)
  {
    var filled := FillTotal(header, total);
    var content := filled + lines;
    FillTotalFits(header, total);
    Placed(filled, lines, HeaderLength, HeaderLength + |lines|);
    PrefixSlice(filled, content, 0, TotalStart);
    PrefixSlice(filled, content, TotalStart, TotalEnd);
    PrefixSlice(filled, content, HeaderLength - 2, HeaderLength);
    assert filled[HeaderLength - 2..HeaderLength] == header[HeaderLength - 2..HeaderLength];
    UpperSlice(content, 0, TotalStart);
    UpperSlice(content, TotalStart, TotalEnd);
    UpperSlice(content, HeaderLength - 2, HeaderLength);
    UpperSlice(content, HeaderLength, |content|);
    UpperKeepsNumbers("\r\n");
    if 0.0 <= total {
      UpperKeepsNumbers(filled[TotalStart..TotalEnd]);
    }
  }

  /** With every line at full length, line `i` of the file starts at 361 + 678 * i. */
  lemma FileLineAt(header: string, total: real, ds: seq<DetailLine>, i: nat)
    requires |header| == HeaderLength && header[HeaderLength - 2..] == "\r\n" && NumberFits(total, 12)
    requires FullLength(ds) && i < |ds|
    ensures var file := Upper(FillTotal(header, total) + Texts(ds));
            && |file| == HeaderLength + LineLength * |ds|
            && file[HeaderLength + LineLength * i..HeaderLength + LineLength * i + LineLength] == Upper(ds[i].text)
  {
    var file := Upper(FillTotal(header, total) + Texts(ds));
    var lines := Texts(ds);
    FileHeader(header, total, lines);
    TextsAt(ds, i);
    var lo := LineLength * i;
    assert LineLength * (i + 1) == lo + LineLength;
    assert lo + LineLength <= |lines|;
    assert file[HeaderLength + lo..HeaderLength + lo + LineLength] == file[HeaderLength..][lo..lo + LineLength];
    UpperSlice(lines, lo, lo + LineLength);
  }
}
