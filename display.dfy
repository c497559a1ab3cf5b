/** The feedback page of app.py: the score shown in the banner and the
    plain-text report offered for download. */

module Display {
  import opened Wrappers
  import opened Strings
  import opened OrderedDict
  import opened Values
  import opened Feedback

  /* ---------------- score coercion ---------------- */

  /** `s[i..j]` is the first run of decimal digits in `s`, taken whole:
      what the first group of `re.search(r'(\d+)', s)` spans. */
  predicate LeadingRun(s: string, i: int, j: int)
  {
    && 0 <= i < j <= |s|
    && NoDigits(s[..i])
    && AllDigits(s[i..j])
    && (j == |s| || !IsDigit(s[j]))
  }

  /** What a leading run says about each character around it. */
  lemma LeadingRunChars(s: string, i: int, j: int)
    requires LeadingRun(s, i, j)
    ensures forall k :: 0 <= k < i ==> !IsDigit(s[k])
    ensures forall k :: i <= k < j ==> IsDigit(s[k])
    ensures IsDigit(s[i])
  {
    assert forall k :: 0 <= k < i ==> s[..i][k] == s[k];
    assert forall k :: i <= k < j ==> s[i..j][k - i] == s[k];
  }

  /** A string has at most one leading run. */
  lemma LeadingRunUnique(s: string, i: int, j: int, i': int, j': int)
    requires LeadingRun(s, i, j) && LeadingRun(s, i', j')
    ensures i == i' && j == j'
  {
    LeadingRunChars(s, i, j);
    LeadingRunChars(s, i', j');
  }

  /** Where the digit run that starts at `i` ends. */
  function RunEnd(s: string, i: nat): (j: nat)
    requires i <= |s|
    ensures i <= j <= |s|
    ensures AllDigits(s[i..j])
    ensures j == |s| || !IsDigit(s[j])
    decreases |s| - i
  {
    if i < |s| && IsDigit(s[i]) then
      var j := RunEnd(s, i + 1);
      assert forall k :: 0 < k < j - i ==> s[i..j][k] == s[i + 1..j][k - 1];
      j
    else i
  }

  /** The scan for a digit from position `i` on, no digit lying before it. */
  function SearchFrom(s: string, i: nat): (r: Option<(nat, nat)>)
    requires i <= |s| && NoDigits(s[..i])
    ensures r.None? <==> NoDigits(s)
    ensures r.Some? ==> LeadingRun(s, r.value.0, r.value.1)
    decreases |s| - i
  {
    if i == |s| then
      assert s[..i] == s;
      None
    else if IsDigit(s[i]) then
      assert !NoDigits(s);
      Some((i, RunEnd(s, i)))
    else
      assert forall k :: 0 <= k < i + 1 ==> s[..i + 1][k] == if k < i then s[..i][k] else s[i];
      SearchFrom(s, i + 1)
  }

  /** `re.search(r'(\d+)', s)`: the span of the first run of digits, if any. */
  function SearchDigits(s: string): (r: Option<(nat, nat)>)
    ensures r.None? <==> NoDigits(s)
    ensures r.Some? ==> LeadingRun(s, r.value.0, r.value.1)
  {
    SearchFrom(s, 0)
  }

  /** The most digits `int()` converts from a string before it raises
      `ValueError`: CPython's default `sys.get_int_max_str_digits()`. */
  const MaxStrDigits := 4300

  /** `str(e)` for the `ValueError` of `int()` on a string of `digits` digits. */
  function IntLimitError(digits: nat): string
  {
    "Exceeds the limit (" + NatToString(MaxStrDigits) + " digits) for integer string conversion: value has "
    + NatToString(digits) + " digits; use sys.set_int_max_str_digits() to increase the limit"
  }

  predicate DigitAt(s: string, i: int)
  {
    0 <= i < |s| && IsDigit(s[i])
  }

  /** A leading run starts at a digit. */
  lemma RunStartsWithDigit(s: string, i: int, j: int)
    ensures LeadingRun(s, i, j) ==> DigitAt(s, i)
  {
    if LeadingRun(s, i, j) {
      LeadingRunChars(s, i, j);
    }
  }

  /** `int(m.group(1)) if (m := re.search(r'(\d+)', s)) else 7`: the value of
      the first digit run, 7 without one, and the `ValueError` of `int()`
      when the run is longer than `MaxStrDigits`. */
  function StringScore(s: string): (r: Result<Value, string>)
    ensures NoDigits(s) ==> r == Success(Int(7))
    ensures forall i, j :: LeadingRun(s, i, j) ==>
      r == if j - i <= MaxStrDigits then Success(Int(DigitsValue(s[i..j])))
           else Failure(IntLimitError(j - i))
    ensures r.Failure? <==> exists i, j :: LeadingRun(s, i, j) && j - i > MaxStrDigits
  {
    match SearchDigits(s)
    case Some((i, j)) =>
      assert forall i', j' :: LeadingRun(s, i', j') ==> i' == i && j' == j by {
        forall i', j' | LeadingRun(s, i', j') ensures i' == i && j' == j {
          LeadingRunUnique(s, i, j, i', j');
        }
      }
      assert LeadingRun(s, i, j);
      if j - i <= MaxStrDigits then Success(Int(DigitsValue(s[i..j])))
      else Failure(IntLimitError(j - i))
    case None =>
      assert forall i, j :: LeadingRun(s, i, j) ==> DigitAt(s, i) by {
        forall i, j ensures LeadingRun(s, i, j) ==> DigitAt(s, i) {
          RunStartsWithDigit(s, i, j);
        }
      }
      Success(Int(7))
  }

  /** The score the page shows: `overall_score`, or 7 when it is missing; a
      string score goes through StringScore, any other value is shown as it
      is, unclamped. */
  function DisplayScore(feedback: Record): (r: Result<Value, string>)
    ensures Get(feedback, ScoreKey).None? ==> r == Success(Int(7))
    ensures Get(feedback, ScoreKey).Some? && !Get(feedback, ScoreKey).value.Str? ==>
      r == Success(Get(feedback, ScoreKey).value)
    ensures Get(feedback, ScoreKey).Some? && Get(feedback, ScoreKey).value.Str? ==>
      r == StringScore(Get(feedback, ScoreKey).value.s)
  {
    var score := GetOr(feedback, ScoreKey, Int(7));
    if score.Str? then StringScore(score.s) else Success(score)
  }

  /** Worked cases: "8/10" shows as 8 and "Score: 12 of 10" as 12. */
  lemma DisplayScoreExamples()
    ensures DisplayScore([(ScoreKey, Str("8/10"))]) == Success(Int(8))
    ensures DisplayScore([(ScoreKey, Str("Score: 12 of 10"))]) == Success(Int(12))
  {
    assert LeadingRun("8/10", 0, 1);
    assert "8/10"[0..1] == "8";
    assert LeadingRun("Score: 12 of 10", 7, 9);
    assert "Score: 12 of 10"[7..9] == "12";
  }

  /** Worked cases: a score without digits shows as 7, an out-of-range
      integer as itself, and a missing score as 7. */
  lemma DisplayScoreDefaults()
    ensures DisplayScore([(ScoreKey, Str("excellent"))]) == Success(Int(7))
    ensures DisplayScore([(ScoreKey, Int(15))]) == Success(Int(15))
    ensures DisplayScore([]) == Success(Int(7))
  {
    assert NoDigits("excellent");
  }

  /** A string score of `n` ones converts up to the limit and raises past it. */
  lemma DisplayScoreLimit(n: nat)
    requires n > 0
    ensures var r := DisplayScore([(ScoreKey, Str(Repeat('1', n)))]);
      && (n <= MaxStrDigits ==> r.Success? && r.value.Int?)
      && (n > MaxStrDigits ==> r == Failure(IntLimitError(n)))
  {
    var s := Repeat('1', n);
    assert s[..0] == [];
    assert s[0..n] == s;
    assert LeadingRun(s, 0, n);
  }

  /* ---------------- the downloadable report ---------------- */

  const Title := "PRESENTIQ - MEDICAL PRESENTATION FEEDBACK REPORT"
  const Attribution := "Generated by PresentIQ - Created by Rahul Gorijavolu and Emily Zhao at the Johns Hopkins University School of Medicine"
  const NoAssessment := "No assessment provided."
  const NoFeedback := "No feedback provided."
  const DefaultService := "General Medicine"
  const Bullet := "• "

  /** The title block: title, rule, service, the score shown, provider and model. */
  function Banner(feedback: Record, score: Value, provider: string, model: string): (lines: seq<Value>)
    ensures |lines| == 9 && lines[0] == Str(Title)
    ensures forall k :: 0 <= k < 9 ==> lines[k].Str?
  {
    [ Str(Title),
      Str(Repeat('=', 60)),
      Str(""),
      Str("Service: " + Show(GetOr(feedback, ServiceKey, Str(DefaultService)))),
      Str("Performance Score: " + Show(score) + "/10"),
      Str("AI Provider: " + provider),
      Str("AI Model: " + model),
      Str(""),
      Str("OVERALL ASSESSMENT:") ]
  }

  /** The four narrative sections, each value as stored (or its default),
      ending with the strengths heading. */
  function Sections(feedback: Record): (lines: seq<Value>)
    ensures |lines| == 12 && lines[11] == Str("STRENGTHS:")
    ensures lines[0] == GetOr(feedback, AssessmentKey, Str(NoAssessment))
    ensures lines[3] == GetOr(feedback, ContentKey, Str(NoFeedback))
    ensures lines[6] == GetOr(feedback, ReasoningKey, Str(NoFeedback))
    ensures lines[9] == GetOr(feedback, StructureKey, Str(NoFeedback))
    ensures forall k :: 0 <= k < 12 && k != 0 && k != 3 && k != 6 && k != 9 ==> lines[k].Str?
  {
    [ GetOr(feedback, AssessmentKey, Str(NoAssessment)),
      Str(""),
      Str("CLINICAL CONTENT:"),
      GetOr(feedback, ContentKey, Str(NoFeedback)),
      Str(""),
      Str("CLINICAL REASONING:"),
      GetOr(feedback, ReasoningKey, Str(NoFeedback)),
      Str(""),
      Str("PRESENTATION STRUCTURE:"),
      GetOr(feedback, StructureKey, Str(NoFeedback)),
      Str(""),
      Str("STRENGTHS:") ]
  }

  /** The 21 lines before the first strength. */
  function HeaderLines(feedback: Record, score: Value, provider: string, model: string): (lines: seq<Value>)
    ensures |lines| == 21
    ensures lines[0] == Str(Title) && lines[20] == Str("STRENGTHS:")
  {
    Banner(feedback, score, provider, model) + Sections(feedback)
  }

  /** The header shows the four narrative values where the page writes them;
      every other header line is text. */
  lemma HeaderValues(feedback: Record, score: Value, provider: string, model: string)
    ensures var lines := HeaderLines(feedback, score, provider, model);
      && lines[9] == GetOr(feedback, AssessmentKey, Str(NoAssessment))
      && lines[12] == GetOr(feedback, ContentKey, Str(NoFeedback))
      && lines[15] == GetOr(feedback, ReasoningKey, Str(NoFeedback))
      && lines[18] == GetOr(feedback, StructureKey, Str(NoFeedback))
      && forall k :: 0 <= k < 21 && k != 9 && k != 12 && k != 15 && k != 18 ==> lines[k].Str?
  {
    var banner := Banner(feedback, score, provider, model);
    var sections := Sections(feedback);
    var lines := banner + sections;
    assert forall k :: 0 <= k < 9 ==> lines[k] == banner[k];
    assert forall k :: 9 <= k < 21 ==> lines[k] == sections[k - 9];
  }

  /** One `f"• {item}"` line per item. */
  function Bullets(items: seq<Value>): (lines: seq<Value>)
    ensures |lines| == |items|
    ensures forall k :: 0 <= k < |items| ==> lines[k] == Str(Bullet + Show(items[k]))
  {
    seq(|items|, k requires 0 <= k < |items| => Str(Bullet + Show(items[k])))
  }

  const Improvements := "AREAS FOR IMPROVEMENT:"

  /** The five closing lines: the transcript and the attribution. */
  function FooterLines(transcript: string): (lines: seq<Value>)
    ensures |lines| == 5
    ensures lines[2] == Str(transcript) && lines[4] == Str(Attribution)
    ensures forall k :: 0 <= k < 5 ==> lines[k].Str?
  {
    [Str(""), Str("TRANSCRIPT:"), Str(transcript), Str(""), Str(Attribution)]
  }

  /** The header, the strength bullets, the improvement heading and
      bullets, and the footer, in this order. */
  function Assemble(head: seq<Value>, strengths: seq<Value>, areas: seq<Value>, foot: seq<Value>)
    : seq<Value>
  {
    head + Bullets(strengths) + [Str(""), Str(Improvements)] + Bullets(areas) + foot
  }

  /** The line list: title first, then the strengths in order, each with a
      bullet, then the improvements in order, then the transcript, with the
      attribution last. */
  predicate ReportShape(lines: seq<Value>, strengths: seq<Value>, areas: seq<Value>, transcript: string)
  {
    && |lines| == 28 + |strengths| + |areas|
    && lines[0] == Str(Title)
    && lines[20] == Str("STRENGTHS:")
    && (forall k :: 0 <= k < |strengths| ==> lines[21 + k] == Str(Bullet + Show(strengths[k])))
    && lines[22 + |strengths|] == Str(Improvements)
    && (forall k :: 0 <= k < |areas| ==> lines[23 + |strengths| + k] == Str(Bullet + Show(areas[k])))
    && lines[|lines| - 3] == Str(transcript)
    && lines[|lines| - 1] == Str(Attribution)
  }

  /** The header and the strength bullets open the line list. */
  lemma AssembleFront(head: seq<Value>, strengths: seq<Value>, areas: seq<Value>, foot: seq<Value>)
    requires |head| == 21
    ensures var lines := Assemble(head, strengths, areas, foot);
      && |lines| == 23 + |strengths| + |areas| + |foot|
      && lines[0] == head[0] && lines[20] == head[20]
      && forall k :: 0 <= k < |strengths| ==> lines[21 + k] == Str(Bullet + Show(strengths[k]))
  {
    var bs := Bullets(strengths);
    var middle := head + bs + [Str(""), Str(Improvements)];
    var rest := Bullets(areas) + foot;
    assert Assemble(head, strengths, areas, foot) == middle + rest;
    assert forall k :: 0 <= k < |strengths| ==> middle[21 + k] == bs[k];
  }

  /** The improvements heading and bullets, then the footer, close it. */
  lemma AssembleBack(head: seq<Value>, strengths: seq<Value>, areas: seq<Value>, foot: seq<Value>)
    requires |head| == 21 && |foot| == 5
    ensures var lines := Assemble(head, strengths, areas, foot);
      && |lines| == 28 + |strengths| + |areas|
      && lines[22 + |strengths|] == Str(Improvements)
      && (forall k :: 0 <= k < |areas| ==> lines[23 + |strengths| + k] == Str(Bullet + Show(areas[k])))
      && lines[|lines| - 3] == foot[2] && lines[|lines| - 1] == foot[4]
  {
    var front := head + Bullets(strengths) + [Str(""), Str(Improvements)];
    var bullets := Bullets(areas);
    var lines := Assemble(head, strengths, areas, foot);
    assert lines == front + (bullets + foot);
    assert |front| == 23 + |strengths|;
    assert lines[22 + |strengths|] == front[22 + |strengths|];
    assert forall k :: 0 <= k < |areas| ==> lines[23 + |strengths| + k] == bullets[k];
  }

  /** Where each part of the report lands in the line list. */
  lemma AssembleShape(head: seq<Value>, strengths: seq<Value>, areas: seq<Value>, foot: seq<Value>,
                      transcript: string)
    requires |head| == 21 && head[0] == Str(Title) && head[20] == Str("STRENGTHS:")
    requires |foot| == 5 && foot[2] == Str(transcript) && foot[4] == Str(Attribution)
    ensures ReportShape(Assemble(head, strengths, areas, foot), strengths, areas, transcript)
  {
    AssembleFront(head, strengths, areas, foot);
    AssembleBack(head, strengths, areas, foot);
  }

  /** The bullet lines are always text, so the assembled lines are all text
      exactly when the header and footer lines are. */
  lemma AssembleAllText(head: seq<Value>, strengths: seq<Value>, areas: seq<Value>, foot: seq<Value>)
    requires |head| == 21 && |foot| == 5
    ensures (forall k :: 0 <= k < |Assemble(head, strengths, areas, foot)| ==>
               Assemble(head, strengths, areas, foot)[k].Str?)
        <==> (forall k :: 0 <= k < 21 ==> head[k].Str?) && (forall k :: 0 <= k < 5 ==> foot[k].Str?)
  {
    var lines := Assemble(head, strengths, areas, foot);
    assert forall k :: 0 <= k < 21 ==> lines[k] == head[k];
    assert forall k :: 0 <= k < 5 ==> lines[|lines| - 5 + k] == foot[k];
  }

  /** `report_lines`, or the exception that stops the page first: the
      `ValueError` of the score shown above the report, then the `TypeError`
      raised when `strengths` or `areas_for_improvement` cannot be iterated. */
  function ReportLines(feedback: Record, provider: string, model: string, transcript: string)
    : Result<seq<Value>, string>
  {
    match DisplayScore(feedback)
    case Failure(e) => Failure(e)
    case Success(score) =>
      match Iterate(GetOr(feedback, StrengthsKey, List([])))
      case Failure(e) => Failure(e)
      case Success(strengths) =>
        match Iterate(GetOr(feedback, ImprovementsKey, List([])))
        case Failure(e) => Failure(e)
        case Success(areas) =>
          Success(Assemble(HeaderLines(feedback, score, provider, model), strengths, areas, FooterLines(transcript)))
  }

  /** `"\n".join(report_lines)`, or the error that stops it. */
  function Report(feedback: Record, provider: string, model: string, transcript: string)
    : Result<string, string>
  {
    match ReportLines(feedback, provider, model, transcript)
    case Failure(e) => Failure(e)
    case Success(lines) => JoinValues("\n", lines)
  }

  /** `for item in items: report_lines.append(f"• {item}")`. */
  method AppendBullets(lines: seq<Value>, items: seq<Value>) returns (out: seq<Value>)
    ensures out == lines + Bullets(items)
  {
    out := lines;
    for k := 0 to |items|
      invariant out == lines + Bullets(items[..k])
    {
      out := out + [Str(Bullet + Show(items[k]))];
    }
    assert items[..|items|] == items;
  }

  /** Building the report line by line, as the page does. */
  method BuildReport(feedback: Record, provider: string, model: string, transcript: string)
    returns (report: Result<string, string>)
    ensures report == Report(feedback, provider, model, transcript)
  {
    var score := DisplayScore(feedback);
    if score.Failure? {
      return Failure(score.error);
    }
    var head := HeaderLines(feedback, score.value, provider, model);
    var strengths := Iterate(GetOr(feedback, StrengthsKey, List([])));
    if strengths.Failure? {
      return Failure(strengths.error);
    }
    var reportLines := AppendBullets(head, strengths.value);
    reportLines := reportLines + [Str(""), Str(Improvements)];
    var areas := Iterate(GetOr(feedback, ImprovementsKey, List([])));
    if areas.Failure? {
      return Failure(areas.error);
    }
    reportLines := AppendBullets(reportLines, areas.value);
    reportLines := reportLines + FooterLines(transcript);
    assert reportLines == Assemble(head, strengths.value, areas.value, FooterLines(transcript));
    report := JoinValues("\n", reportLines);
  }

  lemma ReportLinesShape(feedback: Record, provider: string, model: string, transcript: string)
    requires ReportLines(feedback, provider, model, transcript).Success?
    ensures ReportShape(ReportLines(feedback, provider, model, transcript).value,
                        Iterate(GetOr(feedback, StrengthsKey, List([]))).value,
                        Iterate(GetOr(feedback, ImprovementsKey, List([]))).value, transcript)
  {
    AssembleShape(HeaderLines(feedback, DisplayScore(feedback).value, provider, model),
                  Iterate(GetOr(feedback, StrengthsKey, List([]))).value,
                  Iterate(GetOr(feedback, ImprovementsKey, List([]))).value,
                  FooterLines(transcript), transcript);
  }

  /** The report is produced exactly when the score can be shown, both lists
      can be iterated and the four narrative fields (or their defaults) are
      strings. */
  lemma ReportSucceedsIff(feedback: Record, provider: string, model: string, transcript: string)
    ensures Report(feedback, provider, model, transcript).Success? <==>
      && DisplayScore(feedback).Success?
      && Iterate(GetOr(feedback, StrengthsKey, List([]))).Success?
      && Iterate(GetOr(feedback, ImprovementsKey, List([]))).Success?
      && GetOr(feedback, AssessmentKey, Str(NoAssessment)).Str?
      && GetOr(feedback, ContentKey, Str(NoFeedback)).Str?
      && GetOr(feedback, ReasoningKey, Str(NoFeedback)).Str?
      && GetOr(feedback, StructureKey, Str(NoFeedback)).Str?
  {
    var strengths := Iterate(GetOr(feedback, StrengthsKey, List([])));
    var areas := Iterate(GetOr(feedback, ImprovementsKey, List([])));
    var score := DisplayScore(feedback);
    if score.Success? && strengths.Success? && areas.Success? {
      var head := HeaderLines(feedback, score.value, provider, model);
      HeaderValues(feedback, score.value, provider, model);
      AssembleAllText(head, strengths.value, areas.value, FooterLines(transcript));
      assert (forall k :: 0 <= k < 21 ==> head[k].Str?) <==>
        head[9].Str? && head[12].Str? && head[15].Str? && head[18].Str?;
    }
  }

  /** The downloaded text starts with the title line and ends with the
      attribution line, and carries every strength and improvement bullet. */
  lemma ReportText(feedback: Record, provider: string, model: string, transcript: string)
    requires Report(feedback, provider, model, transcript).Success?
    ensures ReportTextShape(Report(feedback, provider, model, transcript).value,
                            Iterate(GetOr(feedback, StrengthsKey, List([]))).value,
                            Iterate(GetOr(feedback, ImprovementsKey, List([]))).value)
  {
    ReportLinesShape(feedback, provider, model, transcript);
    JoinedLines(ReportLines(feedback, provider, model, transcript).value,
                Iterate(GetOr(feedback, StrengthsKey, List([]))).value,
                Iterate(GetOr(feedback, ImprovementsKey, List([]))).value, transcript,
                Report(feedback, provider, model, transcript).value);
  }

  /** The text opens with the title line, closes with the attribution line,
      and carries every bullet. */
  predicate ReportTextShape(text: string, strengths: seq<Value>, areas: seq<Value>)
  {
    && |text| >= |Title| + |Attribution| + 1
    && text[..|Title| + 1] == Title + "\n"
    && text[|text| - |Attribution| - 1..] == "\n" + Attribution
    && (forall k :: 0 <= k < |strengths| ==> Contains(text, Bullet + Show(strengths[k])))
    && (forall k :: 0 <= k < |areas| ==> Contains(text, Bullet + Show(areas[k])))
  }

  lemma JoinedLines(lines: seq<Value>, strengths: seq<Value>, areas: seq<Value>, transcript: string,
                    text: string)
    requires ReportShape(lines, strengths, areas, transcript)
    requires JoinValues("\n", lines) == Success(text)
    ensures ReportTextShape(text, strengths, areas)
  {
    var texts := Texts(lines);
    assert text == Join("\n", texts);
    JoinedText(texts, text);
    forall k | 0 <= k < |strengths| ensures Contains(text, Bullet + Show(strengths[k])) {
      JoinContainsEach("\n", texts, 21 + k);
    }
    forall k | 0 <= k < |areas| ensures Contains(text, Bullet + Show(areas[k])) {
      JoinContainsEach("\n", texts, 23 + |strengths| + k);
    }
  }

  /** The joined report lines open with the title and close with the attribution. */
  lemma JoinedText(texts: seq<string>, text: string)
    requires |texts| >= 2 && texts[0] == Title && texts[|texts| - 1] == Attribution
    requires text == Join("\n", texts)
    ensures |text| >= |Title| + |Attribution| + 1
    ensures text[..|Title| + 1] == Title + "\n"
    ensures text[|text| - |Attribution| - 1..] == "\n" + Attribution
  {
    JoinEnds("\n", texts, Title, Attribution);
  }
}
