/** The free compliance quiz (src/types/quiz.ts): a fixed table of ten
    questions, each with weighted options, and the evaluator that turns a
    set of answers into ordered "high" and "medium" flags. */
module Quiz {
  import opened JsSemantics

  /** An answer option. The weight is 0 (no concern), 1 (minor) or 2 (major). */
  datatype QuizOption = QuizOption(value: string, flagWeight: nat)

  datatype QuizQuestion = QuizQuestion(
    id: string,
    field: string,
    flagArea: string,
    flagLabel: string,
    options: seq<QuizOption>)

  /** The answers given so far: question field -> option value. A field that
      was not answered is absent. */
  type QuizAnswers = map<string, string>

  datatype FlagSeverity = High | Medium

  /** The canned texts of the flag descriptions, one high and one medium text
      per flag area, and the two fallback texts used for an area that has no
      entry. `FlagWording` spells each out. */
  datatype FlagText =
    | SmsHigh | SmsMedium | CapaHigh | CapaMedium
    | TrainingHigh | TrainingMedium | ProcessHigh | ProcessMedium
    | WorkflowHigh | WorkflowMedium | ToolControlHigh | ToolControlMedium
    | CalibrationHigh | CalibrationMedium | QualityHigh | QualityMedium
    | ImprovementHigh | ImprovementMedium | RegulatoryHigh | RegulatoryMedium
    | HighFallback | MediumFallback

  datatype FlagDescription = FlagDescription(high: FlagText, medium: FlagText)

  datatype FlaggedArea = FlaggedArea(
    area: string,
    flagLabel: string,  // `label` in the source, a Dafny keyword
    severity: FlagSeverity,
    description: FlagText)

  /** The ten questions, in the order the quiz asks them. */
  const QuizQuestions: seq<QuizQuestion> := [Q1, Q2, Q3, Q4, Q5, Q6, Q7, Q8, Q9, Q10]

  const Q1 := QuizQuestion("q1", "hasSMS", "sms", "Safety Management System",
    [QuizOption("yes_full", 0), QuizOption("yes_partial", 1),
     QuizOption("no", 2), QuizOption("not_sure", 2)])
  const Q2 := QuizQuestion("q2", "capaSystemStatus", "capa", "Corrective Action (CAPA)",
    [QuizOption("fully_documented", 0), QuizOption("partially_documented", 1),
     QuizOption("none", 2), QuizOption("not_sure", 2)])
  const Q3 := QuizQuestion("q3", "trainingTracking", "training", "Training & Competency",
    [QuizOption("digital_system", 0), QuizOption("spreadsheets", 1),
     QuizOption("paper", 2), QuizOption("none", 2)])
  const Q4 := QuizQuestion("q4", "hasDefinedProcess", "process", "Process & Workflow",
    [QuizOption("yes_documented", 0), QuizOption("some_documented", 1),
     QuizOption("ad_hoc", 2), QuizOption("none", 2)])
  const Q5 := QuizQuestion("q5", "workOrderSystem", "workflow", "Work Order Management",
    [QuizOption("digital_mro", 0), QuizOption("basic_software", 1),
     QuizOption("paper", 2), QuizOption("none", 2)])
  const Q6 := QuizQuestion("q6", "toolControlMethod", "toolControl", "Tool Control",
    [QuizOption("electronic", 0), QuizOption("shadow_boards", 1),
     QuizOption("informal", 2), QuizOption("none", 2)])
  const Q7 := QuizQuestion("q7", "calibrationProgram", "calibration", "Calibration Program",
    [QuizOption("formal", 0), QuizOption("informal", 1),
     QuizOption("none", 2), QuizOption("not_applicable", 0)])
  const Q8 := QuizQuestion("q8", "qualityMethodologies", "quality", "Quality Management",
    [QuizOption("multiple", 0), QuizOption("one", 0),
     QuizOption("basic", 1), QuizOption("none", 2)])
  const Q9 := QuizQuestion("q9", "continuousImprovementActive", "improvement", "Continuous Improvement",
    [QuizOption("active_program", 0), QuizOption("occasional", 1),
     QuizOption("no", 2), QuizOption("not_sure", 2)])
  const Q10 := QuizQuestion("q10", "recurringFindings", "regulatory", "Regulatory & Audit Compliance",
    [QuizOption("none", 0), QuizOption("some", 1),
     QuizOption("many", 2), QuizOption("not_sure", 2)])

  /** The description record: flag area -> its high and medium texts. */
  const FlagDescriptions: map<string, FlagDescription> := map[
    "sms" := FlagDescription(SmsHigh, SmsMedium),
    "capa" := FlagDescription(CapaHigh, CapaMedium),
    "training" := FlagDescription(TrainingHigh, TrainingMedium),
    "process" := FlagDescription(ProcessHigh, ProcessMedium),
    "workflow" := FlagDescription(WorkflowHigh, WorkflowMedium),
    "toolControl" := FlagDescription(ToolControlHigh, ToolControlMedium),
    "calibration" := FlagDescription(CalibrationHigh, CalibrationMedium),
    "quality" := FlagDescription(QualityHigh, QualityMedium),
    "improvement" := FlagDescription(ImprovementHigh, ImprovementMedium),
    "regulatory" := FlagDescription(RegulatoryHigh, RegulatoryMedium)
  ]

  /** The exact text of each description. */
  function FlagWording(t: FlagText): string {
    match t
    case SmsHigh => "Your organization may lack a formal Safety Management System. This is a critical gap for aviation operations and a focus area in FAA/EASA oversight."
    case SmsMedium => "Your SMS appears to be in early stages. Strengthening your safety management framework could reduce risk and improve audit readiness."
    case CapaHigh => "Corrective action procedures appear to be missing or undocumented. CAPA is fundamental to regulatory compliance and continuous airworthiness."
    case CapaMedium => "Your CAPA system may have documentation gaps. Ensuring full documentation and implementation helps prevent repeat findings."
    case TrainingHigh => "Training and competency tracking appears informal or absent. Regulatory bodies require documented evidence of technician qualifications."
    case TrainingMedium => "Your training tracking methods could be improved. Digital tracking systems reduce compliance risk and audit preparation time."
    case ProcessHigh => "Core operational processes appear to be undocumented or ad-hoc. Defined, documented processes are essential for quality and regulatory compliance."
    case ProcessMedium => "Some processes may lack formal documentation. Standardizing all core processes improves consistency and audit performance."
    case WorkflowHigh => "Work order management appears to lack a formal system. This can lead to missed tasks, traceability gaps, and compliance exposure."
    case WorkflowMedium => "Your work order system could benefit from modernization. Digital systems improve traceability and reduce errors."
    case ToolControlHigh => "Tool control and accountability appears to have significant gaps. Poor tool control is a leading cause of FOD incidents in aviation."
    case ToolControlMedium => "Your tool control methods could be strengthened. Enhanced tracking reduces FOD risk and improves audit outcomes."
    case CalibrationHigh => "A calibration program appears to be missing. Uncalibrated measuring equipment can lead to quality escapes and regulatory findings."
    case CalibrationMedium => "Your calibration tracking may have gaps. Formal tracking programs help ensure equipment accuracy and compliance."
    case QualityHigh => "No formal quality methodology was identified. Implementing a recognized quality framework is critical for aviation operations."
    case QualityMedium => "Your quality approach may benefit from a more structured methodology. Formal frameworks provide systematic improvement."
    case ImprovementHigh => "Continuous improvement does not appear to be actively pursued. Regulatory bodies increasingly expect evidence of proactive improvement."
    case ImprovementMedium => "Continuous improvement efforts appear reactive rather than proactive. An active program with metrics demonstrates organizational maturity."
    case RegulatoryHigh => "Recurring audit findings suggest systemic issues that need root cause analysis. This is a significant regulatory risk factor."
    case RegulatoryMedium => "Some repeat findings were indicated. Addressing root causes can prevent escalation and improve your compliance posture."
    case HighFallback => "Potential gap identified in this area."
    case MediumFallback => "Room for improvement identified in this area."
  }

  /** `FLAG_DESCRIPTIONS[area]?.high ?? fallback`, and the same for medium. */
  function Describe(area: string, severity: FlagSeverity): (t: FlagText)
    ensures area in FlagDescriptions <==> t != HighFallback && t != MediumFallback
  {
    if area in FlagDescriptions then
      (if severity == High then FlagDescriptions[area].high else FlagDescriptions[area].medium)
    else if severity == High then HighFallback
    else MediumFallback
  }

  /** `options.find(o => o.value === answer)`: the first option with that value. */
  function FindOption(options: seq<QuizOption>, answer: string): (r: Option<QuizOption>)
    ensures r.Some? <==> exists i :: 0 <= i < |options| && options[i].value == answer
    ensures r.Some? ==> r.value in options && r.value.value == answer
    ensures r.Some? ==> exists i :: 0 <= i < |options| && options[i] == r.value &&
                          forall j :: 0 <= j < i ==> options[j].value != answer
  {
    if options == [] then None
    else if options[0].value == answer then Some(options[0])
    else
      var r := FindOption(options[1..], answer);
      assert forall i :: 0 < i < |options| ==> options[i] == options[1..][i - 1];
      r
  }

  /** The flag one question raises for the given answers, if any: an answer
      that is missing, empty, or not one of the question's option values
      raises none; otherwise the selected option's weight decides. */
  function QuestionFlag(answers: QuizAnswers, q: QuizQuestion): (r: Option<FlaggedArea>)
    ensures r.Some? ==> r.value.area == q.flagArea && r.value.flagLabel == q.flagLabel
    ensures r.Some? ==> r.value.description == Describe(q.flagArea, r.value.severity)
  {
    if q.field !in answers || answers[q.field] == "" then None
    else
      match FindOption(q.options, answers[q.field])
      case None => None
      case Some(o) =>
        if o.flagWeight >= 2 then Some(FlaggedArea(q.flagArea, q.flagLabel, High, Describe(q.flagArea, High)))
        else if o.flagWeight == 1 then Some(FlaggedArea(q.flagArea, q.flagLabel, Medium, Describe(q.flagArea, Medium)))
        else None
  }

  /** The flag each question of `qs` raises, question by question. */
  function Raised(answers: QuizAnswers, qs: seq<QuizQuestion>): (r: seq<Option<FlaggedArea>>)
    ensures |r| == |qs| && forall k :: 0 <= k < |qs| ==> r[k] == QuestionFlag(answers, qs[k])
  {
    seq(|qs|, k requires 0 <= k < |qs| => QuestionFlag(answers, qs[k]))
  }

  function Pushed(o: Option<FlaggedArea>): (r: seq<FlaggedArea>)
    ensures |r| <= 1
  {
    if o.Some? then [o.value] else []
  }

  /** The raised flags in order, leaving out the questions that raised none. */
  function Somes(os: seq<Option<FlaggedArea>>): (r: seq<FlaggedArea>)
    ensures |r| <= |os|
  {
    if os == [] then [] else Somes(os[..|os| - 1]) + Pushed(os[|os| - 1])
  }

  /** The flags the questions `qs` raise, in question order. */
  function Flags(answers: QuizAnswers, qs: seq<QuizQuestion>): (r: seq<FlaggedArea>)
    ensures |r| <= |qs|
  {
    Somes(Raised(answers, qs))
  }

  /** `computeFlaggedAreas`: one pass over the question table, pushing the
      flag of each question that raises one. */
  method ComputeFlaggedAreas(answers: QuizAnswers) returns (flags: seq<FlaggedArea>)
    ensures flags == Flags(answers, QuizQuestions)
    ensures |flags| <= |QuizQuestions|
  {
    flags := CollectFlags(answers, QuizQuestions);
  }

  /** The loop of `computeFlaggedAreas` over a question table `qs`. */
  method CollectFlags(answers: QuizAnswers, qs: seq<QuizQuestion>) returns (flags: seq<FlaggedArea>)
    ensures flags == Flags(answers, qs)
  {
    flags := [];
    for i := 0 to |qs|
      invariant flags == Somes(Raised(answers, qs[..i]))
    {
      RaisedSnoc(answers, qs, i);
      flags := VisitQuestion(answers, qs[i], flags);
    }
    assert qs[..|qs|] == qs;
  }

  /** One more question adds its own flag, if any, at the end. */
  lemma RaisedSnoc(answers: QuizAnswers, qs: seq<QuizQuestion>, i: nat)
    requires i < |qs|
    ensures Somes(Raised(answers, qs[..i + 1])) == Somes(Raised(answers, qs[..i])) + Pushed(QuestionFlag(answers, qs[i]))
  {
    var longer := Raised(answers, qs[..i + 1]);
    assert longer[..i] == Raised(answers, qs[..i]);
    assert longer[i] == QuestionFlag(answers, qs[i]);
  }

  /** The body of the loop of `computeFlaggedAreas` for one question: skip a
      missing or empty answer and an answer that is no option's value, else
      push a high flag for weight 2 or more and a medium flag for weight 1. */
  method VisitQuestion(answers: QuizAnswers, question: QuizQuestion, flags0: seq<FlaggedArea>)
    returns (flags: seq<FlaggedArea>)
    ensures flags == flags0 + Pushed(QuestionFlag(answers, question))
  {
    flags := flags0;
    if question.field !in answers || answers[question.field] == "" {
      return;
    }
    var answer := answers[question.field];
    var selectedOption := FindOption(question.options, answer);
    if selectedOption.None? {
      return;
    }
    if selectedOption.value.flagWeight >= 2 {
      var desc := if question.flagArea in FlagDescriptions then FlagDescriptions[question.flagArea].high else HighFallback;
      flags := flags + [FlaggedArea(question.flagArea, question.flagLabel, High, desc)];
    } else if selectedOption.value.flagWeight == 1 {
      var desc := if question.flagArea in FlagDescriptions then FlagDescriptions[question.flagArea].medium else MediumFallback;
      flags := flags + [FlaggedArea(question.flagArea, question.flagLabel, Medium, desc)];
    }
  }

  // ----- Properties of the evaluator on any list of raised flags -----

  function FlagAreas(flags: seq<FlaggedArea>): (r: seq<string>)
    ensures |r| == |flags| && forall i :: 0 <= i < |flags| ==> r[i] == flags[i].area
  {
    seq(|flags|, i requires 0 <= i < |flags| => flags[i].area)
  }

  function QuestionAreas(qs: seq<QuizQuestion>): (r: seq<string>)
    ensures |r| == |qs| && forall i :: 0 <= i < |qs| ==> r[i] == qs[i].flagArea
  {
    seq(|qs|, i requires 0 <= i < |qs| => qs[i].flagArea)
  }

  predicate DistinctAreas(qs: seq<QuizQuestion>) {
    forall i, j :: 0 <= i < j < |qs| ==> qs[i].flagArea != qs[j].flagArea
  }

  /** Option values are non-empty and no two options of a question share one. */
  predicate DistinctValues(options: seq<QuizOption>) {
    && (forall i :: 0 <= i < |options| ==> options[i].value != "")
    && (forall i, j :: 0 <= i < j < |options| ==> options[i].value != options[j].value)
  }

  /** Each raised flag carries the area at the same position of `areas`. */
  predicate AreasMatch(os: seq<Option<FlaggedArea>>, areas: seq<string>) {
    |os| == |areas| && forall k :: 0 <= k < |os| && os[k].Some? ==> os[k].value.area == areas[k]
  }

  /** A raised flag is in the output. */
  lemma {:induction false} RaisedIsListed(os: seq<Option<FlaggedArea>>, k: nat)
    requires k < |os| && os[k].Some?
    ensures os[k].value in Somes(os)
  {
    var init := os[..|os| - 1];
    if k < |init| {
      assert init[k] == os[k];
      RaisedIsListed(init, k);
    }
  }

  /** Every flag in the output was raised at some position, returned as `k`. */
  lemma {:induction false} ListedIsRaised(os: seq<Option<FlaggedArea>>, f: FlaggedArea) returns (k: nat)
    requires f in Somes(os)
    ensures k < |os| && os[k] == Some(f)
  {
    var init := os[..|os| - 1];
    if f in Somes(init) {
      k := ListedIsRaised(init, f);
      assert init[k] == os[k];
    } else {
      k := |os| - 1;
    }
  }

  /** When every position raises a flag, the output is those flags in order. */
  lemma {:induction false} AllRaised(os: seq<Option<FlaggedArea>>)
    requires forall k :: 0 <= k < |os| ==> os[k].Some?
    ensures |Somes(os)| == |os|
    ensures forall k :: 0 <= k < |os| ==> Somes(os)[k] == os[k].value
  {
    if os != [] {
      var init := os[..|os| - 1];
      assert forall k :: 0 <= k < |init| ==> init[k] == os[k];
      AllRaised(init);
    }
  }

  /** When no position raises a flag, the output is empty. */
  lemma {:induction false} NoneRaised(os: seq<Option<FlaggedArea>>)
    requires forall k :: 0 <= k < |os| ==> os[k].None?
    ensures Somes(os) == []
  {
    if os != [] {
      var init := os[..|os| - 1];
      assert forall k :: 0 <= k < |init| ==> init[k] == os[k];
      NoneRaised(init);
    }
  }

  /** The areas of the output keep the order of the positions that raised them. */
  lemma {:induction false} RaisedInOrder(os: seq<Option<FlaggedArea>>, areas: seq<string>)
    requires AreasMatch(os, areas)
    ensures IsSubsequence(FlagAreas(Somes(os)), areas)
  {
    if os == [] {
      assert FlagAreas(Somes(os)) == [];
    } else {
      var init, last := os[..|os| - 1], os[|os| - 1];
      var head, final := areas[..|areas| - 1], areas[|areas| - 1];
      var prefix, pushed := Somes(init), Pushed(last);
      assert IsSubsequence(FlagAreas(prefix) + FlagAreas(pushed), head + [final]) by {
        assert AreasMatch(init, head) by {
          assert forall k :: 0 <= k < |init| ==> init[k] == os[k] && head[k] == areas[k];
        }
        RaisedInOrder(init, head);
        assert IsSubsequence(FlagAreas(pushed), [final]) by {
          if pushed != [] {
            assert FlagAreas(pushed)[1..] == [] && [final][1..] == [];
          }
        }
        SubsequenceAppend(FlagAreas(prefix), head, FlagAreas(pushed), [final]);
      }
      assert FlagAreas(Somes(os)) == FlagAreas(prefix) + FlagAreas(pushed) by {
        FlagAreasAppend(prefix, pushed);
      }
      assert areas == head + [final];
    }
  }

  lemma FlagAreasAppend(a: seq<FlaggedArea>, b: seq<FlaggedArea>)
    ensures FlagAreas(a + b) == FlagAreas(a) + FlagAreas(b)
  {
  }

  /** Distinct areas at the raising positions give distinct areas in the output. */
  lemma {:induction false} RaisedDistinct(os: seq<Option<FlaggedArea>>, areas: seq<string>)
    requires AreasMatch(os, areas)
    requires forall i, j :: 0 <= i < j < |areas| ==> areas[i] != areas[j]
    ensures forall i, j :: 0 <= i < j < |Somes(os)| ==> Somes(os)[i].area != Somes(os)[j].area
  {
    if os != [] {
      var init, last := os[..|os| - 1], os[|os| - 1];
      var head := areas[..|areas| - 1];
      var prefix := Somes(init);
      assert forall k :: 0 <= k < |init| ==> init[k] == os[k] && head[k] == areas[k];
      RaisedDistinct(init, head);
      if last.Some? {
        forall i | 0 <= i < |prefix|
          ensures prefix[i].area != last.value.area
        {
          var k := ListedIsRaised(init, prefix[i]);
          assert prefix[i].area == areas[k];
        }
      }
    }
  }

  /** With distinct, non-empty option values, the flag of a question is high exactly when
      the answer is the value of a weight-2-or-more option, and medium exactly
      when it is the value of a weight-1 option. */
  lemma QuestionFlagSeverity(answers: QuizAnswers, q: QuizQuestion)
    requires DistinctValues(q.options)
    ensures (QuestionFlag(answers, q).Some? && QuestionFlag(answers, q).value.severity == High) <==>
            (q.field in answers && exists o :: o in q.options && o.value == answers[q.field] && o.flagWeight >= 2)
    ensures (QuestionFlag(answers, q).Some? && QuestionFlag(answers, q).value.severity == Medium) <==>
            (q.field in answers && exists o :: o in q.options && o.value == answers[q.field] && o.flagWeight == 1)
  {
    if q.field in answers {
      var answer := answers[q.field];
      assert forall o :: o in q.options ==> o.value != "";
      forall o | o in q.options && o.value == answer
        ensures FindOption(q.options, answer) == Some(o)
      {
        var r := FindOption(q.options, answer);
        var i :| 0 <= i < |q.options| && q.options[i] == r.value &&
                   forall j :: 0 <= j < i ==> q.options[j].value != answer;
        var m :| 0 <= m < |q.options| && q.options[m] == o;
        assert !(m < i);
        assert !(i < m);
      }
    }
  }

  // ----- Properties of the quiz table -----

  /** Within each question the option values are distinct and non-empty. */
  lemma OptionValuesDistinct1() ensures DistinctValues(Q1.options) { }
  lemma OptionValuesDistinct2() ensures DistinctValues(Q2.options) { }
  lemma OptionValuesDistinct3() ensures DistinctValues(Q3.options) { }
  lemma OptionValuesDistinct4() ensures DistinctValues(Q4.options) { }
  lemma OptionValuesDistinct5() ensures DistinctValues(Q5.options) { }
  lemma OptionValuesDistinct6() ensures DistinctValues(Q6.options) { }
  lemma OptionValuesDistinct7() ensures DistinctValues(Q7.options) { }
  lemma OptionValuesDistinct8() ensures DistinctValues(Q8.options) { }
  lemma OptionValuesDistinct9() ensures DistinctValues(Q9.options) { }
  lemma OptionValuesDistinct10() ensures DistinctValues(Q10.options) { }

  /** The ten flag areas are distinct. */
  lemma AreasDistinct()
    ensures DistinctAreas(QuizQuestions)
  {
  }

  /** Facts about the question table that the lemmas below rely on. */
  lemma QuestionTableFacts()
    ensures |QuizQuestions| == 10
    ensures DistinctAreas(QuizQuestions)
    ensures forall k :: 0 <= k < 10 ==> DistinctValues(QuizQuestions[k].options)
    ensures forall k :: 0 <= k < 10 ==> QuizQuestions[k].flagArea in FlagDescriptions
    ensures forall k :: 0 <= k < 10 ==> |QuizQuestions[k].options| == 4 && QuizQuestions[k].options[0].flagWeight == 0
  {
    OptionValuesDistinct1();
    OptionValuesDistinct2();
    OptionValuesDistinct3();
    OptionValuesDistinct4();
    OptionValuesDistinct5();
    OptionValuesDistinct6();
    OptionValuesDistinct7();
    OptionValuesDistinct8();
    OptionValuesDistinct9();
    OptionValuesDistinct10();
    AreasDistinct();
  }

  /** `computeFlaggedAreas` raises at most one flag per question, in question
      order, and never two flags for one area. */
  lemma FlagsInQuestionOrder(answers: QuizAnswers)
    ensures |Flags(answers, QuizQuestions)| <= 10
    ensures IsSubsequence(FlagAreas(Flags(answers, QuizQuestions)), QuestionAreas(QuizQuestions))
    ensures forall i, j :: 0 <= i < j < |Flags(answers, QuizQuestions)| ==>
              Flags(answers, QuizQuestions)[i].area != Flags(answers, QuizQuestions)[j].area
  {
    QuestionTableFacts();
    var os, areas := Raised(answers, QuizQuestions), QuestionAreas(QuizQuestions);
    assert AreasMatch(os, areas);
    RaisedInOrder(os, areas);
    RaisedDistinct(os, areas);
  }

  /** Question k's area is flagged high exactly when its answer is an option
      of weight 2 or more, and medium exactly when it is an option of weight 1. */
  lemma FlagSeverityIff(answers: QuizAnswers, k: nat)
    requires k < |QuizQuestions|
    ensures (exists f :: f in Flags(answers, QuizQuestions) && f.area == QuizQuestions[k].flagArea && f.severity == High) <==>
            (QuizQuestions[k].field in answers &&
             exists o :: o in QuizQuestions[k].options && o.value == answers[QuizQuestions[k].field] && o.flagWeight >= 2)
    ensures (exists f :: f in Flags(answers, QuizQuestions) && f.area == QuizQuestions[k].flagArea && f.severity == Medium) <==>
            (QuizQuestions[k].field in answers &&
             exists o :: o in QuizQuestions[k].options && o.value == answers[QuizQuestions[k].field] && o.flagWeight == 1)
  {
    QuestionTableFacts();
    var q, os := QuizQuestions[k], Raised(answers, QuizQuestions);
    QuestionFlagSeverity(answers, q);
    forall f | f in Flags(answers, QuizQuestions) && f.area == q.flagArea
      ensures QuestionFlag(answers, q) == Some(f)
    {
      var j := ListedIsRaised(os, f);
      assert QuizQuestions[j].flagArea == q.flagArea;
      assert !(j < k) && !(k < j);
    }
    if QuestionFlag(answers, q).Some? {
      RaisedIsListed(os, k);
    }
  }

  /** A question whose answer is missing, empty or not one of its option values
      raises no flag. */
  lemma SkippedAnswerRaisesNothing(answers: QuizAnswers, k: nat)
    requires k < |QuizQuestions|
    requires QuizQuestions[k].field !in answers || answers[QuizQuestions[k].field] == "" ||
             forall o :: o in QuizQuestions[k].options ==> o.value != answers[QuizQuestions[k].field]
    ensures forall f :: f in Flags(answers, QuizQuestions) ==> f.area != QuizQuestions[k].flagArea
  {
    QuestionTableFacts();
    var q, os := QuizQuestions[k], Raised(answers, QuizQuestions);
    assert QuestionFlag(answers, q) == None;
    forall f | f in Flags(answers, QuizQuestions)
      ensures f.area != q.flagArea
    {
      var j := ListedIsRaised(os, f);
      assert j != k;
    }
  }

  /** Every flag carries the canned text of its area and severity; the
      fallback texts never appear. */
  lemma CannedDescriptions(answers: QuizAnswers)
    ensures forall f :: f in Flags(answers, QuizQuestions) ==>
              f.area in FlagDescriptions &&
              f.description == (if f.severity == High then FlagDescriptions[f.area].high else FlagDescriptions[f.area].medium)
  {
    QuestionTableFacts();
    var os := Raised(answers, QuizQuestions);
    forall f | f in Flags(answers, QuizQuestions)
      ensures f.area in FlagDescriptions && f.description == Describe(f.area, f.severity)
    {
      var k := ListedIsRaised(os, f);
      assert QuestionFlag(answers, QuizQuestions[k]) == Some(f);
    }
  }

  /** Answering every question with its first option raises no flag. */
  lemma FirstOptionsRaiseNothing(answers: QuizAnswers)
    requires forall k :: 0 <= k < |QuizQuestions| ==>
               QuizQuestions[k].field in answers && answers[QuizQuestions[k].field] == QuizQuestions[k].options[0].value
    ensures Flags(answers, QuizQuestions) == []
  {
    QuestionTableFacts();
    var os := Raised(answers, QuizQuestions);
    forall k | 0 <= k < |os|
      ensures os[k].None?
    {
      QuestionFlagSeverity(answers, QuizQuestions[k]);
    }
    NoneRaised(os);
  }

  /** Choosing a weight-2 option for every question raises ten high flags,
      one per question, in question order. */
  lemma MajorOptionsRaiseTenHighFlags(answers: QuizAnswers)
    requires forall k :: 0 <= k < |QuizQuestions| ==>
               QuizQuestions[k].field in answers &&
               exists o :: o in QuizQuestions[k].options && o.value == answers[QuizQuestions[k].field] && o.flagWeight == 2
    ensures |Flags(answers, QuizQuestions)| == 10
    ensures forall k :: 0 <= k < 10 ==>
              Flags(answers, QuizQuestions)[k].area == QuizQuestions[k].flagArea &&
              Flags(answers, QuizQuestions)[k].severity == High
  {
    QuestionTableFacts();
    var os := Raised(answers, QuizQuestions);
    forall k | 0 <= k < |os|
      ensures os[k].Some? && os[k].value.severity == High
    {
      QuestionFlagSeverity(answers, QuizQuestions[k]);
    }
    AllRaised(os);
  }
}
