/** The free compliance quiz page (src/components/QuizPage.tsx): answering
    the ten questions one at a time, the lead form, the record of answers
    sent with the lead, and the counts shown with the results. */
module QuizPage {
  import opened JsSemantics
  import opened Quiz
  import opened LeadValidation
  import AssessmentStore

  // ----- The page state -----

  datatype Step = QuizStep | LeadStep | ResultsStep

  /** The state of the quiz page. `pendingAdvances` counts the timers that
      `selectAnswer` has started and that have not fired yet. */
  class QuizPageState {
    var step: Step
    var currentQuestion: int
    var pendingAdvances: nat
    var answers: QuizAnswers
    var flaggedAreas: seq<FlaggedArea>
    const lead: LeadForm

    /** The current question exists: `QUIZ_QUESTIONS[currentQuestion]` is
        defined, which rendering the page requires. */
    predicate Valid()
      reads this
    {
      0 <= currentQuestion < |QuizQuestions|
    }

    constructor()
      ensures step == QuizStep && currentQuestion == 0 && pendingAdvances == 0
      ensures answers == map[] && flaggedAreas == []
      ensures fresh(lead) && lead.leadInfo == LeadInfo("", "", "", "", false) && lead.leadErrors == map[]
      ensures Valid()
    {
      step := QuizStep;
      currentQuestion := 0;
      pendingAdvances := 0;
      answers := map[];
      flaggedAreas := [];
      lead := new LeadForm();
    }

    /** `selectAnswer`: record the answer of the current question and, unless
        it is the last, start the timer that moves to the next one. */
    method SelectAnswer(value: string)
      requires Valid()
      modifies this
      ensures answers == old(answers)[QuizQuestions[old(currentQuestion)].field := value]
      ensures currentQuestion == old(currentQuestion)
      ensures pendingAdvances == old(pendingAdvances) + (if old(currentQuestion) < |QuizQuestions| - 1 then 1 else 0)
      ensures step == old(step)
      ensures flaggedAreas == old(flaggedAreas)
    {
      var field := QuizQuestions[currentQuestion].field;
      answers := answers[field := value];
      if currentQuestion < |QuizQuestions| - 1 {
        pendingAdvances := pendingAdvances + 1;
      }
    }

    /** One timer started by `selectAnswer` fires: `p => p + 1`. */
    method AdvanceTimerFires()
      requires pendingAdvances > 0
      modifies this
      ensures currentQuestion == old(currentQuestion) + 1
      ensures pendingAdvances == old(pendingAdvances) - 1
      ensures step == old(step) && answers == old(answers)
      ensures flaggedAreas == old(flaggedAreas)
    {
      currentQuestion := currentQuestion + 1;
      pendingAdvances := pendingAdvances - 1;
    }

    /** The timer's update as intended: never past the last question. */
    method AdvanceTimerFiresClamped()
      requires pendingAdvances > 0
      modifies this
      ensures currentQuestion == if old(currentQuestion) + 1 < |QuizQuestions| - 1
                                 then old(currentQuestion) + 1 else |QuizQuestions| - 1
      ensures old(Valid()) ==> Valid()
      ensures pendingAdvances == old(pendingAdvances) - 1
      ensures step == old(step) && answers == old(answers)
      ensures flaggedAreas == old(flaggedAreas)
    {
      currentQuestion := if currentQuestion + 1 < |QuizQuestions| - 1 then currentQuestion + 1 else |QuizQuestions| - 1;
      pendingAdvances := pendingAdvances - 1;
    }

    /** The Back button: one question back, never below the first. */
    method Back()
      modifies this
      ensures currentQuestion == AssessmentStore.PreviousStepOf(old(currentQuestion))
      ensures old(Valid()) ==> Valid()
      ensures step == old(step) && pendingAdvances == old(pendingAdvances)
      ensures answers == old(answers)
      ensures flaggedAreas == old(flaggedAreas)
    {
      currentQuestion := AssessmentStore.PreviousStepOf(currentQuestion);
    }

    /** The Next button, shown before the last question and enabled once the
        current question has an answer. */
    method NextQuestion()
      requires 0 <= currentQuestion < |QuizQuestions| - 1
      requires QuizQuestions[currentQuestion].field in answers && answers[QuizQuestions[currentQuestion].field] != ""
      modifies this
      ensures currentQuestion == old(currentQuestion) + 1 && Valid()
      ensures step == old(step) && pendingAdvances == old(pendingAdvances)
      ensures answers == old(answers)
      ensures flaggedAreas == old(flaggedAreas)
    {
      currentQuestion := currentQuestion + 1;
    }

    /** A question dot: jump to question `i`, whose dot is drawn for each
        of the questions. */
    method JumpToQuestion(i: int)
      requires 0 <= i < |QuizQuestions|
      modifies this
      ensures currentQuestion == i && Valid()
      ensures step == old(step) && pendingAdvances == old(pendingAdvances)
      ensures answers == old(answers)
      ensures flaggedAreas == old(flaggedAreas)
    {
      currentQuestion := i;
    }

    /** `goToLeadCapture`. */
    method GoToLeadCapture()
      modifies this
      ensures step == LeadStep
      ensures currentQuestion == old(currentQuestion) && pendingAdvances == old(pendingAdvances)
      ensures answers == old(answers)
      ensures flaggedAreas == old(flaggedAreas)
    {
      step := LeadStep;
    }

    /** The lead form's "Back to quiz" button. */
    method BackToQuiz()
      modifies this
      ensures step == QuizStep
      ensures currentQuestion == old(currentQuestion) && pendingAdvances == old(pendingAdvances)
      ensures answers == old(answers)
      ensures flaggedAreas == old(flaggedAreas)
    {
      step := QuizStep;
    }
  }

  /** Two quick clicks on an answer of the second-to-last question start two
      timers, and when both fire the page is past the last question: the
      current question no longer exists. */
  method DoubleSelectOverruns(page: QuizPageState, value: string)
    requires page.currentQuestion == |QuizQuestions| - 2
    modifies page
    ensures page.currentQuestion == |QuizQuestions| && !page.Valid()
  {
    page.SelectAnswer(value);
    page.SelectAnswer(value);
    page.AdvanceTimerFires();
    page.AdvanceTimerFires();
  }

  /** With the clamped timer the same clicks stop at the last question. */
  method DoubleSelectClamped(page: QuizPageState, value: string)
    requires page.currentQuestion == |QuizQuestions| - 2
    modifies page
    ensures page.currentQuestion == |QuizQuestions| - 1 && page.Valid()
  {
    page.SelectAnswer(value);
    page.SelectAnswer(value);
    page.AdvanceTimerFiresClamped();
    page.AdvanceTimerFiresClamped();
  }

  // ----- allAnswered -----

  /** `allAnswered`: every question has a non-empty (truthy) answer. */
  predicate AllAnswered(answers: QuizAnswers) {
    forall k :: 0 <= k < |QuizQuestions| ==>
      QuizQuestions[k].field in answers && Truthy(Str(answers[QuizQuestions[k].field]))
  }

  /** A skipped position makes the output shorter than the input. */
  lemma {:induction false} SkippedShortens(os: seq<Option<FlaggedArea>>, k: nat)
    requires k < |os| && os[k].None?
    ensures |Somes(os)| < |os|
  {
    var init := os[..|os| - 1];
    if k < |init| {
      assert init[k] == os[k];
      SkippedShortens(init, k);
    }
  }

  /** While a question is unanswered, fewer than ten areas can be flagged. */
  lemma UnansweredLimitsFlags(answers: QuizAnswers)
    requires !AllAnswered(answers)
    ensures |Flags(answers, QuizQuestions)| < |QuizQuestions|
  {
    var k :| 0 <= k < |QuizQuestions| &&
      !(QuizQuestions[k].field in answers && Truthy(Str(answers[QuizQuestions[k].field])));
    var os := Raised(answers, QuizQuestions);
    assert os[k] == QuestionFlag(answers, QuizQuestions[k]) == None;
    SkippedShortens(os, k);
  }

  // ----- The submitted answers record -----

  /** The record built from the entries of `answers`: each entry whose value
      is a string, a later entry of the same key overwriting an earlier one. */
  function StringEntries(entries: seq<(string, JsValue)>): (r: map<string, string>)
    ensures forall k :: k in r ==> exists i :: 0 <= i < |entries| && entries[i].0 == k && entries[i].1.Str?
  {
    if entries == [] then map[]
    else
      var last := entries[|entries| - 1];
      var init := entries[..|entries| - 1];
      var r0 := StringEntries(init);
      assert forall i :: 0 <= i < |init| ==> init[i] == entries[i];
      if last.1.Str? then r0[last.0 := last.1.s] else r0
  }

  /** The loop that copies the string-valued entries into the record. */
  method BuildAnswersRecord(entries: seq<(string, JsValue)>) returns (record: map<string, string>)
    ensures record == StringEntries(entries)
  {
    record := map[];
    for i := 0 to |entries|
      invariant record == StringEntries(entries[..i])
    {
      var (key, value) := entries[i];
      assert entries[..i + 1][..i] == entries[..i];
      if value.Str? {
        record := record[key := value.s];
      }
    }
    assert entries[..|entries|] == entries;
  }

  /** With distinct keys every string-valued entry is kept with its value. */
  lemma {:induction false} StringEntriesKeepStrings(entries: seq<(string, JsValue)>)
    requires forall i, j :: 0 <= i < j < |entries| ==> entries[i].0 != entries[j].0
    ensures forall i :: 0 <= i < |entries| && entries[i].1.Str? ==>
              entries[i].0 in StringEntries(entries) && StringEntries(entries)[entries[i].0] == entries[i].1.s
  {
    if entries != [] {
      var init := entries[..|entries| - 1];
      assert forall i :: 0 <= i < |init| ==> init[i] == entries[i];
      StringEntriesKeepStrings(init);
    }
  }

  /** The entries of a record of strings give that record back. */
  lemma AnswersRecordKeepsAnswers(answers: QuizAnswers, entries: seq<(string, JsValue)>)
    requires forall i, j :: 0 <= i < j < |entries| ==> entries[i].0 != entries[j].0
    requires forall i :: 0 <= i < |entries| ==> entries[i].0 in answers && entries[i].1 == Str(answers[entries[i].0])
    requires forall k :: k in answers ==> exists i :: 0 <= i < |entries| && entries[i].0 == k
    ensures StringEntries(entries) == answers
  {
    StringEntriesKeepStrings(entries);
  }

  // ----- The results -----

  /** `highFlags` and `mediumFlags`. */
  function HighFlags(flags: seq<FlaggedArea>): (r: seq<FlaggedArea>)
    ensures forall f :: f in r <==> f in flags && f.severity == High
  {
    Filter(flags, (f: FlaggedArea) => f.severity == High)
  }

  function MediumFlags(flags: seq<FlaggedArea>): (r: seq<FlaggedArea>)
    ensures forall f :: f in r <==> f in flags && f.severity == Medium
  {
    Filter(flags, (f: FlaggedArea) => f.severity == Medium)
  }

  /** Every flag is in exactly one of the two lists, each in the original order. */
  lemma SeverityPartition(flags: seq<FlaggedArea>)
    ensures |HighFlags(flags)| + |MediumFlags(flags)| == |flags|
    ensures IsSubsequence(HighFlags(flags), flags) && IsSubsequence(MediumFlags(flags), flags)
  {
    FilterPartition(flags, (f: FlaggedArea) => f.severity == High, (f: FlaggedArea) => f.severity == Medium);
    FilterIsSubsequence(flags, (f: FlaggedArea) => f.severity == High);
    FilterIsSubsequence(flags, (f: FlaggedArea) => f.severity == Medium);
  }

  /** The "areas clear" count. */
  function AreasClear(flaggedAreas: seq<FlaggedArea>): int {
    |QuizQuestions| - |flaggedAreas|
  }

  /** For the flags of any answers the count is between 0 and 10, and it is
      10 exactly when nothing is flagged. */
  lemma AreasClearBounds(answers: QuizAnswers)
    ensures 0 <= AreasClear(Flags(answers, QuizQuestions)) <= 10
    ensures AreasClear(Flags(answers, QuizQuestions)) == 10 <==> Flags(answers, QuizQuestions) == []
  {
  }
}
