/** The assessment store (src/store/assessmentStore.ts): the record being
    filled in, the wizard's step counter, the last analysis result and two
    busy flags. Each action replaces some of the fields and leaves the others
    as they were. */
module AssessmentStore {
  import opened JsSemantics
  import opened AssessmentTypes

  /** The nine multi-select fields the initial record starts out with. */
  const InitialListFields: seq<string> := [
    "certifications", "aircraftCategories", "servicesOffered",
    "oemAuthorizations", "specialCapabilities", "qualityMethodologies",
    "challenges", "productionBottlenecks", "certificateActions"
  ]

  /** `initialAssessmentData`: every one of the nine list fields set to `[]`. */
  function InitialAssessmentData(): (r: AssessmentData)
    ensures r.Keys == set f | f in InitialListFields
    ensures forall f :: f in r ==> r[f] == Texts([])
  {
    map f | f in InitialListFields :: Texts([])
  }

  /** `{ ...current, ...update }`: the keys of `update` win, every other key
      keeps its value. */
  function Merge(current: AssessmentData, update: AssessmentData): (r: AssessmentData)
    ensures r.Keys == current.Keys + update.Keys
    ensures forall k :: k in update ==> r[k] == update[k]
    ensures forall k :: k in current && k !in update ==> r[k] == current[k]
  {
    current + update
  }

  /** `Math.max(0, step - 1)`. */
  function PreviousStepOf(step: int): (r: int)
    ensures r >= 0
    ensures step >= 1 ==> r == step - 1
    ensures step < 1 ==> r == 0
  {
    if step - 1 > 0 then step - 1 else 0
  }

  /** Merging the same update twice is merging it once. */
  lemma MergeIdempotent(current: AssessmentData, update: AssessmentData)
    ensures Merge(Merge(current, update), update) == Merge(current, update)
  {
  }

  /** Merging the empty record changes nothing. */
  lemma MergeEmpty(current: AssessmentData)
    ensures Merge(current, map[]) == current
  {
  }

  /** Two merges in a row are one merge of both updates, where the keys of
      the later update win. */
  lemma MergeLaterWins(current: AssessmentData, first: AssessmentData, second: AssessmentData)
    ensures Merge(Merge(current, first), second) == Merge(current, Merge(first, second))
  {
  }

  /** Going back after going forward returns to a non-negative step, and
      going forward after going back from a positive step returns to it. */
  lemma StepRoundTrips(step: int)
    ensures step >= 0 ==> PreviousStepOf(step + 1) == step
    ensures step >= 1 ==> PreviousStepOf(step) + 1 == step
  {
  }

  /** Repeated going back ends at 0 and stays there. */
  lemma {:induction false} PreviousStepsReachZero(step: int, times: nat)
    requires times >= step && (times > 0 || step == 0)
    ensures RepeatPrevious(step, times) == 0
    decreases times
  {
    if times > 0 {
      PreviousStepsReachZero(PreviousStepOf(step), times - 1);
    }
  }

  /** `previousStep` applied `times` times: `times` steps back, clipped at 0. */
  function RepeatPrevious(step: int, times: nat): (r: int)
    ensures times == 0 ==> r == step
    ensures times > 0 ==> r == if step - times > 0 then step - times else 0
    decreases times
  {
    if times == 0 then step else RepeatPrevious(PreviousStepOf(step), times - 1)
  }

  /** The zustand store. */
  class Store {
    var assessmentData: AssessmentData
    var currentStep: int
    var analysisResult: Option<GapAnalysisResult>
    var isAnalyzing: bool
    var isGeneratingPDF: bool

    /** The initial state. */
    constructor()
      ensures assessmentData == InitialAssessmentData()
      ensures currentStep == 0 && analysisResult == None
      ensures !isAnalyzing && !isGeneratingPDF
    {
      assessmentData := InitialAssessmentData();
      currentStep := 0;
      analysisResult := None;
      isAnalyzing := false;
      isGeneratingPDF := false;
    }

    /** `updateAssessmentData`. */
    method UpdateAssessmentData(data: AssessmentData)
      modifies this
      ensures assessmentData == Merge(old(assessmentData), data)
      ensures currentStep == old(currentStep) && analysisResult == old(analysisResult)
      ensures isAnalyzing == old(isAnalyzing) && isGeneratingPDF == old(isGeneratingPDF)
    {
      assessmentData := Merge(assessmentData, data);
    }

    /** `resetAssessmentData`. */
    method ResetAssessmentData()
      modifies this
      ensures assessmentData == InitialAssessmentData()
      ensures currentStep == old(currentStep) && analysisResult == old(analysisResult)
      ensures isAnalyzing == old(isAnalyzing) && isGeneratingPDF == old(isGeneratingPDF)
    {
      assessmentData := InitialAssessmentData();
    }

    /** `setCurrentStep`: any number is accepted. */
    method SetCurrentStep(step: int)
      modifies this
      ensures currentStep == step
      ensures assessmentData == old(assessmentData) && analysisResult == old(analysisResult)
      ensures isAnalyzing == old(isAnalyzing) && isGeneratingPDF == old(isGeneratingPDF)
    {
      currentStep := step;
    }

    /** `nextStep`. */
    method NextStep()
      modifies this
      ensures currentStep == old(currentStep) + 1
      ensures assessmentData == old(assessmentData) && analysisResult == old(analysisResult)
      ensures isAnalyzing == old(isAnalyzing) && isGeneratingPDF == old(isGeneratingPDF)
    {
      currentStep := currentStep + 1;
    }

    /** `previousStep`: never goes below 0. */
    method PreviousStep()
      modifies this
      ensures currentStep == PreviousStepOf(old(currentStep)) && currentStep >= 0
      ensures assessmentData == old(assessmentData) && analysisResult == old(analysisResult)
      ensures isAnalyzing == old(isAnalyzing) && isGeneratingPDF == old(isGeneratingPDF)
    {
      currentStep := PreviousStepOf(currentStep);
    }

    /** `setAnalysisResult`: only the result changes. */
    method SetAnalysisResult(result: GapAnalysisResult)
      modifies this
      ensures analysisResult == Some(result)
      ensures assessmentData == old(assessmentData) && currentStep == old(currentStep)
      ensures isAnalyzing == old(isAnalyzing) && isGeneratingPDF == old(isGeneratingPDF)
    {
      analysisResult := Some(result);
    }

    /** `setIsAnalyzing`. */
    method SetIsAnalyzing(analyzing: bool)
      modifies this
      ensures isAnalyzing == analyzing
      ensures assessmentData == old(assessmentData) && currentStep == old(currentStep)
      ensures analysisResult == old(analysisResult) && isGeneratingPDF == old(isGeneratingPDF)
    {
      isAnalyzing := analyzing;
    }

    /** `setIsGeneratingPDF`. */
    method SetIsGeneratingPDF(generating: bool)
      modifies this
      ensures isGeneratingPDF == generating
      ensures assessmentData == old(assessmentData) && currentStep == old(currentStep)
      ensures analysisResult == old(analysisResult) && isAnalyzing == old(isAnalyzing)
    {
      isGeneratingPDF := generating;
    }
  }
}
