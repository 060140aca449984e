/** The thirteen-step assessment wizard (src/components/AssessmentForm.tsx).
    The wizard edits a local copy of the record; every navigation button
    first writes that copy into the store and then moves the store's step. */
module AssessmentForm {
  import opened JsSemantics
  import opened AssessmentTypes
  import opened AssessmentStore

  /** The ids of `SECTIONS`, in the order of the sidebar. */
  const SectionIds: seq<int> := [0, 1, 2, 3, 4, 5, 6, 7, 8, 9, 10, 11, 12]

  /** A section's id is its position in the sidebar. */
  lemma SectionIdsArePositions()
    ensures |SectionIds| == 13
    ensures forall i :: 0 <= i < |SectionIds| ==> SectionIds[i] == i
  {
  }

  /** A step that names one of the sections. */
  predicate IsSectionStep(step: int) {
    0 <= step < |SectionIds|
  }

  /** `isLastStep`. */
  predicate IsLastStep(step: int) {
    step == |SectionIds| - 1
  }

  /** `progressPercentage`: `(step + 1) / 13 * 100`. */
  function ProgressPercentage(step: int): (r: real)
    ensures IsSectionStep(step) ==> 0.0 < r <= 100.0
    ensures r == 100.0 <==> IsLastStep(step)
  {
    ((step + 1) as real / |SectionIds| as real) * 100.0
  }

  /** Each step forward adds the same share to the progress bar. */
  lemma ProgressIncreases(a: int, b: int)
    requires a < b
    ensures ProgressPercentage(a) < ProgressPercentage(b)
    ensures ProgressPercentage(b) - ProgressPercentage(a) == (b - a) as real * 100.0 / 13.0
  {
  }

  /** The sidebar shows a section's completed check iff the section lies
      before the current step. */
  predicate ShowsCheck(currentStep: int, sectionId: int) {
    currentStep > sectionId
  }

  /** The ids of the sections that show a completed check. */
  function CheckedSections(currentStep: int): (r: seq<int>)
    ensures forall id :: id in r <==> id in SectionIds && ShowsCheck(currentStep, id)
  {
    Filter(SectionIds, (id: int) => ShowsCheck(currentStep, id))
  }

  /** Filtering a run of consecutive ids by "below `step`" keeps a prefix. */
  lemma {:induction false} FilterBelowIsPrefix(s: seq<int>, lo: int, step: int, p: int -> bool)
    requires forall i :: 0 <= i < |s| ==> s[i] == lo + i
    requires forall x :: p(x) == (x < step)
    requires lo <= step <= lo + |s|
    ensures Filter(s, p) == s[..step - lo]
  {
    if s != [] {
      if lo < step {
        FilterBelowIsPrefix(s[1..], lo + 1, step, p);
        assert s[1..][..step - lo - 1] == s[1..step - lo];
        assert [s[0]] + s[1..step - lo] == s[..step - lo];
      } else {
        assert forall x :: x in s ==> !p(x);
        assert Count(s, p) == 0;
      }
    }
  }

  /** At a section step, exactly the sections before it are checked, so
      their count is the step itself. */
  lemma CheckedAreThoseBefore(currentStep: int)
    requires 0 <= currentStep <= |SectionIds|
    ensures CheckedSections(currentStep) == SectionIds[..currentStep]
    ensures |CheckedSections(currentStep)| == currentStep
  {
    SectionIdsArePositions();
    FilterBelowIsPrefix(SectionIds, 0, currentStep, (id: int) => ShowsCheck(currentStep, id));
  }

  /** Where the browser is: in the wizard, or sent to the results page. */
  datatype Route = AssessmentRoute | ResultsRoute

  /** The wizard component with its local copy of the record. */
  class Wizard {
    const store: Store
    var localData: AssessmentData
    var route: Route

    /** The local copy starts as the store's record. */
    constructor(store: Store)
      ensures this.store == store
      ensures localData == store.assessmentData && route == AssessmentRoute
    {
      this.store := store;
      localData := store.assessmentData;
      route := AssessmentRoute;
    }

    /** `setLocalData`, called by the section components with the whole
        new record. The store is not touched. */
    method SetLocalData(data: AssessmentData)
      modifies this
      ensures localData == data && route == old(route)
    {
      localData := data;
    }

    /** `handleNext`: commit, then the results page on the last step or the
        next step otherwise. */
    method HandleNext()
      modifies this, store
      ensures store.assessmentData == Merge(old(store.assessmentData), old(localData))
      ensures IsLastStep(old(store.currentStep)) ==>
                route == ResultsRoute && store.currentStep == old(store.currentStep)
      ensures !IsLastStep(old(store.currentStep)) ==>
                route == old(route) && store.currentStep == old(store.currentStep) + 1
      ensures IsSectionStep(old(store.currentStep)) ==> IsSectionStep(store.currentStep)
      ensures localData == old(localData)
      ensures store.analysisResult == old(store.analysisResult)
      ensures store.isAnalyzing == old(store.isAnalyzing) && store.isGeneratingPDF == old(store.isGeneratingPDF)
    {
      var isLastStep := IsLastStep(store.currentStep);
      store.UpdateAssessmentData(localData);
      if isLastStep {
        route := ResultsRoute;
      } else {
        store.SetCurrentStep(store.currentStep + 1);
      }
    }

    /** `handlePrevious`: commit, then one step back, never below 0. */
    method HandlePrevious()
      modifies store
      ensures store.assessmentData == Merge(old(store.assessmentData), localData)
      ensures store.currentStep == PreviousStepOf(old(store.currentStep))
      ensures IsSectionStep(old(store.currentStep)) ==> IsSectionStep(store.currentStep)
      ensures store.analysisResult == old(store.analysisResult)
      ensures store.isAnalyzing == old(store.isAnalyzing) && store.isGeneratingPDF == old(store.isGeneratingPDF)
    {
      store.UpdateAssessmentData(localData);
      store.SetCurrentStep(PreviousStepOf(store.currentStep));
    }

    /** `handleSectionClick`: commit, then jump to the clicked section. */
    method HandleSectionClick(sectionId: int)
      modifies store
      ensures store.assessmentData == Merge(old(store.assessmentData), localData)
      ensures store.currentStep == sectionId
      ensures store.analysisResult == old(store.analysisResult)
      ensures store.isAnalyzing == old(store.isAnalyzing) && store.isGeneratingPDF == old(store.isGeneratingPDF)
    {
      store.UpdateAssessmentData(localData);
      store.SetCurrentStep(sectionId);
    }
  }

  /** The sidebar's buttons pass the ids of `SECTIONS`, so a click always
      lands on a section step. */
  lemma ClickedSectionsAreSteps(sectionId: int)
    requires sectionId in SectionIds
    ensures IsSectionStep(sectionId)
  {
  }
}
