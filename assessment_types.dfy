/** The assessment record and the gap-analysis result (src/types/assessment.ts).
    The record is the form's `Partial<AssessmentData>`: a map from field name
    to value, where a missing key is `undefined`. */
module AssessmentTypes {
  import opened JsSemantics

  /** A document stored for the full analysis. */
  datatype UploadedDocument = UploadedDocument(storageId: string, fileName: string)

  /** The value of one assessment field. `Undefined` is a key that is present
      with the value `undefined` (as a spread of such a key leaves it). */
  datatype FieldValue =
    | Undefined
    | Text(text: string)                      // free text or a single-select answer
    | Texts(items: seq<string>)               // a multi-select answer
    | Timeframes(byCert: map<string, string>) // auditSurveillance: certification -> timeframe
    | Documents(docs: seq<UploadedDocument>)  // uploadedDocuments

  type AssessmentData = map<string, FieldValue>

  /** `data[field]` read as a string; `None` is `undefined`. A value of another
      kind, which the record's type excludes, also reads as `undefined`. */
  function TextOf(data: AssessmentData, field: string): (r: Option<string>)
    ensures r.Some? <==> field in data && data[field].Text?
    ensures r.Some? ==> data[field] == Text(r.value)
  {
    if field in data && data[field].Text? then Some(data[field].text) else None
  }

  /** `data[field]` read as a list of strings. */
  function TextsOf(data: AssessmentData, field: string): (r: Option<seq<string>>)
    ensures r.Some? <==> field in data && data[field].Texts?
    ensures r.Some? ==> data[field] == Texts(r.value)
  {
    if field in data && data[field].Texts? then Some(data[field].items) else None
  }

  /** `data.auditSurveillance` read as a record of timeframes. */
  function TimeframesOf(data: AssessmentData, field: string): (r: Option<map<string, string>>)
    ensures r.Some? <==> field in data && data[field].Timeframes?
    ensures r.Some? ==> data[field] == Timeframes(r.value)
  {
    if field in data && data[field].Timeframes? then Some(data[field].byCert) else None
  }

  /** `data.uploadedDocuments` read as a list of documents. */
  function DocumentsOf(data: AssessmentData, field: string): (r: Option<seq<UploadedDocument>>)
    ensures r.Some? <==> field in data && data[field].Documents?
    ensures r.Some? ==> data[field] == Documents(r.value)
  {
    if field in data && data[field].Documents? then Some(data[field].docs) else None
  }

  /** The JavaScript value a field holds (`undefined` for a missing key). */
  function ToJs(v: FieldValue): JsValue {
    match v
    case Undefined => Undef
    case Text(s) => Str(s)
    case Texts(xs) => Arr(seq(|xs|, i requires 0 <= i < |xs| => Str(xs[i])))
    case Timeframes(m) => Obj(map k | k in m :: Str(m[k]))
    case Documents(ds) =>
      Arr(seq(|ds|, i requires 0 <= i < |ds| =>
        Obj(map["storageId" := Str(ds[i].storageId), "fileName" := Str(ds[i].fileName)])))
  }

  function FieldJs(data: AssessmentData, field: string): JsValue {
    if field in data then ToJs(data[field]) else Undef
  }

  datatype Severity = Critical | High | Medium | Low

  datatype Priority = PriorityHigh | PriorityMedium | PriorityLow

  /** The fixed sentences of the report: the impact and advice of each gap,
      the description of the six gaps whose description is fixed, and the
      advice and expected impact of each recommendation. Each stands for one
      literal of the rule engine, spelled out by `GapAnalysis.ProseText`. */
  datatype Prose =
    | Cert1Description | Cert1Impact | Cert1Advice
    | Quality1Description | Quality1Impact | Quality1Advice
    | Training1Description | Training1Impact | Training1Advice
    | Calibration1Description | Calibration1Impact | Calibration1Advice
    | Tool1Description | Tool1Impact | Tool1Advice
    | Production1Impact | Production1Advice
    | Audit1Description | Audit1Impact | Audit1Advice
    | Financial1Impact | Financial1Advice
    | Rec1Advice | Rec1Impact | Rec2Advice | Rec2Impact
    | Rec3Advice | Rec3Impact | Rec4Advice | Rec4Impact

  /** A gap's description: a fixed sentence, or one of the two that quote the
      answer given for the first pass rate or the job margin. */
  datatype Description =
    | Fixed(prose: Prose)
    | FirstPassRateQuote(rate: string)
    | JobMarginQuote(margin: string)

  datatype Gap = Gap(
    id: string,
    category: string,
    severity: Severity,
    title: string,
    description: Description,
    impact: Prose,
    recommendation: Prose)

  datatype Recommendation = Recommendation(
    id: string,
    priority: Priority,
    area: string,
    recommendation: Prose,
    expectedImpact: Prose,
    implementationTimeline: string,
    estimatedCost: string)

  /** The savings range in dollars: 15% of the revenue and 1.3 times that.
      The report prints both in millions with one decimal. */
  datatype SavingsEstimate = SavingsEstimate(lower: real, upper: real)

  datatype GapAnalysisResult = GapAnalysisResult(
    companyName: string,
    analysisDate: string,
    overallScore: int,
    criticalGaps: seq<Gap>,
    recommendations: seq<Recommendation>,
    potentialSavings: Option<SavingsEstimate>,
    summaryInsights: seq<string>)
}
