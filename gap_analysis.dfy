/** The gap-analysis rule engine (src/services/gapAnalysisService.ts). Eight
    ordered rules each may add one gap and take a fixed number of points off
    the score; four recommendation rules follow, the last unconditional; the
    result also carries the clamped score, a savings estimate and four
    summary lines. `AnalyzeAssessment` pushes rule by rule as the source does
    and is proved to produce what the declarative rule table describes. */
module GapAnalysis {
  import opened JsSemantics
  import opened AssessmentTypes

  /** A gap together with the points it takes off the score. */
  datatype Finding = Finding(gap: Gap, deduction: nat)

  // ---------------------------------------------------------------------
  // Reading the record the way the rules do

  /** `data[field] === lit` for a text field. */
  predicate Is(data: AssessmentData, field: string, lit: string) {
    TextOf(data, field) == Some(lit)
  }

  /** `!data[field]`. */
  predicate Missing(data: AssessmentData, field: string) {
    !Truthy(FieldJs(data, field))
  }

  /** `data[field] || dflt` for a text field. */
  function TextOr(data: AssessmentData, field: string, dflt: string): string {
    match TextOf(data, field)
    case Some(s) => if s != "" then s else dflt
    case None => dflt
  }

  /** `parseInt(data[field]?.replace('%', '') || '0')`. */
  function PercentField(data: AssessmentData, field: string): Option<int> {
    var u := match TextOf(data, field) case Some(s) => RemoveFirst(s, '%') case None => "";
    ParseInt(if u == "" then "0" else u)
  }

  /** `${data[field]}` in a template literal. */
  function Interpolated(data: AssessmentData, field: string): string {
    match TextOf(data, field)
    case Some(s) => s
    case None => "undefined"
  }

  // ---------------------------------------------------------------------
  // The gaps

  const Cert1Gap := Gap("cert-1", "Certifications & Compliance", Critical,
    "No Active Certifications", Fixed(Cert1Description), Cert1Impact, Cert1Advice)

  const Quality1Gap := Gap("quality-1", "Quality Systems", Critical,
    "Inadequate CAPA System", Fixed(Quality1Description), Quality1Impact, Quality1Advice)

  const Training1Gap := Gap("training-1", "Training & Competency", High,
    "Informal Training Program", Fixed(Training1Description), Training1Impact, Training1Advice)

  const Calibration1Gap := Gap("calibration-1", "Calibration & Equipment", Critical,
    "Calibration Program Deficiencies", Fixed(Calibration1Description), Calibration1Impact, Calibration1Advice)

  const Tool1Gap := Gap("tool-1", "Tool Control & FOD", High,
    "Tool Control System Gaps", Fixed(Tool1Description), Tool1Impact, Tool1Advice)

  const Audit1Gap := Gap("audit-1", "Regulatory & Audit", Critical,
    "Recurring Audit Findings", Fixed(Audit1Description), Audit1Impact, Audit1Advice)

  function QualityGap(severity: Severity): Gap {
    Quality1Gap.(severity := severity)
  }

  function CalibrationGap(severity: Severity): Gap {
    Calibration1Gap.(severity := severity)
  }

  function ToolGap(severity: Severity): Gap {
    Tool1Gap.(severity := severity)
  }

  function ProductionGap(severity: Severity, rate: string): Gap {
    Gap("production-1", "Production & Quality Metrics", severity,
      "Low First Pass Rate", FirstPassRateQuote(rate), Production1Impact, Production1Advice)
  }

  function FinancialGap(margin: string): Gap {
    Gap("financial-1", "Financial Performance", Medium,
      "Low Job Margins", JobMarginQuote(margin), Financial1Impact, Financial1Advice)
  }

  /** The text of a gap's description. */
  function DescriptionText(d: Description): string {
    match d
    case Fixed(p) => ProseText(p)
    case FirstPassRateQuote(rate) => "First pass rate of " + rate + " is below industry standard of 85-95%."
    case JobMarginQuote(margin) => "Job margins of " + margin + " are below industry standard of 20-30%."
  }

  /** The sentences of the report, as the engine writes them. The section
      sign appears in the source as the two characters U+0E22 U+0E07 (a
      mis-decoded "§"); the model keeps them. */
  function ProseText(p: Prose): string {
    match p
    case Cert1Description => "Organization lacks fundamental aviation maintenance certifications such as FAA Part 145 or EASA Part 145."
    case Cert1Impact => "Cannot legally perform maintenance on many aircraft types. Severely limits business opportunities."
    case Cert1Advice => "Prioritize obtaining FAA Part 145 certification. Begin by conducting a gap analysis against 14 CFR Part 145 requirements."
    case Quality1Description => "Corrective and Preventive Action system is insufficient for regulatory compliance and continuous improvement."
    case Quality1Impact => "Risk of recurring quality issues, audit findings, and potential certificate action by FAA."
    case Quality1Advice => "Implement a formal CAPA system with root cause analysis, effectiveness checks, and closure verification."
    case Training1Description => "Lack of structured training program violates 14 CFR \U{0E22}\U{0E07}145.163 requirements for training data."
    case Training1Impact => "Non-compliance with Part 145 training requirements. Risk of unqualified personnel performing critical work."
    case Training1Advice => "Develop formal training program with documented curricula, competency assessments, and training records."
    case Calibration1Description => "Inadequate calibration program or excessive overdue calibrations (14 CFR \U{0E22}\U{0E07}145.109)."
    case Calibration1Impact => "Risk of using out-of-tolerance equipment, leading to improper work and safety hazards."
    case Calibration1Advice => "Establish formal calibration program with tracked intervals, vendor certifications, and overdue equipment lockout procedures."
    case Tool1Description => "Inadequate tool control system with documented errors or missing tools."
    case Tool1Impact => "FOD risk, safety hazard, and potential for catastrophic failures if tools left in aircraft."
    case Tool1Advice => "Implement shadow boards, tool checkout system, and mandatory pre/post-flight tool accountability procedures."
    case Production1Impact => "Excessive rework costs, schedule delays, and reduced profitability. Indicates quality control issues."
    case Production1Advice => "Implement first pass quality initiatives: enhanced training, better work instructions, and process standardization."
    case Audit1Description => "Same issues found in multiple FAA surveillance visits indicates systemic CAPA failure."
    case Audit1Impact => "High risk of certificate action. Demonstrates ineffective corrective action process."
    case Audit1Advice => "Conduct root cause analysis on recurring findings. Implement systemic changes and verify effectiveness."
    case Financial1Impact => "Reduced profitability and limited resources for quality improvements and capital investments."
    case Financial1Advice => "Analyze pricing strategy, reduce rework costs, improve schedule adherence, and optimize parts management."
    case Rec1Advice => "Implement employee retention program with competitive compensation, career development, and improved work environment."
    case Rec1Impact => "Reduce training costs, improve quality consistency, and enhance institutional knowledge."
    case Rec2Advice => "Invest in modern maintenance tracking software (CAMP, Traxxall, or Corridor) to improve efficiency and compliance."
    case Rec2Impact => "Better compliance tracking, reduced administrative burden, improved metrics visibility."
    case Rec3Advice => "Implement barcode/RFID inventory tracking system with cycle counting program."
    case Rec3Impact => "Reduce parts delays, minimize excess inventory, improve invoice accuracy, and reduce write-offs."
    case Rec4Advice => "Conduct comprehensive QMS gap analysis against Part 145 and AS9100 standards."
    case Rec4Impact => "Identify all compliance gaps, prioritize improvements, and create roadmap for certification readiness."
  }

  // ---------------------------------------------------------------------
  // The rule table: what each rule contributes, in order

  /** `!data.certifications || data.certifications.length === 0 ||
      data.certifications.includes('None')`. */
  predicate CertificationsMissing(data: AssessmentData) {
    match TextsOf(data, "certifications")
    case None => true
    case Some(certs) => |certs| == 0 || "None" in certs
  }

  function CertRule(data: AssessmentData): (r: Option<Finding>)
    ensures AddedPoints(r) <= 20
    ensures r.Some? ==> r.value.deduction > 0 && r.value.gap.id == "cert-1"
  {
    if CertificationsMissing(data) then Some(Finding(Cert1Gap, 20)) else None
  }

  function QualityRule(data: AssessmentData): (r: Option<Finding>)
    ensures AddedPoints(r) <= 15
    ensures r.Some? ==> r.value.deduction > 0 && r.value.gap.id == "quality-1"
  {
    if Is(data, "capaSystemStatus", "No formal CAPA system") then Some(Finding(QualityGap(Critical), 15))
    else if Is(data, "capaSystemStatus", "Limited tracking") then Some(Finding(QualityGap(High), 10))
    else None
  }

  predicate TrainingInformal(data: AssessmentData) {
    Missing(data, "trainingProgramType") || Is(data, "trainingProgramType", "Informal on-the-job training")
  }

  function TrainingRule(data: AssessmentData): (r: Option<Finding>)
    ensures AddedPoints(r) <= 12
    ensures r.Some? ==> r.value.deduction > 0 && r.value.gap.id == "training-1"
  {
    if TrainingInformal(data) then Some(Finding(Training1Gap, 12)) else None
  }

  /** `parseInt(data.overdueCalibrations || '0')`. */
  function OverdueCalibrations(data: AssessmentData): Option<int> {
    ParseInt(TextOr(data, "overdueCalibrations", "0"))
  }

  function CalibrationRule(data: AssessmentData): (r: Option<Finding>)
    ensures AddedPoints(r) <= 15
    ensures r.Some? ==> r.value.deduction > 0 && r.value.gap.id == "calibration-1"
  {
    if Is(data, "calibrationProgram", "No formal program") then Some(Finding(CalibrationGap(Critical), 15))
    else if GreaterThan(OverdueCalibrations(data), 5) then Some(Finding(CalibrationGap(High), 8))
    else None
  }

  function ToolRule(data: AssessmentData): (r: Option<Finding>)
    ensures AddedPoints(r) <= 10
    ensures r.Some? ==> r.value.deduction > 0 && r.value.gap.id == "tool-1"
  {
    if Is(data, "toolControlMethod", "No formal system") then Some(Finding(ToolGap(High), 10))
    else if Is(data, "toolControlErrors", "Yes") then Some(Finding(ToolGap(Medium), 5))
    else None
  }

  function ProductionRule(data: AssessmentData): (r: Option<Finding>)
    ensures AddedPoints(r) <= 8
    ensures r.Some? ==> r.value.deduction > 0 && r.value.gap.id == "production-1"
  {
    var rate := PercentField(data, "firstPassRate");
    if LessThan(rate, 70) then Some(Finding(ProductionGap(High, Interpolated(data, "firstPassRate")), 8))
    else if LessThan(rate, 85) then Some(Finding(ProductionGap(Medium, Interpolated(data, "firstPassRate")), 5))
    else None
  }

  function AuditRule(data: AssessmentData): (r: Option<Finding>)
    ensures AddedPoints(r) <= 15
    ensures r.Some? ==> r.value.deduction > 0 && r.value.gap.id == "audit-1"
  {
    if Is(data, "recurringFindings", "Yes, same issues found multiple times") then Some(Finding(Audit1Gap, 15))
    else None
  }

  function FinancialRule(data: AssessmentData): (r: Option<Finding>)
    ensures AddedPoints(r) <= 5
    ensures r.Some? ==> r.value.deduction > 0 && r.value.gap.id == "financial-1"
  {
    if LessThan(PercentField(data, "jobMargin"), 15) then Some(Finding(FinancialGap(Interpolated(data, "jobMargin")), 5))
    else None
  }

  /** The ids of the eight rules' gaps, in rule order. */
  const GapOrder := ["cert-1", "quality-1", "training-1", "calibration-1", "tool-1", "production-1", "audit-1", "financial-1"]

  /** The most each rule can take off; they add up to exactly 100. */
  const MaxDeductions: seq<nat> := [20, 15, 12, 15, 10, 8, 15, 5]

  /** What one rule pushes onto the gap list, and what it takes off. */
  function PushedGap(o: Option<Finding>): seq<Gap> {
    if o.Some? then [o.value.gap] else []
  }

  function AddedPoints(o: Option<Finding>): nat {
    if o.Some? then o.value.deduction else 0
  }

  /** The gaps the analysis reports: what the eight rules push, in the
      order they run. */
  function ExpectedGaps(data: AssessmentData): seq<Gap> {
    [] + PushedGap(CertRule(data)) + PushedGap(QualityRule(data)) + PushedGap(TrainingRule(data))
    + PushedGap(CalibrationRule(data)) + PushedGap(ToolRule(data)) + PushedGap(ProductionRule(data))
    + PushedGap(AuditRule(data)) + PushedGap(FinancialRule(data))
  }

  /** The points the eight rules take off. */
  function Deductions(data: AssessmentData): nat {
    0 + AddedPoints(CertRule(data)) + AddedPoints(QualityRule(data)) + AddedPoints(TrainingRule(data))
    + AddedPoints(CalibrationRule(data)) + AddedPoints(ToolRule(data)) + AddedPoints(ProductionRule(data))
    + AddedPoints(AuditRule(data)) + AddedPoints(FinancialRule(data))
  }

  /** `Math.max` on two integers. */
  function Max(a: int, b: int): (r: int)
    ensures r >= a && r >= b && (r == a || r == b)
  {
    if a >= b then a else b
  }

  /** `Math.max(0, 100 - scoreDeductions)`. */
  function Score(data: AssessmentData): int {
    Max(0, 100 - Deductions(data) as int)
  }

  function GapIds(gs: seq<Gap>): (r: seq<string>)
    ensures |r| == |gs| && forall i :: 0 <= i < |gs| ==> r[i] == gs[i].id
  {
    seq(|gs|, i requires 0 <= i < |gs| => gs[i].id)
  }

  // ---------------------------------------------------------------------
  // The recommendations

  const Rec1 := Recommendation("rec-1", PriorityHigh, "Workforce Retention", Rec1Advice, Rec1Impact,
    "3-6 months", "$50,000 - $100,000 annually")

  const Rec2 := Recommendation("rec-2", PriorityMedium, "Technology Upgrade", Rec2Advice, Rec2Impact,
    "6-12 months", "$20,000 - $75,000 implementation + $10,000-$30,000 annually")

  const Rec3 := Recommendation("rec-3", PriorityMedium, "Inventory Management", Rec3Advice, Rec3Impact,
    "3-6 months", "$15,000 - $50,000")

  const Rec4 := Recommendation("rec-4", PriorityHigh, "Quality Management System", Rec4Advice, Rec4Impact,
    "1-3 months", "$10,000 - $25,000 for consultant-led gap analysis")

  /** `data.turnoverRate && parseInt(data.turnoverRate.replace('%', '')) > 15`. */
  predicate HighTurnover(data: AssessmentData) {
    match TextOf(data, "turnoverRate")
    case Some(s) => s != "" && GreaterThan(ParseInt(RemoveFirst(s, '%')), 15)
    case None => false
  }

  predicate SoftwareInadequate(data: AssessmentData) {
    || Missing(data, "maintenanceTrackingSoftware")
    || Is(data, "softwareSatisfaction", "Very dissatisfied")
    || Is(data, "softwareSatisfaction", "Dissatisfied")
  }

  predicate InventoryWeak(data: AssessmentData) {
    Is(data, "partsInventoryMethod", "Manual spreadsheets") || !Is(data, "inventoryAccuracy", "Very accurate (95%+)")
  }

  /** What a conditional recommendation rule adds. */
  function RecommendedIf(fires: bool, r: Recommendation): seq<Recommendation> {
    if fires then [r] else []
  }

  /** The recommendations: the three conditional rules in order, then the
      unconditional QMS gap-analysis one. */
  function ExpectedRecommendations(data: AssessmentData): seq<Recommendation> {
    [] + RecommendedIf(HighTurnover(data), Rec1) + RecommendedIf(SoftwareInadequate(data), Rec2)
    + RecommendedIf(InventoryWeak(data), Rec3) + [Rec4]
  }

  function RecommendationIds(rs: seq<Recommendation>): (r: seq<string>)
    ensures |r| == |rs| && forall i :: 0 <= i < |rs| ==> r[i] == rs[i].id
  {
    seq(|rs|, i requires 0 <= i < |rs| => rs[i].id)
  }

  // ---------------------------------------------------------------------
  // Company name, savings and the summary

  /** `data.companyName || 'Your Organization'`. */
  function CompanyName(data: AssessmentData): (r: string)
    ensures r != ""
    ensures r == "Your Organization" <==> TextOr(data, "companyName", "") in {"", "Your Organization"}
  {
    TextOr(data, "companyName", "Your Organization")
  }

  /** The revenue `parseFloat(annualRevenue.replace(/[^0-9.]/g, ''))`, when
      `annualRevenue` is given. */
  function Revenue(data: AssessmentData): Option<real> {
    match TextOf(data, "annualRevenue")
    case Some(s) => if s != "" then ParseDecimal(KeepDigitsAndDots(s)) else None
    case None => None
  }

  /** Savings of 15% of a positive revenue, the upper bound 1.3 times that;
      no estimate otherwise. */
  function Savings(data: AssessmentData): (r: Option<SavingsEstimate>)
    ensures r.Some? <==> Revenue(data).Some? && Revenue(data).value > 0.0
    ensures r.Some? ==> 0.0 < r.value.lower < r.value.upper
  {
    var revenue := Revenue(data);
    if revenue.Some? && revenue.value > 0.0 then
      var potential := revenue.value * 0.15;
      Some(SavingsEstimate(potential, potential * 1.3))
    else None
  }

  function CountSeverity(gaps: seq<Gap>, severity: Severity): (n: nat)
    ensures n <= |gaps|
    ensures n == 0 <==> forall g :: g in gaps ==> g.severity != severity
  {
    Count(gaps, (g: Gap) => g.severity == severity)
  }

  const ActionPlanInsight := "Prioritized action plan provided in recommendations section"
  const StrongPostureInsight := "Strong compliance posture with minor improvement opportunities"

  /** The four summary lines. */
  function Insights(gaps: seq<Gap>, score: nat): (r: seq<string>)
    ensures |r| == 4
    ensures r[3] == StrongPostureInsight <==> gaps == []
  {
    ["Overall compliance score: " + NatToString(score) + "%",
     NatToString(CountSeverity(gaps, Critical)) + " critical gaps requiring immediate attention",
     NatToString(CountSeverity(gaps, High)) + " high-priority gaps to address within 30-60 days",
     if |gaps| > 0 then ActionPlanInsight else StrongPostureInsight]
  }

  // ---------------------------------------------------------------------
  // The analysis

  /** `analyzeAssessment`. The analysis date is an input (the source reads
      the clock). */
  method AnalyzeAssessment(data: AssessmentData, analysisDate: string) returns (result: GapAnalysisResult)
    ensures result.companyName == CompanyName(data)
    ensures result.analysisDate == analysisDate
    ensures result.criticalGaps == ExpectedGaps(data)
    ensures result.overallScore == Score(data)
    ensures result.recommendations == ExpectedRecommendations(data)
    ensures result.potentialSavings == Savings(data)
    ensures result.summaryInsights == Insights(ExpectedGaps(data), Score(data))
  {
    var gaps, scoreDeductions := AnalyzeGaps(data);
    var recommendations := GenerateRecommendations(data);
    var overallScore: int := Max(0, 100 - scoreDeductions as int);
    result := GapAnalysisResult(CompanyName(data), analysisDate, overallScore, gaps, recommendations,
      Savings(data), Insights(gaps, overallScore));
  }

  /** The eight gap rules of `analyzeAssessment`, pushing onto `gaps` and
      adding to `scoreDeductions` as they fire. */
  method AnalyzeGaps(data: AssessmentData) returns (gaps: seq<Gap>, scoreDeductions: nat)
    ensures gaps == ExpectedGaps(data)
    ensures scoreDeductions == Deductions(data)
  {
    gaps, scoreDeductions := [], 0;
    gaps, scoreDeductions := AnalyzeCertifications(data, gaps, scoreDeductions);
    gaps, scoreDeductions := AnalyzeQualitySystems(data, gaps, scoreDeductions);
    gaps, scoreDeductions := AnalyzeTraining(data, gaps, scoreDeductions);
    gaps, scoreDeductions := AnalyzeCalibration(data, gaps, scoreDeductions);
    gaps, scoreDeductions := AnalyzeToolControl(data, gaps, scoreDeductions);
    gaps, scoreDeductions := AnalyzeProductionMetrics(data, gaps, scoreDeductions);
    gaps, scoreDeductions := AnalyzeAuditFindings(data, gaps, scoreDeductions);
    gaps, scoreDeductions := AnalyzeFinancialMetrics(data, gaps, scoreDeductions);
  }

  method AnalyzeCertifications(data: AssessmentData, gaps0: seq<Gap>, deductions0: nat) returns (gaps: seq<Gap>, scoreDeductions: nat)
    ensures gaps == gaps0 + PushedGap(CertRule(data))
    ensures scoreDeductions == deductions0 + AddedPoints(CertRule(data))
  {
    gaps, scoreDeductions := gaps0, deductions0;
    if CertificationsMissing(data) {
      gaps := gaps + [Cert1Gap];
      scoreDeductions := scoreDeductions + 20;
    }
  }

  method AnalyzeQualitySystems(data: AssessmentData, gaps0: seq<Gap>, deductions0: nat) returns (gaps: seq<Gap>, scoreDeductions: nat)
    ensures gaps == gaps0 + PushedGap(QualityRule(data))
    ensures scoreDeductions == deductions0 + AddedPoints(QualityRule(data))
  {
    gaps, scoreDeductions := gaps0, deductions0;
    if Is(data, "capaSystemStatus", "No formal CAPA system") || Is(data, "capaSystemStatus", "Limited tracking") {
      var critical := Is(data, "capaSystemStatus", "No formal CAPA system");
      gaps := gaps + [QualityGap(if critical then Critical else High)];
      scoreDeductions := scoreDeductions + if critical then 15 else 10;
    }
  }

  method AnalyzeTraining(data: AssessmentData, gaps0: seq<Gap>, deductions0: nat) returns (gaps: seq<Gap>, scoreDeductions: nat)
    ensures gaps == gaps0 + PushedGap(TrainingRule(data))
    ensures scoreDeductions == deductions0 + AddedPoints(TrainingRule(data))
  {
    gaps, scoreDeductions := gaps0, deductions0;
    if Missing(data, "trainingProgramType") || Is(data, "trainingProgramType", "Informal on-the-job training") {
      gaps := gaps + [Training1Gap];
      scoreDeductions := scoreDeductions + 12;
    }
  }

  method AnalyzeCalibration(data: AssessmentData, gaps0: seq<Gap>, deductions0: nat) returns (gaps: seq<Gap>, scoreDeductions: nat)
    ensures gaps == gaps0 + PushedGap(CalibrationRule(data))
    ensures scoreDeductions == deductions0 + AddedPoints(CalibrationRule(data))
  {
    gaps, scoreDeductions := gaps0, deductions0;
    if Is(data, "calibrationProgram", "No formal program") || GreaterThan(ParseInt(TextOr(data, "overdueCalibrations", "0")), 5) {
      var critical := Is(data, "calibrationProgram", "No formal program");
      gaps := gaps + [CalibrationGap(if critical then Critical else High)];
      scoreDeductions := scoreDeductions + if critical then 15 else 8;
    }
  }

  method AnalyzeToolControl(data: AssessmentData, gaps0: seq<Gap>, deductions0: nat) returns (gaps: seq<Gap>, scoreDeductions: nat)
    ensures gaps == gaps0 + PushedGap(ToolRule(data))
    ensures scoreDeductions == deductions0 + AddedPoints(ToolRule(data))
  {
    gaps, scoreDeductions := gaps0, deductions0;
    if Is(data, "toolControlMethod", "No formal system") || Is(data, "toolControlErrors", "Yes") {
      var noSystem := Is(data, "toolControlMethod", "No formal system");
      gaps := gaps + [ToolGap(if noSystem then High else Medium)];
      scoreDeductions := scoreDeductions + if noSystem then 10 else 5;
    }
  }

  method AnalyzeProductionMetrics(data: AssessmentData, gaps0: seq<Gap>, deductions0: nat) returns (gaps: seq<Gap>, scoreDeductions: nat)
    ensures gaps == gaps0 + PushedGap(ProductionRule(data))
    ensures scoreDeductions == deductions0 + AddedPoints(ProductionRule(data))
  {
    gaps, scoreDeductions := gaps0, deductions0;
    var firstPassRate := PercentField(data, "firstPassRate");
    if LessThan(firstPassRate, 85) {
      var low := firstPassRate.value < 70;
      gaps := gaps + [ProductionGap(if low then High else Medium, Interpolated(data, "firstPassRate"))];
      scoreDeductions := scoreDeductions + if low then 8 else 5;
    }
  }

  method AnalyzeAuditFindings(data: AssessmentData, gaps0: seq<Gap>, deductions0: nat) returns (gaps: seq<Gap>, scoreDeductions: nat)
    ensures gaps == gaps0 + PushedGap(AuditRule(data))
    ensures scoreDeductions == deductions0 + AddedPoints(AuditRule(data))
  {
    gaps, scoreDeductions := gaps0, deductions0;
    if Is(data, "recurringFindings", "Yes, same issues found multiple times") {
      gaps := gaps + [Audit1Gap];
      scoreDeductions := scoreDeductions + 15;
    }
  }

  method AnalyzeFinancialMetrics(data: AssessmentData, gaps0: seq<Gap>, deductions0: nat) returns (gaps: seq<Gap>, scoreDeductions: nat)
    ensures gaps == gaps0 + PushedGap(FinancialRule(data))
    ensures scoreDeductions == deductions0 + AddedPoints(FinancialRule(data))
  {
    gaps, scoreDeductions := gaps0, deductions0;
    var jobMargin := PercentField(data, "jobMargin");
    if LessThan(jobMargin, 15) {
      gaps := gaps + [FinancialGap(Interpolated(data, "jobMargin"))];
      scoreDeductions := scoreDeductions + 5;
    }
  }

  /** The four recommendation rules of `analyzeAssessment`. */
  method GenerateRecommendations(data: AssessmentData) returns (recommendations: seq<Recommendation>)
    ensures recommendations == ExpectedRecommendations(data)
  {
    var highTurnover, softwareInadequate, inventoryWeak := HighTurnover(data), SoftwareInadequate(data), InventoryWeak(data);
    recommendations := [];
    if highTurnover {
      recommendations := recommendations + [Rec1];
    }
    assert recommendations == [] + RecommendedIf(highTurnover, Rec1);
    ghost var soFar := recommendations;
    if softwareInadequate {
      recommendations := recommendations + [Rec2];
    }
    assert recommendations == soFar + RecommendedIf(softwareInadequate, Rec2);
    soFar := recommendations;
    if inventoryWeak {
      recommendations := recommendations + [Rec3];
    }
    assert recommendations == soFar + RecommendedIf(inventoryWeak, Rec3);
    recommendations := recommendations + [Rec4];
  }

  // ---------------------------------------------------------------------
  // Properties of the rule table

  /** Each rule takes off at most its maximum, and the maxima add up to 100,
      so the clamp at zero never acts: the score is 100 minus the points. */
  lemma ScoreIsHundredMinusDeductions(data: AssessmentData)
    ensures Deductions(data) <= 100
    ensures Score(data) == 100 - Deductions(data)
    ensures 0 <= Score(data) <= 100
  {
    DeductionsBound(data);
  }

  lemma DeductionsBound(data: AssessmentData)
    ensures Deductions(data) <= 20 + 15 + 12 + 15 + 10 + 8 + 15 + 5
  {
  }

  /** A rule that fires always takes points off. */
  lemma FiringCosts(o: Option<Finding>)
    requires o.Some? ==> o.value.deduction > 0
    ensures |PushedGap(o)| == (if o.Some? then 1 else 0)
    ensures AddedPoints(o) == 0 <==> PushedGap(o) == []
  {
  }

  /** The score is perfect exactly when no gap is reported. */
  lemma PerfectScoreIffNoGaps(data: AssessmentData)
    ensures Score(data) == 100 <==> ExpectedGaps(data) == []
  {
    ScoreIsHundredMinusDeductions(data);
    FiringCosts(CertRule(data));
    FiringCosts(QualityRule(data));
    FiringCosts(TrainingRule(data));
    FiringCosts(CalibrationRule(data));
    FiringCosts(ToolRule(data));
    FiringCosts(ProductionRule(data));
    FiringCosts(AuditRule(data));
    FiringCosts(FinancialRule(data));
    assert |ExpectedGaps(data)| == |PushedGap(CertRule(data))| + |PushedGap(QualityRule(data))|
      + |PushedGap(TrainingRule(data))| + |PushedGap(CalibrationRule(data))| + |PushedGap(ToolRule(data))|
      + |PushedGap(ProductionRule(data))| + |PushedGap(AuditRule(data))| + |PushedGap(FinancialRule(data))|;
  }

  /** The summary says the posture is strong exactly when the score is
      perfect. */
  lemma StrongPostureIffPerfectScore(data: AssessmentData)
    ensures Insights(ExpectedGaps(data), Score(data))[3] == StrongPostureInsight <==> Score(data) == 100
  {
    PerfectScoreIffNoGaps(data);
  }

  /** Gaps are reported in rule order, each rule at most once: their ids
      are a subsequence of `GapOrder`. */
  lemma GapsFollowRuleOrder(data: AssessmentData)
    ensures IsSubsequence(GapIds(ExpectedGaps(data)), GapOrder)
  {
    OrderOfEight(CertRule(data), QualityRule(data), TrainingRule(data), CalibrationRule(data),
      ToolRule(data), ProductionRule(data), AuditRule(data), FinancialRule(data),
      "cert-1", "quality-1", "training-1", "calibration-1", "tool-1", "production-1", "audit-1", "financial-1");
  }

  /** Eight rules whose gaps carry the ids `id0` to `id7`, in that order,
      report a subsequence of those ids. */
  lemma OrderOfEight(o0: Option<Finding>, o1: Option<Finding>, o2: Option<Finding>, o3: Option<Finding>,
                     o4: Option<Finding>, o5: Option<Finding>, o6: Option<Finding>, o7: Option<Finding>,
                     id0: string, id1: string, id2: string, id3: string,
                     id4: string, id5: string, id6: string, id7: string)
    requires o0.Some? ==> o0.value.gap.id == id0
    requires o1.Some? ==> o1.value.gap.id == id1
    requires o2.Some? ==> o2.value.gap.id == id2
    requires o3.Some? ==> o3.value.gap.id == id3
    requires o4.Some? ==> o4.value.gap.id == id4
    requires o5.Some? ==> o5.value.gap.id == id5
    requires o6.Some? ==> o6.value.gap.id == id6
    requires o7.Some? ==> o7.value.gap.id == id7
    ensures IsSubsequence(GapIds([] + PushedGap(o0) + PushedGap(o1) + PushedGap(o2) + PushedGap(o3)
      + PushedGap(o4) + PushedGap(o5) + PushedGap(o6) + PushedGap(o7)), [id0, id1, id2, id3, id4, id5, id6, id7])
  {
    var g0 := [] + PushedGap(o0);
    var g1 := g0 + PushedGap(o1);
    var g2 := g1 + PushedGap(o2);
    var g3 := g2 + PushedGap(o3);
    var g4 := g3 + PushedGap(o4);
    var g5 := g4 + PushedGap(o5);
    var g6 := g5 + PushedGap(o6);
    var p1 := [id0];
    var p2 := p1 + [id1];
    var p3 := p2 + [id2];
    var p4 := p3 + [id3];
    var p5 := p4 + [id4];
    var p6 := p5 + [id5];
    var p7 := p6 + [id6];
    assert GapIds([]) == [] && [] + [id0] == p1;
    OrderStep([], [], id0, o0);
    OrderStep(g0, p1, id1, o1);
    OrderStep(g1, p2, id2, o2);
    OrderStep(g2, p3, id3, o3);
    OrderStep(g3, p4, id4, o4);
    OrderStep(g4, p5, id5, o5);
    OrderStep(g5, p6, id6, o6);
    OrderStep(g6, p7, id7, o7);
    assert p7 + [id7] == [id0, id1, id2, id3, id4, id5, id6, id7];
  }

  /** One more rule keeps the reported ids a subsequence of the rule ids so far. */
  lemma OrderStep(gaps: seq<Gap>, order: seq<string>, id: string, o: Option<Finding>)
    requires IsSubsequence(GapIds(gaps), order)
    requires o.Some? ==> o.value.gap.id == id
    ensures IsSubsequence(GapIds(gaps + PushedGap(o)), order + [id])
  {
    if o.Some? {
      assert GapIds(gaps + PushedGap(o)) == GapIds(gaps) + [id];
      SubsequenceAppend(GapIds(gaps), order, [id], [id]);
    } else {
      assert gaps + PushedGap(o) == gaps;
      assert GapIds(gaps) + [] == GapIds(gaps);
      SubsequenceAppend(GapIds(gaps), order, [], [id]);
    }
  }

  // ---------------------------------------------------------------------
  // Individual rules

  /** cert-1 heads the report exactly when the certifications are absent,
      empty or include "None" (beside real ones too); it is critical and
      costs 20 points. */
  lemma CertificationGapIff(data: AssessmentData)
    ensures CertificationsMissing(data) <==> ExpectedGaps(data) != [] && ExpectedGaps(data)[0].id == "cert-1"
    ensures CertificationsMissing(data) ==>
      ExpectedGaps(data)[0] == Cert1Gap && Cert1Gap.severity == Critical && AddedPoints(CertRule(data)) == 20
  {
    FirstOfEight(CertRule(data), QualityRule(data), TrainingRule(data), CalibrationRule(data),
      ToolRule(data), ProductionRule(data), AuditRule(data), FinancialRule(data));
  }

  /** Of eight rules with the ids of `GapOrder`, the first decides whether
      cert-1 heads the list. */
  lemma FirstOfEight(o0: Option<Finding>, o1: Option<Finding>, o2: Option<Finding>, o3: Option<Finding>,
                     o4: Option<Finding>, o5: Option<Finding>, o6: Option<Finding>, o7: Option<Finding>)
    requires o0.Some? ==> o0.value.gap.id == "cert-1"
    requires o1.Some? ==> o1.value.gap.id == "quality-1"
    requires o2.Some? ==> o2.value.gap.id == "training-1"
    requires o3.Some? ==> o3.value.gap.id == "calibration-1"
    requires o4.Some? ==> o4.value.gap.id == "tool-1"
    requires o5.Some? ==> o5.value.gap.id == "production-1"
    requires o6.Some? ==> o6.value.gap.id == "audit-1"
    requires o7.Some? ==> o7.value.gap.id == "financial-1"
    ensures var all := [] + PushedGap(o0) + PushedGap(o1) + PushedGap(o2) + PushedGap(o3)
      + PushedGap(o4) + PushedGap(o5) + PushedGap(o6) + PushedGap(o7);
      (all != [] && all[0].id == "cert-1" <==> o0.Some?) && (o0.Some? ==> all[0] == o0.value.gap)
  {
    var all := [] + PushedGap(o0) + PushedGap(o1) + PushedGap(o2) + PushedGap(o3)
      + PushedGap(o4) + PushedGap(o5) + PushedGap(o6) + PushedGap(o7);
    if o0.None? && all != [] {
      var g := all[0];
      assert g in all;
      assert "tool-1"[0] != "cert-1"[0];
    }
  }

  /** An unanswered first pass rate reads as "0": production-1 fires as
      high, quoting "undefined". */
  lemma ProductionWithoutRate(data: AssessmentData)
    requires "firstPassRate" !in data
    ensures ProductionRule(data) == Some(Finding(ProductionGap(High, "undefined"), 8))
  {
    ParseIntOfDigits("0");
  }

  /** "Unknown" reads as NaN, and no production gap fires. */
  lemma ProductionUnknownRate(data: AssessmentData)
    requires TextOf(data, "firstPassRate") == Some("Unknown")
    ensures ProductionRule(data) == None
  {
    assert '%' !in "Unknown";
    ParseIntOfNonNumeric("Unknown");
  }

  /** A first pass rate of n%: high (8 points) below 70, medium (5 points)
      from 70 to 84, nothing from 85. */
  lemma ProductionAtPercent(data: AssessmentData, n: nat)
    requires TextOf(data, "firstPassRate") == Some(NatToString(n) + "%")
    ensures n < 70 ==> ProductionRule(data) == Some(Finding(ProductionGap(High, NatToString(n) + "%"), 8))
    ensures 70 <= n < 85 ==> ProductionRule(data) == Some(Finding(ProductionGap(Medium, NatToString(n) + "%"), 5))
    ensures n >= 85 ==> ProductionRule(data) == None
  {
    PercentFieldOf(data, "firstPassRate", n);
  }

  /** A field holding n% reads as n, and interpolates as itself. */
  lemma PercentFieldOf(data: AssessmentData, field: string, n: nat)
    requires TextOf(data, field) == Some(NatToString(n) + "%")
    ensures PercentField(data, field) == Some(n)
    ensures Interpolated(data, field) == NatToString(n) + "%"
  {
    assert RemoveFirst(NatToString(n) + "%", '%') == NatToString(n) by {
      RemovePercentAfterDigits(NatToString(n));
    }
    assert ParseInt(NatToString(n)) == Some(n) by {
      ParseIntOfNatToString(n);
    }
  }

  /** A job margin of n% is flagged (5 points) exactly below 15. */
  lemma FinancialAtPercent(data: AssessmentData, n: nat)
    requires TextOf(data, "jobMargin") == Some(NatToString(n) + "%")
    ensures FinancialRule(data).Some? <==> n < 15
    ensures n < 15 ==> FinancialRule(data) == Some(Finding(FinancialGap(NatToString(n) + "%"), 5))
  {
    PercentFieldOf(data, "jobMargin", n);
  }

  /** With n overdue calibrations (and no "No formal program"), the high
      calibration gap fires exactly above 5. */
  lemma CalibrationAtCount(data: AssessmentData, n: nat)
    requires !Is(data, "calibrationProgram", "No formal program")
    requires TextOf(data, "overdueCalibrations") == Some(NatToString(n))
    ensures CalibrationRule(data).Some? <==> n > 5
    ensures n > 5 ==> CalibrationRule(data) == Some(Finding(CalibrationGap(High), 8))
  {
    ParseIntOfNatToString(n);
  }

  /** The bucket labels of the overdue-calibration question read as NaN, 1
      and 4, so none of them reaches the high calibration gap. */
  lemma OverdueBucketsNeverFlag(data: AssessmentData)
    requires !Is(data, "calibrationProgram", "No formal program")
    requires TextOf(data, "overdueCalibrations") in
      {Some("None"), Some("1-3 Items"), Some("4-10 Items"), Some("More than 10"), Some("Unknown")}
    ensures CalibrationRule(data) == None
  {
    var answer := TextOf(data, "overdueCalibrations").value;
    if answer[0] == '1' || answer[0] == '4' {
      LabelReadsLeadingDigit(answer);
    } else {
      LabelIsNaN(answer);
    }
  }

  lemma LabelIsNaN(answer: string)
    requires answer != [] && 'A' <= answer[0] <= 'Z'
    ensures ParseInt(answer) == None
  {
    ParseIntOfNonNumeric(answer);
  }

  lemma LabelReadsLeadingDigit(answer: string)
    requires |answer| >= 2 && '1' <= answer[0] <= '9' && answer[1] == '-'
    ensures ParseInt(answer) == Some(answer[0] as int - '0' as int)
  {
    ParseIntOfOneDigit(answer);
  }

  /** A record that answers none of the fields the gap rules read (the empty
      record, or one with only the company name) reports cert-1,
      training-1, production-1 and financial-1, and scores 55. */
  lemma UnansweredRules(data: AssessmentData)
    requires "certifications" !in data && "capaSystemStatus" !in data && "trainingProgramType" !in data
    requires "calibrationProgram" !in data && "overdueCalibrations" !in data
    requires "toolControlMethod" !in data && "toolControlErrors" !in data
    requires "firstPassRate" !in data && "recurringFindings" !in data && "jobMargin" !in data
    ensures ExpectedGaps(data) == [Cert1Gap, Training1Gap, ProductionGap(High, "undefined"), FinancialGap("undefined")]
    ensures GapIds(ExpectedGaps(data)) == ["cert-1", "training-1", "production-1", "financial-1"]
    ensures Score(data) == 55
  {
    ParseIntOfDigits("0");
    assert DigitsValue("0", 10) == 0;
    FourOfEight(CertRule(data), QualityRule(data), TrainingRule(data), CalibrationRule(data),
      ToolRule(data), ProductionRule(data), AuditRule(data), FinancialRule(data), "undefined", "undefined");
  }

  /** The table's list and points when exactly the certification, training,
      production (high) and financial rules fire. */
  lemma FourOfEight(o0: Option<Finding>, o1: Option<Finding>, o2: Option<Finding>, o3: Option<Finding>,
                    o4: Option<Finding>, o5: Option<Finding>, o6: Option<Finding>, o7: Option<Finding>,
                    rate: string, margin: string)
    requires o0 == Some(Finding(Cert1Gap, 20)) && o1.None? && o2 == Some(Finding(Training1Gap, 12))
    requires o3.None? && o4.None? && o5 == Some(Finding(ProductionGap(High, rate), 8)) && o6.None?
    requires o7 == Some(Finding(FinancialGap(margin), 5))
    ensures var all := [] + PushedGap(o0) + PushedGap(o1) + PushedGap(o2) + PushedGap(o3)
      + PushedGap(o4) + PushedGap(o5) + PushedGap(o6) + PushedGap(o7);
      all == [Cert1Gap, Training1Gap, ProductionGap(High, rate), FinancialGap(margin)]
      && GapIds(all) == ["cert-1", "training-1", "production-1", "financial-1"]
    ensures 0 + AddedPoints(o0) + AddedPoints(o1) + AddedPoints(o2) + AddedPoints(o3)
      + AddedPoints(o4) + AddedPoints(o5) + AddedPoints(o6) + AddedPoints(o7) == 45
  {
    var all := [] + PushedGap(o0) + PushedGap(o1) + PushedGap(o2) + PushedGap(o3)
      + PushedGap(o4) + PushedGap(o5) + PushedGap(o6) + PushedGap(o7);
    assert all == [Cert1Gap] + [Training1Gap] + [ProductionGap(High, rate)] + [FinancialGap(margin)];
  }

  lemma EmptyRecord()
    ensures GapIds(ExpectedGaps(map[])) == ["cert-1", "training-1", "production-1", "financial-1"]
    ensures Score(map[]) == 55
  {
    UnansweredRules(map[]);
  }

  // ---------------------------------------------------------------------
  // Recommendations, savings

  /** The list is never empty and ends with the high-priority rec-4; the
      conditional ones come before it in the order rec-1, rec-2, rec-3. */
  lemma RecommendationsShape(data: AssessmentData)
    ensures var rs := ExpectedRecommendations(data); rs != [] && rs[|rs| - 1] == Rec4 && Rec4.priority == PriorityHigh
    ensures IsSubsequence(RecommendationIds(ExpectedRecommendations(data)), ["rec-1", "rec-2", "rec-3", "rec-4"])
  {
    ShapeOfFour(HighTurnover(data), SoftwareInadequate(data), InventoryWeak(data), Rec1, Rec2, Rec3, Rec4);
    assert [Rec1.id, Rec2.id, Rec3.id, Rec4.id] == ["rec-1", "rec-2", "rec-3", "rec-4"];
  }

  /** Three optional recommendations before a fixed last one keep the
      order of their ids. */
  lemma ShapeOfFour(b1: bool, b2: bool, b3: bool, r1: Recommendation, r2: Recommendation, r3: Recommendation, r4: Recommendation)
    ensures var rs := [] + RecommendedIf(b1, r1) + RecommendedIf(b2, r2) + RecommendedIf(b3, r3) + [r4];
      rs != [] && rs[|rs| - 1] == r4
      && IsSubsequence(RecommendationIds(rs), [r1.id, r2.id, r3.id, r4.id])
  {
    var rs := [] + RecommendedIf(b1, r1) + RecommendedIf(b2, r2) + RecommendedIf(b3, r3) + [r4];
    var t3 := RecommendedIf(b3, r3) + [r4];
    var t2 := RecommendedIf(b2, r2) + t3;
    var t1 := RecommendedIf(b1, r1) + t2;
    assert rs == t1;
    assert IsSubsequence(RecommendationIds([r4]), [r4.id]) by {
      assert RecommendationIds([r4]) == [r4.id];
    }
    OptionalHead(b3, r3, [r4], [r4.id]);
    OptionalHead(b2, r2, t3, [r3.id, r4.id]);
    OptionalHead(b1, r1, t2, [r2.id, r3.id, r4.id]);
  }

  /** An optional recommendation in front keeps the order of the ids. */
  lemma OptionalHead(b: bool, r: Recommendation, rest: seq<Recommendation>, order: seq<string>)
    requires IsSubsequence(RecommendationIds(rest), order)
    ensures IsSubsequence(RecommendationIds(RecommendedIf(b, r) + rest), [r.id] + order)
  {
    assert ([r.id] + order)[1..] == order;
    if b {
      var ids := RecommendationIds([r] + rest);
      assert ids[0] == r.id && ids[1..] == RecommendationIds(rest);
    } else {
      assert RecommendedIf(b, r) + rest == rest;
      SubsequenceOfTail(RecommendationIds(rest), [r.id] + order);
    }
  }

  /** rec-2 is given exactly when the tracking software is unanswered or the
      satisfaction is "Very dissatisfied" or "Dissatisfied". */
  lemma TechnologyRecommendationIff(data: AssessmentData)
    ensures Rec2 in ExpectedRecommendations(data) <==> SoftwareInadequate(data)
  {
    assert Rec2 != Rec1 && Rec2 != Rec3 && Rec2 != Rec4 by {
      assert Rec2.id[4] != Rec1.id[4] && Rec2.id[4] != Rec3.id[4] && Rec2.id[4] != Rec4.id[4];
    }
  }

  /** An empty list of tracking software is an answer (an array is truthy):
      it does not trigger rec-2. */
  lemma EmptySoftwareListIsAnswered(data: AssessmentData)
    requires TextsOf(data, "maintenanceTrackingSoftware") == Some([])
    requires !Is(data, "softwareSatisfaction", "Very dissatisfied") && !Is(data, "softwareSatisfaction", "Dissatisfied")
    ensures !SoftwareInadequate(data)
  {
  }

  /** A turnover of n% triggers rec-1 exactly above 15. */
  lemma TurnoverAtPercent(data: AssessmentData, n: nat)
    requires TextOf(data, "turnoverRate") == Some(NatToString(n) + "%")
    ensures HighTurnover(data) <==> n > 15
  {
    RemovePercentAfterDigits(NatToString(n));
    ParseIntOfNatToString(n);
  }
}
