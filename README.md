# Aviation MRO gap analysis: a Dafny model of the decision logic

The application is an assessment wizard for aircraft maintenance, repair and
overhaul (MRO) shops. The shop answers thirteen sections of questions. The
answers are kept in a store. A rule engine turns them into a gap-analysis
report: gaps, a score, recommendations and a summary. A ten-question quiz
flags weak areas before a sales lead is recorded. Beside these there are a
file-name sanitiser and a line breaker for the PDF report, a checkbox toggle,
the per-certification audit record, and the document upload section.

This project models that decision logic in Dafny 4.11 and proves what the
code promises about it. Code that builds values from expressions is written
as functions, with lemmas about them. Code that changes state step by step is
written as methods and classes, and each is proved equal to a function or a
new state. The modules are:

- `JsSemantics`: the JavaScript semantics the logic relies on. It covers:
  - white space and `trim`;
  - `parseInt` as a total function to `Option<int>`, where `None` is NaN;
  - `parseFloat` on a digits-and-dots string, `replace` with a string
    pattern, and the printing of integers;
  - truthiness, and a JavaScript value type;
  - `filter`, and the subsequence relation used for order.
- `AssessmentTypes`: the sparse assessment record, as a map from field name
  to value, and the result types of the report.
- `AssessmentProgress`: the "is filled" predicate, the relevant fields of
  each section, section completion and overall progress.
- `AssessmentStore`: the store, as a class whose actions replace its fields.
- `AssessmentForm`: the wizard's local copy and its navigation handlers.
- `GapAnalysis`: the eight ordered gap rules, the score, the four
  recommendation rules, the savings estimate and the summary lines.
  - The method `AnalyzeAssessment` pushes rule by rule.
  - It is proved equal to a declarative rule table.
- `Quiz`: the question table and `computeFlaggedAreas`, as a loop proved
  equal to a function.
- `QuizPage`: the quiz page state (answers, question index, pending
  auto-advance timers), the answers record and the result counts.
- `LeadValidation`: the e-mail pattern, the lead error record and the lead
  form.
- `PdfService`: `sanitizeFileName`, the download name, and `wrapText`. The
  text width is a function parameter.
- `DocumentUpload`: the admission loop of `handleFileSelect`, where the
  upload is an oracle indexed by file position, and `removeDoc`.
- `FormComponents`: the checkbox `toggleOption`.
- `RegulatoryAudit`: the per-certification audit fields and their update.

Inputs from outside the program are parameters:

- the analysis date;
- the outcome of each upload;
- the width of a text in the PDF font.

## Model

| member | source | states |
|---|---|---|
| JsSemantics.Trim | src/components/QuizPage.tsx:68-73 | `trim` gives the empty string exactly when the input is all white space; otherwise the result starts and ends with a non-white-space character and is no longer than the input |
| JsSemantics.IndexOf | src/services/pdfService.ts:370 | no index exactly when the character is absent; otherwise the index of its first occurrence |
| JsSemantics.RemoveFirst | src/services/gapAnalysisService.ts:82 | `replace('%', '')` leaves a string without the character unchanged and otherwise removes exactly its first occurrence |
| JsSemantics.DigitPrefix | src/services/gapAnalysisService.ts:54 | the digit prefix `parseInt` reads is a prefix of digits that cannot be extended |
| JsSemantics.NatToString | src/services/gapAnalysisService.ts:192 | the printed form of an integer is a non-empty digit string, denotes the integer, and has no leading zero |
| JsSemantics.ParseIntOfNatToString | src/services/gapAnalysisService.ts:82 | `parseInt` reads back every printed non-negative integer |
| JsSemantics.ParseIntOfDigits | src/services/gapAnalysisService.ts:54 | a non-empty string of decimal digits parses to its value |
| JsSemantics.ParseIntOfUnsigned | src/services/gapAnalysisService.ts:54 | a string starting with a digit, and not with `0x`, parses in base 10 |
| JsSemantics.ParseIntNaNWithoutLeadingDigit | src/services/gapAnalysisService.ts:54 | with no digit after the white space and sign, `parseInt` is NaN |
| JsSemantics.ParseIntOfNonNumeric | src/services/gapAnalysisService.ts:82-83 | a string starting with a character that is not white space, a sign or a digit is NaN |
| JsSemantics.ParseIntOfDigitsThen | src/services/gapAnalysisService.ts:82 | digits followed by a non-digit parse to the value of the digits |
| JsSemantics.ParseIntOfOneDigit | src/services/gapAnalysisService.ts:54 | a non-zero digit followed by a non-digit parses to that digit |
| JsSemantics.DigitPrefixOfDigits | src/services/gapAnalysisService.ts:54 | an all-digit string is its own digit prefix |
| JsSemantics.DigitPrefixOfDigitsThen | src/services/gapAnalysisService.ts:82 | the digit prefix of digits followed by anything starts with those digits |
| JsSemantics.RemovePercentAfterDigits | src/services/gapAnalysisService.ts:82 | removing the `%` from a digit string followed by `%` gives the digits |
| JsSemantics.KeepDigitsAndDots | src/services/gapAnalysisService.ts:178 | `replace(/[^0-9.]/g, '')` keeps only digits and dots, in their order |
| JsSemantics.ParseDecimal | src/services/gapAnalysisService.ts:178 | `parseFloat` of such a string is NaN exactly when it reads no digit; otherwise it is non-negative |
| JsSemantics.DigitsValuePositiveIff | src/services/gapAnalysisService.ts:179 | a digit string denotes a positive number exactly when one of its digits is not 0 |
| JsSemantics.ParseDecimalPositiveIff | src/services/gapAnalysisService.ts:178-179 | the revenue is positive exactly when a non-zero digit occurs in the literal `parseFloat` reads |
| JsSemantics.Filter | src/components/sections/FormComponents.tsx:76 | `filter` keeps exactly the elements that satisfy the predicate |
| JsSemantics.FilterIsSubsequence | src/components/sections/FormComponents.tsx:76 | `filter` keeps the relative order of the elements it keeps |
| JsSemantics.Count | src/utils/assessmentProgress.ts:90 | `filter(...).length` equals the whole length exactly when every element satisfies the predicate, and is 0 exactly when none does |
| AssessmentTypes.TextsOf | src/types/assessment.ts:12 | a list field reads as a list exactly when the record holds one there |
| AssessmentTypes.TimeframesOf | src/types/assessment.ts:84 | `auditSurveillance` reads as a record exactly when the record holds one there |
| AssessmentProgress.SelectedCertifications | src/utils/assessmentProgress.ts:40 | the selected certifications are those listed, without "None" |
| AssessmentProgress.RelevantSectionFieldsIff | src/utils/assessmentProgress.ts:31-72 | the relevant fields keep the order of the section's fields, and a field is relevant exactly when the section is not 0, the field belongs to the section, and its dependency rule holds |
| AssessmentProgress.NoRelevantFieldsOutsideSections | src/utils/assessmentProgress.ts:32-38 | section 0 and unknown section ids have no relevant field |
| AssessmentProgress.TextsFilledIff | src/utils/assessmentProgress.ts:26 | a list of strings is filled exactly when one of its strings is non-empty, so `['']` is unfilled |
| AssessmentProgress.TimeframesFilledIff | src/utils/assessmentProgress.ts:27 | a record is filled exactly when it has a key |
| AssessmentProgress.NestedListFilled | src/utils/assessmentProgress.ts:26 | a list is filled once any element is filled, however deeply nested |
| AssessmentProgress.CertificationSectionRelevance | src/utils/assessmentProgress.ts:39-48 | each revision or level field is relevant exactly when its certification is selected; "certifications" always is |
| AssessmentProgress.ToolControlSectionRelevance | src/utils/assessmentProgress.ts:50-53 | the error frequency is relevant exactly when tool-control errors are "Yes"; the other five fields always are |
| AssessmentProgress.SmsSectionRelevance | src/utils/assessmentProgress.ts:54-58 | the SMS program and maturity are relevant exactly when an SMS exists or is in development; the other two fields always are |
| AssessmentProgress.AuditSectionRelevance | src/utils/assessmentProgress.ts:59-68 | exactly one of the two surveillance fields is relevant, the per-certification record exactly when a certification other than "None" is selected |
| AssessmentProgress.HasSelectedIff | src/utils/assessmentProgress.ts:60-61 | there are selected certifications exactly when one other than "None" is listed |
| AssessmentProgress.AuditSurveillanceFilledIff | src/utils/assessmentProgress.ts:74-80 | the record counts as filled exactly when some certification other than "None" is selected and each such one has a non-empty entry |
| AssessmentProgress.PartialSurveillanceIncomplete | src/utils/assessmentProgress.ts:74-85 | one selected certification without a timeframe leaves the record unfilled and the audit section incomplete |
| AssessmentProgress.FilledCount | src/utils/assessmentProgress.ts:90 | the filled count is at most the field count, equals it exactly when every field is filled, and is 0 exactly when none is |
| AssessmentProgress.Share | src/utils/assessmentProgress.ts:91 | `filled / total` lies in [0,1], is 1 exactly when all are filled and 0 exactly when none is |
| AssessmentProgress.Percent | src/utils/assessmentProgress.ts:100 | the percentage lies in [0,100] and is 100 exactly when all are filled |
| AssessmentProgress.SectionCompletion | src/utils/assessmentProgress.ts:87-92 | completion lies in [0,1]; it is 0 without relevant fields, 1 exactly when there are relevant fields and all are filled, and 0 exactly when none is filled |
| AssessmentProgress.PooledProgress | src/utils/assessmentProgress.ts:97-100 | the pooled percentage lies in [0,100], is 0 for no fields and 100 exactly when all are filled |
| AssessmentProgress.OverallProgress | src/utils/assessmentProgress.ts:94-101 | overall progress over the pooled relevant fields of sections 0 to 13 lies in [0,100] and is 100 exactly when they exist and are all filled |
| AssessmentProgress.CompleteWhenRelevantFilled | src/utils/assessmentProgress.ts:87-92 | a section whose relevant fields are all filled is complete |
| AssessmentProgress.ToolControlCompleteWithoutErrors | scripts/check-progress.mjs:79-92 | without reported tool-control errors, the section is complete once the other five fields are filled |
| AssessmentProgress.ToolControlFieldsOrder | src/utils/assessmentProgress.ts:14 | the tool-control section has six fields, with the error frequency last |
| AssessmentProgress.ToolControlField | src/utils/assessmentProgress.ts:14 | the tool-control fields other than the error frequency are exactly the five named ones |
| AssessmentProgress.SmsFieldsWithoutSms | src/utils/assessmentProgress.ts:54-58 | without an SMS the SMS section asks exactly "hasSMS" and "challenges" |
| AssessmentProgress.CompleteWhenTwoRelevant | src/utils/assessmentProgress.ts:87-92 | a section asking exactly two fields, both filled, is complete |
| AssessmentProgress.SmsCompleteWithoutSms | scripts/check-progress.mjs:94-98 | without an SMS, the SMS section is complete once "hasSMS" and "challenges" are filled |
| AssessmentProgress.AuditFieldsOrder | src/utils/assessmentProgress.ts:19 | the audit section has nine fields, starting with the two surveillance fields |
| AssessmentProgress.SectionFieldFilled | src/utils/assessmentProgress.ts:82-85 | a relevant audit field is filled once the common fields and the applicable surveillance field are |
| AssessmentProgress.AuditCompleteWithCertifications | scripts/check-progress.mjs:28-48 | with certifications selected, the audit section is complete once the per-certification record covers them and the seven common fields are filled |
| AssessmentProgress.AuditCompleteWithoutCertifications | scripts/check-progress.mjs:50-67 | with no certification other than "None", the single FAA field replaces the record and the section is complete once it and the common fields are filled |
| AssessmentStore.InitialAssessmentData | src/store/assessmentStore.ts:27-37 | the initial record holds exactly the nine list fields, each `[]` |
| AssessmentStore.Merge | src/store/assessmentStore.ts:43 | `{ ...current, ...update }`: the keys of both, the update's values winning, the rest unchanged |
| AssessmentStore.MergeIdempotent | src/store/assessmentStore.ts:41-44 | merging the same update twice equals merging it once |
| AssessmentStore.MergeEmpty | src/store/assessmentStore.ts:41-44 | merging the empty record changes nothing |
| AssessmentStore.MergeLaterWins | src/store/assessmentStore.ts:41-44 | two merges in a row equal one merge of both, the later update winning |
| AssessmentStore.PreviousStepOf | src/store/assessmentStore.ts:50 | `Math.max(0, step - 1)` is never negative: one less from step 1 on, 0 below |
| AssessmentStore.StepRoundTrips | src/store/assessmentStore.ts:49-50 | back after forward returns to a non-negative step; forward after back returns to a positive step |
| AssessmentStore.RepeatPrevious | src/store/assessmentStore.ts:50 | going back `times` times from a step lands `times` steps lower, or at 0 when that would be below 0 |
| AssessmentStore.PreviousStepsReachZero | src/store/assessmentStore.ts:50 | going back at least `step` times ends at 0 |
| AssessmentStore.Store.constructor | src/store/assessmentStore.ts:40-57 | the initial record, step 0, no result and both busy flags off |
| AssessmentStore.Store.UpdateAssessmentData | src/store/assessmentStore.ts:41-44 | the record becomes the merge of the old record and the update; nothing else changes |
| AssessmentStore.Store.ResetAssessmentData | src/store/assessmentStore.ts:45 | the record becomes the initial record; nothing else changes |
| AssessmentStore.Store.SetCurrentStep | src/store/assessmentStore.ts:48 | the step becomes the given one; nothing else changes |
| AssessmentStore.Store.NextStep | src/store/assessmentStore.ts:49 | the step grows by exactly one; nothing else changes |
| AssessmentStore.Store.PreviousStep | src/store/assessmentStore.ts:50 | the step goes back one, never below 0; nothing else changes |
| AssessmentStore.Store.SetAnalysisResult | src/store/assessmentStore.ts:53 | only the analysis result changes |
| AssessmentStore.Store.SetIsAnalyzing | src/store/assessmentStore.ts:56 | only the analyzing flag changes |
| AssessmentStore.Store.SetIsGeneratingPDF | src/store/assessmentStore.ts:58 | only the PDF flag changes |
| AssessmentForm.SectionIdsArePositions | src/components/AssessmentForm.tsx:19-33 | the thirteen section ids are their positions 0 to 12 |
| AssessmentForm.ProgressPercentage | src/components/AssessmentForm.tsx:63 | progress at a section step lies in (0,100] and is exactly 100 at the last step only |
| AssessmentForm.ProgressIncreases | src/components/AssessmentForm.tsx:63 | each step forward adds 100/13 to the progress |
| AssessmentForm.CheckedSections | src/components/AssessmentForm.tsx:96-107 | a section shows its check exactly when its id is below the current step |
| AssessmentForm.FilterBelowIsPrefix | src/components/AssessmentForm.tsx:107 | filtering consecutive ids by "below the step" keeps the prefix up to the step |
| AssessmentForm.CheckedAreThoseBefore | src/components/AssessmentForm.tsx:107 | the checked sections are exactly the first `currentStep` sections |
| AssessmentForm.Wizard.constructor | src/components/AssessmentForm.tsx:37-38 | the local copy starts as the store's record |
| AssessmentForm.Wizard.SetLocalData | src/components/AssessmentForm.tsx:126-127 | a section replaces the local copy; the store is untouched |
| AssessmentForm.Wizard.HandleNext | src/components/AssessmentForm.tsx:41-51 | the local copy is merged into the store first; at the last step the route becomes the results page with the step unchanged, otherwise the step grows by one, so a section step stays a section step |
| AssessmentForm.Wizard.HandlePrevious | src/components/AssessmentForm.tsx:53-56 | merge first, then one step back, never below 0 |
| AssessmentForm.Wizard.HandleSectionClick | src/components/AssessmentForm.tsx:58-61 | merge first, then the clicked section's id as the step |
| AssessmentForm.ClickedSectionsAreSteps | src/components/AssessmentForm.tsx:96-99 | a clicked section id is always a section step |
| GapAnalysis.CertRule | src/services/gapAnalysisService.ts:11-23 | the rule takes off at most 20 points; when it fires, its gap has the id cert-1 and a positive deduction |
| GapAnalysis.QualityRule | src/services/gapAnalysisService.ts:25-37 | the rule takes off at most 15 points; when it fires, its gap has the id quality-1 and a positive deduction |
| GapAnalysis.TrainingRule | src/services/gapAnalysisService.ts:39-51 | the rule takes off at most 12 points; when it fires, its gap has the id training-1 and a positive deduction |
| GapAnalysis.CalibrationRule | src/services/gapAnalysisService.ts:53-65 | the rule takes off at most 15 points; when it fires, its gap has the id calibration-1 and a positive deduction |
| GapAnalysis.ToolRule | src/services/gapAnalysisService.ts:67-79 | the rule takes off at most 10 points; when it fires, its gap has the id tool-1 and a positive deduction |
| GapAnalysis.ProductionRule | src/services/gapAnalysisService.ts:81-94 | the rule takes off at most 8 points; when it fires, its gap has the id production-1 and a positive deduction |
| GapAnalysis.AuditRule | src/services/gapAnalysisService.ts:96-108 | the rule takes off at most 15 points; when it fires, its gap has the id audit-1 and a positive deduction |
| GapAnalysis.FinancialRule | src/services/gapAnalysisService.ts:110-123 | the rule takes off at most 5 points; when it fires, its gap has the id financial-1 and a positive deduction |
| GapAnalysis.GapIds | src/services/gapAnalysisService.ts:7 | the ids of the gaps, position by position |
| GapAnalysis.AnalyzeCertifications | src/services/gapAnalysisService.ts:11-23 | the certification step pushes the cert rule's gap, if any, and adds its points |
| GapAnalysis.AnalyzeQualitySystems | src/services/gapAnalysisService.ts:25-37 | the quality step pushes the quality rule's gap, if any, and adds its points |
| GapAnalysis.AnalyzeTraining | src/services/gapAnalysisService.ts:39-51 | the training step pushes the training rule's gap, if any, and adds its points |
| GapAnalysis.AnalyzeCalibration | src/services/gapAnalysisService.ts:53-65 | the calibration step pushes the calibration rule's gap, if any, and adds its points |
| GapAnalysis.AnalyzeToolControl | src/services/gapAnalysisService.ts:67-79 | the tool-control step pushes the tool rule's gap, if any, and adds its points |
| GapAnalysis.AnalyzeProductionMetrics | src/services/gapAnalysisService.ts:81-94 | the production step pushes the production rule's gap, if any, and adds its points |
| GapAnalysis.AnalyzeAuditFindings | src/services/gapAnalysisService.ts:96-108 | the audit step pushes the audit rule's gap, if any, and adds its points |
| GapAnalysis.AnalyzeFinancialMetrics | src/services/gapAnalysisService.ts:110-123 | the financial step pushes the financial rule's gap, if any, and adds its points |
| GapAnalysis.AnalyzeGaps | src/services/gapAnalysisService.ts:7-123 | the eight steps together give the gaps of the rule table in rule order and the sum of their deductions |
| GapAnalysis.GenerateRecommendations | src/services/gapAnalysisService.ts:125-170 | the pushed recommendations are those of the recommendation rules, in order |
| GapAnalysis.CompanyName | src/services/gapAnalysisService.ts:186 | the company name is never empty, and is "Your Organization" exactly when the name is absent, empty or that text |
| GapAnalysis.Savings | src/services/gapAnalysisService.ts:176-191 | a savings estimate exists exactly when the parsed revenue is positive, with 0 < lower < upper |
| GapAnalysis.CountSeverity | src/services/gapAnalysisService.ts:193-194 | the count of gaps of one severity is at most the number of gaps, and 0 exactly when none has it |
| GapAnalysis.Insights | src/services/gapAnalysisService.ts:192-197 | exactly four summary lines; the fourth is the strong-posture line exactly when there are no gaps |
| GapAnalysis.AnalyzeAssessment | src/services/gapAnalysisService.ts:3-201 | the result carries the company name, the given date, the rule table's gaps, the score, the recommendations, the savings and the four insights |
| GapAnalysis.ScoreIsHundredMinusDeductions | src/services/gapAnalysisService.ts:173 | the deductions never exceed 100, so the score is exactly 100 minus them and lies in [0,100] |
| GapAnalysis.DeductionsBound | src/services/gapAnalysisService.ts:11-123 | the deductions are at most the sum of the eight largest, which is 100 |
| GapAnalysis.FiringCosts | src/services/gapAnalysisService.ts:11-123 | a rule pushes at most one gap, and takes off points exactly when it pushes one |
| GapAnalysis.PerfectScoreIffNoGaps | src/services/gapAnalysisService.ts:173 | the score is 100 exactly when no gap fires |
| GapAnalysis.StrongPostureIffPerfectScore | src/services/gapAnalysisService.ts:173-196 | the strong-posture line appears exactly when the score is 100 |
| GapAnalysis.GapsFollowRuleOrder | src/services/gapAnalysisService.ts:11-123 | the gaps appear in the order cert-1, quality-1, training-1, calibration-1, tool-1, production-1, audit-1, financial-1 |
| GapAnalysis.OrderOfEight | src/services/gapAnalysisService.ts:11-123 | eight pushes, each of its own id, keep the order of those ids |
| GapAnalysis.OrderStep | src/services/gapAnalysisService.ts:11-123 | one more push keeps the ids in order |
| GapAnalysis.CertificationGapIff | src/services/gapAnalysisService.ts:11-23 | the first gap is cert-1 exactly when certifications are absent, empty or include "None", even beside real ones; it is then critical and takes off 20 |
| GapAnalysis.FirstOfEight | src/services/gapAnalysisService.ts:11-123 | the first gap is cert-1 exactly when the first rule fires |
| GapAnalysis.ProductionWithoutRate | src/services/gapAnalysisService.ts:82-86 | an absent first pass rate parses as 0 and gives the high production gap of 8 points, quoting the rate as "undefined" |
| GapAnalysis.ProductionUnknownRate | src/services/gapAnalysisService.ts:82-94 | "Unknown" parses to NaN and fires no production gap |
| GapAnalysis.PercentFieldOf | src/services/gapAnalysisService.ts:82-111 | a field "n%" reads as n and is quoted as "n%" |
| GapAnalysis.ProductionAtPercent | src/services/gapAnalysisService.ts:82-94 | a rate "n%" gives a high gap of 8 below 70, a medium gap of 5 from 70 to 84, and none from 85 |
| GapAnalysis.FinancialAtPercent | src/services/gapAnalysisService.ts:110-123 | a job margin "n%" fires financial-1 exactly when n < 15 |
| GapAnalysis.CalibrationAtCount | src/services/gapAnalysisService.ts:53-65 | without the exact "No formal program", an overdue count n fires calibration-1 exactly when n > 5, and then it is high and takes off 8 |
| GapAnalysis.OverdueBucketsNeverFlag | src/services/gapAnalysisService.ts:54 | the bucket labels of the overdue question parse to NaN, 1 or 4, so none of them fires the calibration gap |
| GapAnalysis.LabelIsNaN | src/services/gapAnalysisService.ts:54 | a label starting with a capital letter parses to NaN |
| GapAnalysis.LabelReadsLeadingDigit | src/services/gapAnalysisService.ts:54 | a range label "d-…" parses to its first digit |
| GapAnalysis.UnansweredRules | src/services/gapAnalysisService.ts:12-173 | with the rule fields unanswered, exactly cert-1, training-1, production-1 and financial-1 fire, and the score is 55 |
| GapAnalysis.FourOfEight | src/services/gapAnalysisService.ts:11-123 | those four firings give those four gaps and 45 points |
| GapAnalysis.EmptyRecord | src/services/gapAnalysisService.ts:12-173 | the empty record gives cert-1, training-1, production-1, financial-1 and score 55 |
| GapAnalysis.RecommendationsShape | src/services/gapAnalysisService.ts:126-170 | the recommendations are never empty, end with the high-priority rec-4, and keep the order rec-1, rec-2, rec-3, rec-4 |
| GapAnalysis.ShapeOfFour | src/services/gapAnalysisService.ts:126-170 | three optional pushes before a fixed one keep the order of the ids and end with the fixed one |
| GapAnalysis.OptionalHead | src/services/gapAnalysisService.ts:126-136 | an optional push in front keeps the ids in order |
| GapAnalysis.TechnologyRecommendationIff | src/services/gapAnalysisService.ts:138 | rec-2 is given exactly when the tracking software is absent or the satisfaction is "Very dissatisfied" or "Dissatisfied" |
| GapAnalysis.EmptySoftwareListIsAnswered | src/services/gapAnalysisService.ts:138 | an empty software list, without dissatisfaction, does not give rec-2 |
| GapAnalysis.TurnoverAtPercent | src/services/gapAnalysisService.ts:126 | a turnover "n%" meets the rec-1 condition exactly when n > 15 |
| Quiz.Describe | src/types/quiz.ts:235-248 | a flag takes the canned text of its area when the area has an entry, and the fallback text otherwise |
| Quiz.FindOption | src/types/quiz.ts:231 | `find` gives an option exactly when one has the value, and then the first such option |
| Quiz.QuestionFlag | src/types/quiz.ts:228-250 | a question's flag carries its area, its label and the description of its area and severity |
| Quiz.Raised | src/types/quiz.ts:227 | one possible flag per question, in question order |
| Quiz.Somes | src/types/quiz.ts:236-244 | the pushed flags are at most one per question |
| Quiz.Flags | src/types/quiz.ts:224-253 | at most one flag per question |
| Quiz.ComputeFlaggedAreas | src/types/quiz.ts:224-253 | the loop gives the flags of the question table, at most ten |
| Quiz.CollectFlags | src/types/quiz.ts:227-253 | the loop over any question table gives that table's flags |
| Quiz.RaisedSnoc | src/types/quiz.ts:227-252 | one more question adds its own flag, if any, at the end |
| Quiz.VisitQuestion | src/types/quiz.ts:228-251 | one loop iteration appends the question's flag, if any, to the list |
| Quiz.FlagAreas | src/types/quiz.ts:237 | the areas of the flags, position by position |
| Quiz.QuestionAreas | src/types/quiz.ts:46-177 | the areas of the questions, position by position |
| Quiz.RaisedIsListed | src/types/quiz.ts:236-244 | every raised flag is in the output |
| Quiz.ListedIsRaised | src/types/quiz.ts:236-244 | every flag in the output was raised by some question |
| Quiz.AllRaised | src/types/quiz.ts:227-252 | when every question raises a flag, the output is those flags in order |
| Quiz.NoneRaised | src/types/quiz.ts:227-252 | when no question raises a flag, the output is empty |
| Quiz.RaisedInOrder | src/types/quiz.ts:227 | the areas of the output keep the order of the questions that raised them |
| Quiz.FlagAreasAppend | src/types/quiz.ts:237 | the areas of two lists of flags put together are the two lists of areas put together |
| Quiz.RaisedDistinct | src/types/quiz.ts:227 | distinct areas at the raising questions give distinct areas in the output |
| Quiz.QuestionFlagSeverity | src/types/quiz.ts:234-250 | with distinct option values, a question's flag is high exactly when the answer is an option of weight 2 or more, and medium exactly when it is one of weight 1 |
| Quiz.OptionValuesDistinct1 | src/types/quiz.ts:46-59 | the options of question 1 have distinct, non-empty values |
| Quiz.OptionValuesDistinct2 | src/types/quiz.ts:60-72 | the options of question 2 have distinct, non-empty values |
| Quiz.OptionValuesDistinct3 | src/types/quiz.ts:73-85 | the options of question 3 have distinct, non-empty values |
| Quiz.OptionValuesDistinct4 | src/types/quiz.ts:86-98 | the options of question 4 have distinct, non-empty values |
| Quiz.OptionValuesDistinct5 | src/types/quiz.ts:99-111 | the options of question 5 have distinct, non-empty values |
| Quiz.OptionValuesDistinct6 | src/types/quiz.ts:112-124 | the options of question 6 have distinct, non-empty values |
| Quiz.OptionValuesDistinct7 | src/types/quiz.ts:125-137 | the options of question 7 have distinct, non-empty values |
| Quiz.OptionValuesDistinct8 | src/types/quiz.ts:138-150 | the options of question 8 have distinct, non-empty values |
| Quiz.OptionValuesDistinct9 | src/types/quiz.ts:151-163 | the options of question 9 have distinct, non-empty values |
| Quiz.OptionValuesDistinct10 | src/types/quiz.ts:164-176 | the options of question 10 have distinct, non-empty values |
| Quiz.AreasDistinct | src/types/quiz.ts:46-177 | the ten flag areas are distinct |
| Quiz.QuestionTableFacts | src/types/quiz.ts:46-222 | ten questions with distinct areas and distinct option values; each area has a description, and each question has four options, the first of weight 0 |
| Quiz.FlagsInQuestionOrder | src/types/quiz.ts:224-253 | at most ten flags, their areas in question order, never one area twice |
| Quiz.FlagSeverityIff | src/types/quiz.ts:234-250 | question k's area is flagged high exactly when its answer is an option of weight 2 or more, and medium exactly when it is one of weight 1 |
| Quiz.SkippedAnswerRaisesNothing | src/types/quiz.ts:229-232 | a missing or empty answer, or one that is no option's value, flags nothing for that question |
| Quiz.CannedDescriptions | src/types/quiz.ts:181-248 | every flag carries the canned text of its area and severity, never a fallback |
| Quiz.FirstOptionsRaiseNothing | src/types/quiz.ts:46-253 | answering every question with its first option gives no flag |
| Quiz.MajorOptionsRaiseTenHighFlags | src/types/quiz.ts:46-253 | choosing a weight-2 option everywhere gives ten high flags in question order |
| QuizPage.QuizPageState.constructor | src/components/QuizPage.tsx:32-45 | the quiz step, question 0, no answers, no flags and an empty lead form |
| QuizPage.QuizPageState.SelectAnswer | src/components/QuizPage.tsx:54-62 | only the current question's answer is overwritten; a timer is started except on the last question |
| QuizPage.QuizPageState.AdvanceTimerFires | src/components/QuizPage.tsx:58 | a pending timer moves to the next question, unbounded |
| QuizPage.QuizPageState.AdvanceTimerFiresClamped | src/components/QuizPage.tsx:58 | the intended timer moves forward but never past the last question, so the current question stays defined |
| QuizPage.QuizPageState.Back | src/components/QuizPage.tsx:178-179 | one question back, never below 0 |
| QuizPage.QuizPageState.NextQuestion | src/components/QuizPage.tsx:185-189 | with the current question answered and not last, one question forward |
| QuizPage.QuizPageState.JumpToQuestion | src/components/QuizPage.tsx:207-211 | a question dot moves to its own question, which exists |
| QuizPage.QuizPageState.BackToQuiz | src/components/QuizPage.tsx:230 | only the step changes, back to the quiz, with the answers and the question kept |
| QuizPage.QuizPageState.GoToLeadCapture | src/components/QuizPage.tsx:64 | only the step changes, to the lead form |
| QuizPage.DoubleSelectOverruns | src/components/QuizPage.tsx:57-59 | two clicks on the second-to-last question, then their two timers firing, leave the index past the last question |
| QuizPage.DoubleSelectClamped | src/components/QuizPage.tsx:57-59 | with the clamped timer the same clicks stop at the last question |
| QuizPage.SkippedShortens | src/types/quiz.ts:229-232 | a question that raises no flag makes the output shorter than the table |
| QuizPage.UnansweredLimitsFlags | src/components/QuizPage.tsx:52 | while some question lacks a truthy answer, fewer than ten areas are flagged |
| QuizPage.StringEntries | src/components/QuizPage.tsx:88-93 | every key of the record comes from an entry with a string value |
| QuizPage.BuildAnswersRecord | src/components/QuizPage.tsx:88-93 | the loop copies exactly the string-valued entries, a later entry winning |
| QuizPage.StringEntriesKeepStrings | src/components/QuizPage.tsx:88-93 | with distinct keys, each string-valued entry is kept with its value |
| QuizPage.AnswersRecordKeepsAnswers | src/components/QuizPage.tsx:88-93 | the entries of a record of strings give that record back |
| QuizPage.HighFlags | src/components/QuizPage.tsx:126 | exactly the high flags |
| QuizPage.MediumFlags | src/components/QuizPage.tsx:127 | exactly the medium flags |
| QuizPage.SeverityPartition | src/components/QuizPage.tsx:126-127 | every flag is in exactly one of the two lists, each in the original order |
| QuizPage.AreasClearBounds | src/components/QuizPage.tsx:399 | the "areas clear" count lies in [0,10] and is 10 exactly when no area is flagged |
| LeadValidation.IsValidEmail | src/components/QuizPage.tsx:69 | an accepted e-mail contains "@" and has at least five characters |
| LeadValidation.EmailCheckSound | src/components/QuizPage.tsx:69 | what the check accepts matches `^[^\s@]+@[^\s@]+\.[^\s@]+$` |
| LeadValidation.EmailCheckComplete | src/components/QuizPage.tsx:69 | whatever matches the pattern is accepted |
| LeadValidation.EmailCheckIsPattern | src/components/QuizPage.tsx:69 | the check accepts exactly the strings the pattern matches |
| LeadValidation.MatchHasNoWhiteSpace | src/components/QuizPage.tsx:69 | a match contains no white space |
| LeadValidation.MatchHasOneAt | src/components/QuizPage.tsx:69 | a match has no "@" after the one that splits it |
| LeadValidation.ChecksOf | src/components/QuizPage.tsx:68-74 | each blank check holds exactly when the entry is all white space, so its trim is empty |
| LeadValidation.ErrorsOf | src/components/QuizPage.tsx:67-74 | an entry is recorded exactly for each failing check, with that check's message |
| LeadValidation.SameErrors | src/components/QuizPage.tsx:67-74 | a record with exactly those entries and messages is the error record |
| LeadValidation.EmailEntry | src/components/QuizPage.tsx:68-70 | the e-mail entry is recorded exactly when the trimmed e-mail is blank or does not match; blank gives "Email is required", not the format error |
| LeadValidation.RequiredChecks | src/components/QuizPage.tsx:71-74 | the company, contact, phone and consent entries are recorded exactly when their checks fail |
| LeadValidation.RequiredEntries | src/components/QuizPage.tsx:71-74 | a company, contact or phone of white space only counts as missing; consent must be given |
| LeadValidation.LeadValidIff | src/components/QuizPage.tsx:66-77 | the error record is empty exactly when the trimmed e-mail matches and the other entries are present and consent is given |
| LeadValidation.RecordErrors | src/components/QuizPage.tsx:67-74 | the checks written one by one give the error record |
| LeadValidation.LeadForm.constructor | src/components/QuizPage.tsx:35-45 | empty lead entries, no consent and no errors |
| LeadValidation.LeadForm.SetLeadInfo | src/components/QuizPage.tsx:35 | the lead entries are replaced; the errors stay |
| LeadValidation.LeadForm.ValidateLead | src/components/QuizPage.tsx:66-77 | the stored errors are those of the lead, and the answer is true exactly when the lead is complete |
| PdfService.CollapseRuns | src/services/pdfService.ts:392-394 | every character of the result is an underscore or a non-matching character of the input; a matching first character becomes an underscore and any other is kept |
| PdfService.KeepSafe | src/services/pdfService.ts:393 | only characters of `[a-zA-Z0-9_-]`, each from the input |
| PdfService.SanitizeFileName | src/services/pdfService.ts:390-397 | never empty |
| PdfService.CollapseRunsUnchanged | src/services/pdfService.ts:392-394 | a string without matching characters is unchanged |
| PdfService.CollapseRunsAfterPlain | src/services/pdfService.ts:392 | a prefix without matching characters is kept as it is |
| PdfService.KeepSafeUnchanged | src/services/pdfService.ts:393 | a safe string is unchanged |
| PdfService.CollapsedUnderscoresAreSingle | src/services/pdfService.ts:394 | after the squeeze there is no "__" |
| PdfService.CollapseUnderscoresUnchanged | src/services/pdfService.ts:394 | a string without "__" is unchanged by the squeeze |
| PdfService.SqueezeKeepsSafe | src/services/pdfService.ts:393-394 | the squeeze keeps a safe string safe |
| PdfService.SliceKeepsSafety | src/services/pdfService.ts:395 | a slice of a safe string without "__" is again safe and without "__" |
| PdfService.TrimmedSlice | src/services/pdfService.ts:395 | stripping underscores at both ends gives a slice with no underscore at either end |
| PdfService.TrimmedIsClean | src/services/pdfService.ts:395 | the stripped result of a safe string without "__" is clean when non-empty |
| PdfService.FallbackIsClean | src/services/pdfService.ts:396 | "Gap_Analysis" is clean |
| PdfService.SanitizedIsClean | src/services/pdfService.ts:390-397 | the result is non-empty, uses only `[A-Za-z0-9_-]`, has no "__" and no underscore at either end |
| PdfService.SanitizeWhenSpacedIsClean | src/services/pdfService.ts:392-396 | a name whose white-space runs, once replaced, give a clean name sanitises to that name |
| PdfService.SanitizeKeepsCleanName | src/services/pdfService.ts:390-397 | a clean name is unchanged |
| PdfService.SanitizeIdempotent | src/services/pdfService.ts:390-397 | sanitising twice equals sanitising once |
| PdfService.SafeHasNoWhiteSpace | src/services/pdfService.ts:392-393 | safe characters are never white space |
| PdfService.JoinedCleanNames | src/services/pdfService.ts:394-395 | two clean names joined by one underscore are clean |
| PdfService.DropWhiteSpaceRun | src/services/pdfService.ts:392 | a white-space run before a word is skipped up to the word |
| PdfService.SpacedJoin | src/services/pdfService.ts:392 | a white-space run between two clean names becomes one underscore |
| PdfService.WhiteSpaceRunBecomesUnderscore | src/services/pdfService.ts:392-394 | "Acme  MRO" and any run of white space between clean names sanitise to one underscore |
| PdfService.DownloadName | src/services/pdfService.ts:362 | the download name ends in "_Report.pdf" after a non-empty stem |
| PdfService.DownloadNameShape | src/services/pdfService.ts:362 | the download name is a clean stem followed by "_Report.pdf", and a clean company name is used as it is |
| PdfService.EmptyCompanyDownloadName | src/services/pdfService.ts:362 | an empty company name gives "Gap_Analysis_Report.pdf" |
| PdfService.Split | src/services/pdfService.ts:370 | `split(' ')` gives at least one part, none containing the separator |
| PdfService.JoinSnoc | src/services/pdfService.ts:375 | joining with one more part appends the separator and the part |
| PdfService.SplitJoin | src/services/pdfService.ts:370 | splitting a join of separator-free parts gives the parts back |
| PdfService.WrapText | src/services/pdfService.ts:369-388 | the loop gives the lines of the greedy wrapping |
| PdfService.WrapRunLines | src/services/pdfService.ts:374-385 | each finished line is non-empty and fits or is one word; so is the current line |
| PdfService.WrapLinesFit | src/services/pdfService.ts:375-386 | every line is non-empty and either fits the width or is a single word of the text |
| PdfService.WrapRunJoin | src/services/pdfService.ts:370-387 | for non-empty words, joining the lines with spaces gives the words joined with spaces |
| PdfService.WrapRoundTrip | src/services/pdfService.ts:370-387 | for non-empty words separated by single spaces, joining the lines with " " gives back the text |
| PdfService.WrapEmptyText | src/services/pdfService.ts:370-387 | empty text gives no line |
| DocumentUpload.Min | src/components/sections/DocumentUploadSection.tsx:27 | `Math.min` is the smaller of the two |
| DocumentUpload.Remaining | src/components/sections/DocumentUploadSection.tsx:26-27 | at most the number of files and the free places, and equal to one of them |
| DocumentUpload.Looked | src/components/sections/DocumentUploadSection.tsx:35 | the loop looks at no more files than were chosen, and, if it looks at any, no more than the free places |
| DocumentUpload.FirstError | src/components/sections/DocumentUploadSection.tsx:29-31 | the too-many-files message is set exactly when more files were chosen than fit |
| DocumentUpload.Attempt | src/components/sections/DocumentUploadSection.tsx:35-50 | after k files at most k documents are collected |
| DocumentUpload.FileNames | src/components/sections/DocumentUploadSection.tsx:49 | the names of the files, position by position |
| DocumentUpload.DocNames | src/components/sections/DocumentUploadSection.tsx:49 | the names of the documents, position by position |
| DocumentUpload.AttemptFailsIff | src/components/sections/DocumentUploadSection.tsx:47 | the loop has thrown exactly when one of the uploads it reached failed |
| DocumentUpload.AttemptAddsSmallFiles | src/components/sections/DocumentUploadSection.tsx:37-49 | without a failure the collected documents are the files within 25 MB, in selection order |
| DocumentUpload.DocNamesSnoc | src/components/sections/DocumentUploadSection.tsx:49 | one more document adds its name at the end |
| DocumentUpload.FileNamesSnoc | src/components/sections/DocumentUploadSection.tsx:49 | one more file adds its name at the end |
| DocumentUpload.AttemptKeepsStart | src/components/sections/DocumentUploadSection.tsx:29-40 | without an oversized file the message stays the first one, and a too-many-files message is always the first one |
| DocumentUpload.FailedStays | src/components/sections/DocumentUploadSection.tsx:47-57 | after a failure nothing changes any more |
| DocumentUpload.RemoveDoc | src/components/sections/DocumentUploadSection.tsx:65 | removes exactly the document at the index and keeps the others in order; an index out of range changes nothing |
| DocumentUpload.RemoveDocRoundTrip | src/components/sections/DocumentUploadSection.tsx:65 | putting the removed document back at its index gives the list back; as multisets one document went |
| DocumentUpload.RemoveDocUpdate | src/components/sections/DocumentUploadSection.tsx:64-67 | only the documents field changes, to the list without the removed one |
| DocumentUpload.UploadSection.constructor | src/components/sections/DocumentUploadSection.tsx:14-15 | not uploading, no message |
| DocumentUpload.UploadSection.HandleFileSelect | src/components/sections/DocumentUploadSection.tsx:20-62 | no file: nothing happens; a failed upload: no update and the failure message; otherwise the old documents followed by the collected ones, and the last message; uploading is off at the end |
| DocumentUpload.NeverMoreThanMaxFiles | src/components/sections/DocumentUploadSection.tsx:10-35 | at most twenty documents before means at most twenty after |
| DocumentUpload.OnlyFirstFilesAttempted | src/components/sections/DocumentUploadSection.tsx:26-35 | the loop over the first n files depends only on the outcomes of those n uploads, and collects at most n documents |
| DocumentUpload.SameOutcomesSameAttempt | src/components/sections/DocumentUploadSection.tsx:35-50 | the loop after k files depends only on the outcomes of the first k uploads |
| FormComponents.ToggleFlips | src/components/sections/FormComponents.tsx:74-80 | the option's membership is flipped |
| FormComponents.ToggleAppendsAbsent | src/components/sections/FormComponents.tsx:78 | an absent option is appended at the end |
| FormComponents.ToggleRemovesPresent | src/components/sections/FormComponents.tsx:76 | a present option is removed with all its duplicates; the list gets shorter and keeps its order |
| FormComponents.ToggleKeepsOthers | src/components/sections/FormComponents.tsx:76-78 | other options keep their membership and their relative order |
| FormComponents.ToggleTwiceAbsent | src/components/sections/FormComponents.tsx:75-79 | toggling an absent option twice gives the list back |
| FormComponents.ToggleTwicePresent | src/components/sections/FormComponents.tsx:75-79 | toggling a present option twice leaves one copy of it, at the end |
| FormComponents.ToggleUndefined | src/components/sections/FormComponents.tsx:75-78 | an undefined list acts as the empty list |
| RegulatoryAudit.ShownCertificationFields | src/components/sections/RegulatoryAuditSection.tsx:77 | the per-certification fields are the selected certifications in order, without "None" |
| RegulatoryAudit.BranchMatchesProgress | src/components/sections/RegulatoryAuditSection.tsx:54-68 | the per-certification branch is shown exactly when it has fields, exactly when the progress evaluator treats the record as relevant and the FAA field as not |
| RegulatoryAudit.UpdateAuditSurveillance | src/components/sections/RegulatoryAuditSection.tsx:56-64 | only the given certification's entry changes, to the value; other entries and other fields stay |
| RegulatoryAudit.FillSelectsFacts | src/components/sections/RegulatoryAuditSection.tsx:83-86 | after choosing non-empty values the certifications are unchanged, and every entry filled, before or now, is filled |
| RegulatoryAudit.FillingShownSelectsFills | src/components/sections/RegulatoryAuditSection.tsx:77-89 | choosing a timeframe in every shown select makes the record count as filled for progress |

## Left out

- The 2-second delay and the `async` plumbing of `analyzeAssessment` are left out. They do not change the result.
- The clock is an input. `AnalyzeAssessment` takes the analysis date as a parameter.
- GapAnalysis.Savings: the text "$x.xM - $y.yM" (`toFixed` on floating point) is not modelled. The estimate is kept as the exact pair (15% of the revenue, 1.3 times that).
- `parseFloat` is modelled only on the digits-and-dots strings that the replacement leaves. Its exponent syntax cannot occur there. Note that "$5M-$10M" becomes "510".
- JsSemantics.ParseInt returns exact integers. Float rounding of digit strings longer than 2^53 is not modelled. No compared threshold is near that size.
- JsSemantics.Truthy treats every number other than 0 as truthy. NaN does not occur where it is used.
- A field holding a value of the wrong kind reads as absent (for example, a list where a string is expected). The record's type excludes this.
- PDF drawing is not modelled: pages, fonts, colours, the page-break positions, and the Blob/URL/DOM download.
- `wrapText` is modelled, but the font's width is an uninterpreted function parameter.
- The Convex backend is not part of this model:
  - the database, storage and authentication;
  - the quiz submission and the full-review request;
  - the report e-mail;
  - `handleSubmit` after `validateLead`, which sends the lead and sets the results step.
- The upload network calls are not part of this model. `upload(i)` stands for the outcome of `generateUploadUrl` and `fetch` for the i-th chosen file.
- The upload model does not state which storage id belongs to which file. It states only the names and order of the added documents.
- DocumentUpload.UploadSection.HandleFileSelect: the intermediate `setError` calls are not modelled. Only the final message is stated, which is the one shown after the handler returns.
- Clearing the file input in the `finally` block is left out. It is a DOM side effect.
- QuizPage: the lead entries and their errors are fields of a `LeadForm` object held by the page, not fields of the page itself.
- The 300 ms timer of `selectAnswer` is modelled as a pending count. `AdvanceTimerFires` is one timer firing. Wall-clock time and the interleaving with other clicks are left to the caller.
- Question texts and option labels of the quiz are not modelled, because no decision depends on them. Option values, weights, areas, labels and the flag descriptions are modelled exactly.
- The progress smoke script numbers the sections as they were before the documents section was added. Its sections 10, 5 and 6 are sections 11, 6 and 7 in the model, which follows the code.
- The wizard's ids (0 to 12) and the progress evaluator's ids (0 to 13) are different numberings. They are not related by proof.
- No section-2 completion result is claimed. The form offers no input for "isbaoStage" or "wyvernLevel", yet progress requires them when those certifications are selected.
- The form options do not reconcile with the engine's literals ("No formal CAPA system", "No formal program", "No formal system"). The engine is modelled as written.
- JSX rendering, routing, sign-in pages, layout and the other section components are left out. Those section components only bind fields to widgets.
- The engine's literals "No formal CAPA system" and "No formal program" are not among the form's options, so answers given through the form never fire quality-1 through them, nor calibration-1 through the program literal. The model keeps the literals as written.

## Findings

| source | as written | input that shows it | evidently intended | confidence | as-written member | corrected member |
|---|---|---|---|---|---|---|
| src/components/QuizPage.tsx:57-59 | `selectAnswer` starts a `p => p + 1` timer whenever the current question is not the last, with no bound | two clicks on an answer of question 9 of 10 within 300 ms: both timers fire and the index becomes 10, where `QUIZ_QUESTIONS[10]` is undefined | the question index never passes the last question | not executed | QuizPage.DoubleSelectOverruns | QuizPage.DoubleSelectClamped |
