/** Completion and progress of the assessment (src/utils/assessmentProgress.ts):
    which fields of a section are relevant given the answers so far, which of
    them are filled, and the resulting fractions. */
module AssessmentProgress {
  import opened JsSemantics
  import opened AssessmentTypes

  /** The fields of each section, numbered 0 (documents) to 13. */
  function SectionFields(sectionId: int): seq<string> {
    match sectionId
    case 0 => ["uploadedDocuments"]
    case 1 => ["companyName", "location", "employeeCount", "annualRevenue", "contactName", "contactEmail", "contactPhone"]
    case 2 => ["certifications", "as9100Rev", "argusLevel", "isbaoStage", "wyvernLevel"]
    case 3 => ["aircraftCategories", "specificAircraftTypes", "servicesOffered", "mechanicCount", "hangarCapabilities", "oemAuthorizations", "specialCapabilities"]
    case 4 => ["maintenanceTrackingSoftware", "softwareSatisfaction", "hasDefinedProcess", "processDocumented", "processFollowed", "processEffectiveness"]
    case 5 => ["partsInventoryMethod", "partsTrackingSystem", "inventoryAccuracy", "shelfLifeTracking"]
    case 6 => ["qualityMethodologies", "continuousImprovementActive", "toolControlMethod", "toolControlDescription", "toolControlErrors", "toolControlErrorFrequency"]
    case 7 => ["hasSMS", "smsProgram", "smsMaturity", "challenges"]
    case 8 => ["trainingProgramType", "trainingTracking", "initialTrainingDuration", "recurrentTrainingFrequency", "competencyVerification", "timeToCompetency"]
    case 9 => ["calibrationProgram", "calibrationTracking", "overdueCalibrations", "outOfToleranceFrequency", "outOfToleranceResponse"]
    case 10 => ["capaSystemStatus", "discrepancyTracking", "capaClosureTime", "repeatDiscrepancies", "capaAuthority"]
    case 11 => ["lastFAASurveillance", "auditSurveillance", "auditFindingsCount", "findingSeverity", "recurringFindings", "findingClosureStatus", "certificateActions", "auditHistory", "upcomingAudits"]
    case 12 => ["workOrderSystem", "scheduleAdherence", "productionBottlenecks", "wipVisibility", "routineInspectionDays", "typicalRepairDays", "majorOverhaulDays", "capacityUtilization", "productionPlanning"]
    case 13 => ["firstPassRate", "warrantyRate", "repeatMaintenanceRate", "reworkRate", "jobMargin", "revenuePerTech", "scrapReworkCost", "partsWaitDays", "inspectionWaitHours", "approvalTurnaroundDays", "turnoverRate", "specificConcerns"]
    case _ => []
  }

  /** `isFieldFilled`: undefined, null and '' are unfilled; a list is filled
      when one of its elements is; an object when it has a key; anything else
      is filled. */
  predicate IsFieldFilled(v: JsValue) {
    match v
    case Undef => false
    case Null => false
    case Str(s) => s != ""
    case Arr(items) => exists i :: 0 <= i < |items| && IsFieldFilled(items[i])
    case Obj(props) => |props| > 0
    case Num(_) => true
    case Bool(_) => true
  }

  /** The selected certifications with "None" dropped
      (`(data.certifications || []).filter(cert => cert !== 'None')`). */
  function SelectedCertifications(data: AssessmentData): (r: seq<string>)
    ensures "None" !in r
    ensures forall c :: c in r <==> c in TextsOf(data, "certifications").GetOr([]) && c != "None"
  {
    Filter(TextsOf(data, "certifications").GetOr([]), (c: string) => c != "None")
  }

  predicate HasSelectedCertifications(data: AssessmentData) {
    |SelectedCertifications(data)| > 0
  }

  /** Section 2: a revision or level field is kept only for its certification. */
  predicate CertificationFieldRelevant(field: string, selected: seq<string>) {
    if field == "as9100Rev" then "AS9100" in selected
    else if field == "argusLevel" then "ARGUS" in selected
    else if field == "isbaoStage" then "IS-BAO" in selected
    else if field == "wyvernLevel" then "Wyvern Wingman" in selected
    else true
  }

  /** Section 11: the per-certification map replaces the single FAA field. */
  predicate AuditFieldRelevant(field: string, hasSelected: bool) {
    if field == "auditSurveillance" then hasSelected
    else if field == "lastFAASurveillance" then !hasSelected
    else true
  }

  /** Whether `field` of section `sectionId` applies, given the answers so far
      (the `switch` of `getRelevantSectionFields`; a section that returns all
      its fields keeps every field). */
  predicate FieldRelevant(data: AssessmentData, sectionId: int, field: string) {
    if sectionId == 2 then CertificationFieldRelevant(field, SelectedCertifications(data))
    else if sectionId == 6 then
      TextOf(data, "toolControlErrors") == Some("Yes") || field != "toolControlErrorFrequency"
    else if sectionId == 7 then
      var hasSms := TextOf(data, "hasSMS");
      hasSms == Some("Yes") || hasSms == Some("In Development") || (field != "smsProgram" && field != "smsMaturity")
    else if sectionId == 11 then AuditFieldRelevant(field, HasSelectedCertifications(data))
    else true
  }

  /** `getRelevantSectionFields`. */
  function RelevantSectionFields(data: AssessmentData, sectionId: int): seq<string> {
    var fields := SectionFields(sectionId);
    if |fields| == 0 || sectionId == 0 then []
    else Filter(fields, (f: string) => FieldRelevant(data, sectionId, f))
  }

  /** The relevant fields are the section's fields that apply, in order. */
  lemma RelevantSectionFieldsIff(data: AssessmentData, sectionId: int)
    ensures var r := RelevantSectionFields(data, sectionId);
      && IsSubsequence(r, SectionFields(sectionId))
      && forall f :: f in r <==> sectionId != 0 && f in SectionFields(sectionId) && FieldRelevant(data, sectionId, f)
  {
    var fields := SectionFields(sectionId);
    if |fields| > 0 && sectionId != 0 {
      FilterIsSubsequence(fields, (f: string) => FieldRelevant(data, sectionId, f));
    }
  }

  /** The entry of the audit-surveillance record for one certification. */
  function SurveillanceEntry(data: AssessmentData, cert: string): JsValue {
    var m := TimeframesOf(data, "auditSurveillance").GetOr(map[]);
    if cert in m then Str(m[cert]) else Undef
  }

  /** `isAuditSurveillanceFilled`: every selected certification other than
      "None" has a filled entry, and there is at least one. */
  predicate IsAuditSurveillanceFilled(data: AssessmentData) {
    var selected := SelectedCertifications(data);
    |selected| > 0 && forall c :: c in selected ==> IsFieldFilled(SurveillanceEntry(data, c))
  }

  /** `isFieldFilledForProgress`. */
  predicate IsFieldFilledForProgress(data: AssessmentData, field: string) {
    if field == "auditSurveillance" then IsAuditSurveillanceFilled(data)
    else IsFieldFilled(FieldJs(data, field))
  }

  function FilledCount(data: AssessmentData, fields: seq<string>): (n: nat)
    ensures n <= |fields|
    ensures n == |fields| <==> forall f :: f in fields ==> IsFieldFilledForProgress(data, f)
    ensures n == 0 <==> forall f :: f in fields ==> !IsFieldFilledForProgress(data, f)
  {
    Count(fields, (f: string) => IsFieldFilledForProgress(data, f))
  }

  /** `calculateSectionCompletion`: the filled share of the relevant fields,
      0 when none is relevant. */
  function SectionCompletion(data: AssessmentData, sectionId: int): (r: real)
    ensures 0.0 <= r <= 1.0
    ensures |RelevantSectionFields(data, sectionId)| == 0 ==> r == 0.0
    ensures r == 1.0 <==> (|RelevantSectionFields(data, sectionId)| > 0 &&
      forall f :: f in RelevantSectionFields(data, sectionId) ==> IsFieldFilledForProgress(data, f))
    ensures r == 0.0 <==> forall f :: f in RelevantSectionFields(data, sectionId) ==> !IsFieldFilledForProgress(data, f)
  {
    var fields := RelevantSectionFields(data, sectionId);
    if |fields| == 0 then 0.0
    else
      var filled := FilledCount(data, fields);
      Share(filled, |fields|)
  }

  /** The relevant fields of sections `from` to 13, in section order. */
  function RelevantFieldsFrom(data: AssessmentData, from: nat): seq<string>
    decreases 14 - from
  {
    if from > 13 then [] else RelevantSectionFields(data, from) + RelevantFieldsFrom(data, from + 1)
  }

  /** `calculateOverallProgress`: the filled share, in percent, of the relevant
      fields of all sections 0 to 13 pooled together. */
  function OverallProgress(data: AssessmentData): (r: real)
    ensures 0.0 <= r <= 100.0
    ensures |RelevantFieldsFrom(data, 0)| == 0 ==> r == 0.0
    ensures r == 100.0 <==> (|RelevantFieldsFrom(data, 0)| > 0 &&
      forall f :: f in RelevantFieldsFrom(data, 0) ==> IsFieldFilledForProgress(data, f))
  {
    PooledProgress(data, RelevantFieldsFrom(data, 0))
  }

  /** The filled share of `fields` in percent, 0 when there are none. */
  function PooledProgress(data: AssessmentData, fields: seq<string>): (r: real)
    ensures 0.0 <= r <= 100.0
    ensures |fields| == 0 ==> r == 0.0
    ensures r == 100.0 <==> (|fields| > 0 && forall f :: f in fields ==> IsFieldFilledForProgress(data, f))
  {
    if |fields| == 0 then 0.0
    else
      var filled := FilledCount(data, fields);
      Percent(filled, |fields|)
  }

  function Percent(filled: nat, total: nat): (r: real)
    requires 0 < total && filled <= total
    ensures 0.0 <= r <= 100.0
    ensures r == 100.0 <==> filled == total
  {
    Share(filled, total) * 100.0
  }

  /** `filled / total` as an exact fraction. */
  function Share(filled: nat, total: nat): (r: real)
    requires 0 < total && filled <= total
    ensures 0.0 <= r <= 1.0
    ensures r == 1.0 <==> filled == total
    ensures r == 0.0 <==> filled == 0
  {
    var r := (filled as real) / (total as real);
    assert r * (total as real) == filled as real;
    r
  }

  // ---------------------------------------------------------------------
  // Properties of the evaluator

  /** A list of strings is filled iff one of its strings is non-empty, so
      `['']` is unfilled. */
  lemma TextsFilledIff(xs: seq<string>)
    ensures IsFieldFilled(ToJs(Texts(xs))) <==> exists i :: 0 <= i < |xs| && xs[i] != ""
  {
    var items := seq(|xs|, i requires 0 <= i < |xs| => Str(xs[i]));
    assert ToJs(Texts(xs)) == Arr(items);
    assert forall i :: 0 <= i < |xs| ==> (IsFieldFilled(items[i]) <==> xs[i] != "");
  }

  /** A record of timeframes is filled iff it has at least one key, whatever
      the keys map to. */
  lemma TimeframesFilledIff(m: map<string, string>)
    ensures IsFieldFilled(ToJs(Timeframes(m))) <==> |m| > 0
  {
    var o := map k | k in m :: Str(m[k]);
    assert o.Keys == m.Keys;
    assert |o| == |o.Keys| && |m| == |m.Keys|;
  }

  /** Nesting: a list is filled as soon as some element is, however deep. */
  lemma NestedListFilled(inner: seq<JsValue>, rest: seq<JsValue>)
    requires IsFieldFilled(Arr(inner))
    ensures IsFieldFilled(Arr(rest + [Arr(inner)]))
  {
    assert (rest + [Arr(inner)])[|rest|] == Arr(inner);
  }

  /** Section 0 and ids outside 0..13 have no relevant field. */
  lemma NoRelevantFieldsOutsideSections(data: AssessmentData, sectionId: int)
    requires sectionId == 0 || sectionId < 0 || sectionId > 13
    ensures RelevantSectionFields(data, sectionId) == []
  {
    if sectionId != 0 {
      assert SectionFields(sectionId) == [];
    }
  }

  /** Section 2: each revision/level field is relevant exactly when its
      certification is selected; the certification list always is. */
  lemma CertificationSectionRelevance(data: AssessmentData)
    ensures var certs := TextsOf(data, "certifications").GetOr([]);
      var r := RelevantSectionFields(data, 2);
      && "certifications" in r
      && ("as9100Rev" in r <==> "AS9100" in certs)
      && ("argusLevel" in r <==> "ARGUS" in certs)
      && ("isbaoStage" in r <==> "IS-BAO" in certs)
      && ("wyvernLevel" in r <==> "Wyvern Wingman" in certs)
  {
    var fields := SectionFields(2);
    var selected := SelectedCertifications(data);
    RelevantSectionFieldsIff(data, 2);
    assert fields[0] == "certifications" && fields[1] == "as9100Rev" && fields[2] == "argusLevel";
    assert fields[3] == "isbaoStage" && fields[4] == "wyvernLevel";
    assert FieldRelevant(data, 2, "certifications");
    assert FieldRelevant(data, 2, "as9100Rev") == ("AS9100" in selected);
    assert FieldRelevant(data, 2, "argusLevel") == ("ARGUS" in selected);
    assert FieldRelevant(data, 2, "isbaoStage") == ("IS-BAO" in selected);
    assert FieldRelevant(data, 2, "wyvernLevel") == ("Wyvern Wingman" in selected);
  }

  /** Section 6: the error frequency is relevant iff errors were reported;
      the other five fields always are. */
  lemma ToolControlSectionRelevance(data: AssessmentData)
    ensures var r := RelevantSectionFields(data, 6);
      && ("toolControlErrorFrequency" in r <==> TextOf(data, "toolControlErrors") == Some("Yes"))
      && (forall f :: f in SectionFields(6) && f != "toolControlErrorFrequency" ==> f in r)
  {
    var fields := SectionFields(6);
    assert fields[5] == "toolControlErrorFrequency";
  }

  /** Section 7: the SMS details are relevant iff an SMS exists or is being
      developed; the other two fields always are. */
  lemma SmsSectionRelevance(data: AssessmentData)
    ensures var r := RelevantSectionFields(data, 7);
      var shown := TextOf(data, "hasSMS") == Some("Yes") || TextOf(data, "hasSMS") == Some("In Development");
      && ("smsProgram" in r <==> shown)
      && ("smsMaturity" in r <==> shown)
      && "hasSMS" in r && "challenges" in r
  {
    var fields := SectionFields(7);
    assert fields[0] == "hasSMS" && fields[1] == "smsProgram";
    assert fields[2] == "smsMaturity" && fields[3] == "challenges";
  }

  /** Section 11: exactly one of the two surveillance fields is relevant, the
      per-certification record iff a certification other than "None" is
      selected. */
  lemma AuditSectionRelevance(data: AssessmentData)
    ensures var r := RelevantSectionFields(data, 11);
      var certs := TextsOf(data, "certifications").GetOr([]);
      && ("auditSurveillance" in r <==> exists c :: c in certs && c != "None")
      && ("lastFAASurveillance" in r <==> !("auditSurveillance" in r))
  {
    var fields := SectionFields(11);
    assert fields[0] == "lastFAASurveillance" && fields[1] == "auditSurveillance";
    var hs := HasSelectedCertifications(data);
    assert FieldRelevant(data, 11, "auditSurveillance") == hs;
    assert FieldRelevant(data, 11, "lastFAASurveillance") == !hs;
    HasSelectedIff(data);
  }

  /** Some certification other than "None" is selected. */
  lemma HasSelectedIff(data: AssessmentData)
    ensures HasSelectedCertifications(data) <==>
      exists c :: c in TextsOf(data, "certifications").GetOr([]) && c != "None"
  {
    var certs := TextsOf(data, "certifications").GetOr([]);
    var selected := SelectedCertifications(data);
    if |selected| > 0 {
      assert selected[0] in certs && selected[0] != "None";
    }
    if exists c :: c in certs && c != "None" {
      var c :| c in certs && c != "None";
      assert c in selected;
    }
  }

  /** The per-certification record counts as filled iff some certification
      other than "None" is selected and every such certification has a
      non-empty entry; partial coverage is unfilled. */
  lemma AuditSurveillanceFilledIff(data: AssessmentData)
    ensures var certs := TextsOf(data, "certifications").GetOr([]);
      var m := TimeframesOf(data, "auditSurveillance").GetOr(map[]);
      IsAuditSurveillanceFilled(data) <==>
        (exists c :: c in certs && c != "None") &&
        (forall c :: c in certs && c != "None" ==> c in m && m[c] != "")
  {
    var certs := TextsOf(data, "certifications").GetOr([]);
    var m := TimeframesOf(data, "auditSurveillance").GetOr(map[]);
    var selected := SelectedCertifications(data);
    assert forall c :: IsFieldFilled(SurveillanceEntry(data, c)) <==> c in m && m[c] != "";
    if IsAuditSurveillanceFilled(data) {
      assert selected[0] in certs && selected[0] != "None";
    }
    if exists c :: c in certs && c != "None" {
      var c :| c in certs && c != "None";
      assert c in selected;
    }
  }

  /** A selected certification other than "None" without a timeframe leaves
      the record unfilled and the audit section incomplete (the smoke
      script's case of two certifications with one timeframe). */
  lemma PartialSurveillanceIncomplete(data: AssessmentData, cert: string)
    requires cert in TextsOf(data, "certifications").GetOr([]) && cert != "None"
    requires var m := TimeframesOf(data, "auditSurveillance").GetOr(map[]);
      cert !in m || m[cert] == ""
    ensures !IsAuditSurveillanceFilled(data) && SectionCompletion(data, 11) < 1.0
  {
    AuditSurveillanceFilledIff(data);
    AuditSectionRelevance(data);
    assert "auditSurveillance" in RelevantSectionFields(data, 11);
    assert !IsFieldFilledForProgress(data, "auditSurveillance");
  }

  /** The tool-control smoke case: when no tool-control errors are reported
      the section is complete once its other five fields are filled, the error
      frequency left blank (section 6 here; the smoke script still calls it 5,
      the number before the documents section was added). */
  lemma ToolControlCompleteWithoutErrors(data: AssessmentData)
    requires TextOf(data, "toolControlErrors") != Some("Yes")
    requires IsFieldFilled(FieldJs(data, "qualityMethodologies"))
    requires IsFieldFilled(FieldJs(data, "continuousImprovementActive"))
    requires IsFieldFilled(FieldJs(data, "toolControlMethod"))
    requires IsFieldFilled(FieldJs(data, "toolControlDescription"))
    requires IsFieldFilled(FieldJs(data, "toolControlErrors"))
    ensures SectionCompletion(data, 6) == 1.0
  {
    var r := RelevantSectionFields(data, 6);
    ToolControlFieldsOrder();
    assert |r| > 0 by {
      assert FieldRelevant(data, 6, SectionFields(6)[0]);
      assert SectionFields(6)[0] in r;
    }
    forall f | f in r ensures IsFieldFilledForProgress(data, f) {
      assert f in SectionFields(6) && FieldRelevant(data, 6, f);
      ToolControlField(f);
    }
    CompleteWhenRelevantFilled(data, 6);
  }

  lemma ToolControlField(f: string)
    requires f in SectionFields(6) && f != "toolControlErrorFrequency"
    ensures f == "qualityMethodologies" || f == "continuousImprovementActive" || f == "toolControlMethod"
      || f == "toolControlDescription" || f == "toolControlErrors"
  {
  }

  lemma ToolControlFieldsOrder()
    ensures |SectionFields(6)| == 6
    ensures SectionFields(6)[0] == "qualityMethodologies" && SectionFields(6)[5] == "toolControlErrorFrequency"
    ensures "auditSurveillance" !in SectionFields(6)
  {
  }

  /** The SMS smoke case: without an SMS ("No") only "hasSMS" and
      "challenges" are asked, so the section is complete once those two are
      filled (section 7; the smoke script calls it 6). */
  lemma SmsCompleteWithoutSms(data: AssessmentData)
    requires TextOf(data, "hasSMS") != Some("Yes") && TextOf(data, "hasSMS") != Some("In Development")
    requires IsFieldFilled(FieldJs(data, "hasSMS")) && IsFieldFilled(FieldJs(data, "challenges"))
    ensures SectionCompletion(data, 7) == 1.0
  {
    SmsFieldsWithoutSms(data);
    assert IsFieldFilledForProgress(data, "hasSMS") && IsFieldFilledForProgress(data, "challenges");
    CompleteWhenTwoRelevant(data, 7, "hasSMS", "challenges");
  }

  /** A section that asks exactly two fields, both filled, is complete. */
  lemma CompleteWhenTwoRelevant(data: AssessmentData, sectionId: int, a: string, b: string)
    requires forall f :: f in RelevantSectionFields(data, sectionId) <==> f == a || f == b
    requires IsFieldFilledForProgress(data, a) && IsFieldFilledForProgress(data, b)
    ensures SectionCompletion(data, sectionId) == 1.0
  {
    assert a in RelevantSectionFields(data, sectionId);
    CompleteWhenRelevantFilled(data, sectionId);
  }

  /** Without an SMS the SMS section asks exactly "hasSMS" and "challenges". */
  lemma SmsFieldsWithoutSms(data: AssessmentData)
    requires TextOf(data, "hasSMS") != Some("Yes") && TextOf(data, "hasSMS") != Some("In Development")
    ensures forall f :: f in RelevantSectionFields(data, 7) <==> f == "hasSMS" || f == "challenges"
  {
    var r := RelevantSectionFields(data, 7);
    SmsSectionRelevance(data);
    forall f | f in r ensures f == "hasSMS" || f == "smsProgram" || f == "smsMaturity" || f == "challenges" {
      RelevantSectionFieldsIff(data, 7);
      assert SectionFields(7) == ["hasSMS", "smsProgram", "smsMaturity", "challenges"];
    }
  }

  /** The audit section is complete once its seven common fields are filled
      and the per-certification record covers every selected certification
      (the smoke script's case with two certifications, section 10 there). */
  lemma AuditCompleteWithCertifications(data: AssessmentData)
    requires forall f :: f in SectionFields(11)[2..] ==> IsFieldFilled(FieldJs(data, f))
    requires IsAuditSurveillanceFilled(data)
    ensures SectionCompletion(data, 11) == 1.0
  {
    var fields := SectionFields(11);
    var r := RelevantSectionFields(data, 11);
    assert |r| > 0 by {
      AuditFieldsOrder();
      assert HasSelectedCertifications(data);
      assert FieldRelevant(data, 11, fields[1]);
      assert fields[1] in r;
    }
    forall f | f in r ensures IsFieldFilledForProgress(data, f) {
      SectionFieldFilled(data, f, fields);
    }
    CompleteWhenRelevantFilled(data, 11);
  }

  lemma AuditFieldsOrder()
    ensures |SectionFields(11)| == 9
    ensures SectionFields(11)[0] == "lastFAASurveillance" && SectionFields(11)[1] == "auditSurveillance"
  {
  }

  /** A section with relevant fields, all of them filled, is complete. */
  lemma CompleteWhenRelevantFilled(data: AssessmentData, sectionId: int)
    requires |RelevantSectionFields(data, sectionId)| > 0
    requires forall f :: f in RelevantSectionFields(data, sectionId) ==> IsFieldFilledForProgress(data, f)
    ensures SectionCompletion(data, sectionId) == 1.0
  {
  }

  lemma SectionFieldFilled(data: AssessmentData, f: string, fields: seq<string>)
    requires fields == SectionFields(11)
    requires f in RelevantSectionFields(data, 11)
    requires HasSelectedCertifications(data) ==> IsAuditSurveillanceFilled(data)
    requires !HasSelectedCertifications(data) ==> IsFieldFilled(FieldJs(data, "lastFAASurveillance"))
    requires forall g :: g in fields[2..] ==> IsFieldFilled(FieldJs(data, g))
    ensures IsFieldFilledForProgress(data, f)
  {
    assert f in fields;
    var i :| 0 <= i < |fields| && fields[i] == f;
    if i >= 2 {
      assert fields[i] in fields[2..];
    }
  }

  /** Without a certification other than "None", the single FAA field takes
      the record's place (the smoke script's FAA-only case). */
  lemma AuditCompleteWithoutCertifications(data: AssessmentData)
    requires forall f :: f in SectionFields(11)[2..] ==> IsFieldFilled(FieldJs(data, f))
    requires !HasSelectedCertifications(data)
    requires IsFieldFilled(FieldJs(data, "lastFAASurveillance"))
    ensures SectionCompletion(data, 11) == 1.0
  {
    var fields := SectionFields(11);
    var r := RelevantSectionFields(data, 11);
    assert |r| > 0 by {
      AuditFieldsOrder();
      assert FieldRelevant(data, 11, fields[0]);
      assert fields[0] in r;
    }
    forall f | f in r ensures IsFieldFilledForProgress(data, f) {
      SectionFieldFilled(data, f, fields);
    }
    CompleteWhenRelevantFilled(data, 11);
  }

}
