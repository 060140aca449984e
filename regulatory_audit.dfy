/** The regulatory-audit section of the wizard
    (src/components/sections/RegulatoryAuditSection.tsx): which surveillance
    question is shown, one select per selected certification or the single
    FAA one, and how a per-certification answer is written into the record. */
module RegulatoryAudit {
  import opened JsSemantics
  import opened AssessmentTypes
  import AssessmentProgress

  /** The values of `SURVEILLANCE_TIMEFRAMES`, the options of every
      surveillance select. */
  const SurveillanceTimeframes: seq<string> :=
    ["Within 3 months", "3-6 months ago", "6-12 months ago", "Over 1 year ago", "Never"]

  /** `data.certifications || []`. */
  function SelectedCertificationsOf(data: AssessmentData): seq<string> {
    TextsOf(data, "certifications").GetOr([])
  }

  /** `data.auditSurveillance || {}`. */
  function AuditSurveillanceOf(data: AssessmentData): map<string, string> {
    TimeframesOf(data, "auditSurveillance").GetOr(map[])
  }

  /** `hasSelectedCertifications`: some selected certification is not "None". */
  predicate ShowsPerCertification(data: AssessmentData) {
    var certs := SelectedCertificationsOf(data);
    exists i :: 0 <= i < |certs| && certs[i] != "None"
  }

  /** The certifications that get a select, in the order they were selected. */
  function ShownCertificationFields(data: AssessmentData): (r: seq<string>)
    ensures "None" !in r
    ensures IsSubsequence(r, SelectedCertificationsOf(data))
    ensures forall c :: c in r <==> c in SelectedCertificationsOf(data) && c != "None"
  {
    FilterIsSubsequence(SelectedCertificationsOf(data), (c: string) => c != "None");
    Filter(SelectedCertificationsOf(data), (c: string) => c != "None")
  }

  /** The per-certification branch is shown iff it has at least one select,
      and it is shown exactly when the progress evaluator counts the
      per-certification record instead of the single FAA field. */
  lemma BranchMatchesProgress(data: AssessmentData)
    ensures ShowsPerCertification(data) <==> |ShownCertificationFields(data)| > 0
    ensures ShowsPerCertification(data) <==> AssessmentProgress.HasSelectedCertifications(data)
    ensures ShownCertificationFields(data) == AssessmentProgress.SelectedCertifications(data)
    ensures "auditSurveillance" in AssessmentProgress.RelevantSectionFields(data, 11) <==> ShowsPerCertification(data)
    ensures "lastFAASurveillance" in AssessmentProgress.RelevantSectionFields(data, 11) <==> !ShowsPerCertification(data)
  {
    var certs := SelectedCertificationsOf(data);
    var shown := ShownCertificationFields(data);
    if ShowsPerCertification(data) {
      var i :| 0 <= i < |certs| && certs[i] != "None";
      assert certs[i] in shown;
    }
    if |shown| > 0 {
      assert shown[0] in certs;
      var i :| 0 <= i < |certs| && certs[i] == shown[0];
    }
    AssessmentProgress.AuditSectionRelevance(data);
  }

  /** `updateAuditSurveillance(cert, value)`: the record with the timeframe
      of `cert` set to `value`. */
  function UpdateAuditSurveillance(data: AssessmentData, cert: string, value: string): (r: AssessmentData)
    ensures r.Keys == data.Keys + {"auditSurveillance"}
    ensures forall k :: k in data && k != "auditSurveillance" ==> r[k] == data[k]
    ensures AuditSurveillanceOf(r).Keys == AuditSurveillanceOf(data).Keys + {cert}
    ensures cert in AuditSurveillanceOf(r) && AuditSurveillanceOf(r)[cert] == value
    ensures forall c :: c in AuditSurveillanceOf(data) && c != cert ==>
              AuditSurveillanceOf(r)[c] == AuditSurveillanceOf(data)[c]
  {
    data["auditSurveillance" := Timeframes(AuditSurveillanceOf(data)[cert := value])]
  }

  /** The record after answering the selects of `certs` with `values`, one
      after the other. */
  function FillSelects(data: AssessmentData, certs: seq<string>, values: seq<string>): AssessmentData
    requires |certs| == |values|
    decreases |certs|
  {
    if certs == [] then data
    else FillSelects(UpdateAuditSurveillance(data, certs[0], values[0]), certs[1..], values[1..])
  }

  /** Answering selects with non-empty timeframes gives each of them a
      non-empty entry, keeps the entries already filled, and leaves the
      selected certifications alone. */
  lemma {:induction false} FillSelectsFacts(data: AssessmentData, certs: seq<string>, values: seq<string>)
    requires |certs| == |values|
    requires forall v :: v in values ==> v != ""
    ensures var r := FillSelects(data, certs, values);
      var m := AuditSurveillanceOf(r);
      && SelectedCertificationsOf(r) == SelectedCertificationsOf(data)
      && (forall c :: c in certs ==> c in m && m[c] != "")
      && (forall c :: c in AuditSurveillanceOf(data) && AuditSurveillanceOf(data)[c] != "" ==> c in m && m[c] != "")
    decreases |certs|
  {
    if certs != [] {
      var next := UpdateAuditSurveillance(data, certs[0], values[0]);
      assert values[0] in values;
      assert forall v :: v in values[1..] ==> v in values;
      FillSelectsFacts(next, certs[1..], values[1..]);
      assert forall c :: c in certs ==> c == certs[0] || c in certs[1..];
    }
  }

  /** Answering every shown select with one of its timeframes makes the
      per-certification record count as filled, so it no longer holds the
      section's progress back. */
  lemma FillingShownSelectsFills(data: AssessmentData, values: seq<string>)
    requires ShowsPerCertification(data)
    requires |values| == |ShownCertificationFields(data)|
    requires forall v :: v in values ==> v in SurveillanceTimeframes
    ensures var r := FillSelects(data, ShownCertificationFields(data), values);
      AssessmentProgress.IsFieldFilledForProgress(r, "auditSurveillance")
  {
    var shown := ShownCertificationFields(data);
    var r := FillSelects(data, shown, values);
    FillSelectsFacts(data, shown, values);
    var certs := SelectedCertificationsOf(r);
    assert certs == SelectedCertificationsOf(data);
    AssessmentProgress.AuditSurveillanceFilledIff(r);
    var i :| 0 <= i < |certs| && certs[i] != "None";
    assert certs[i] in certs;
  }
}
