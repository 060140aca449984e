/** The lead form of the quiz page (src/components/QuizPage.tsx,
    `validateLead`): the e-mail pattern and the record of errors. */
module LeadValidation {
  import opened JsSemantics

  // ----- The e-mail pattern `^[^\s@]+@[^\s@]+\.[^\s@]+$` -----

  /** A character that `[^\s@]` accepts. */
  predicate EmailChar(c: char) {
    !IsWhiteSpace(c) && c != '@'
  }

  /** `[^\s@]+`: a non-empty run of such characters. */
  predicate EmailPart(p: string) {
    p != [] && forall k :: 0 <= k < |p| ==> EmailChar(p[k])
  }

  /** What the pattern accepts: the whole string is a part, an "@", a part,
      a "." and a part. */
  predicate MatchesEmailPattern(s: string) {
    exists i, j :: 0 <= i < j < |s| && s[i] == '@' && s[j] == '.' &&
      EmailPart(s[..i]) && EmailPart(s[i + 1..j]) && EmailPart(s[j + 1..])
  }

  /** The pattern test in one pass: one "@" that is not the first character,
      no white space, and a "." after the "@" with a character on each side. */
  function IsValidEmail(s: string): (r: bool)
    ensures r ==> '@' in s && |s| >= 5
  {
    match IndexOf(s, '@')
    case None => false
    case Some(i) =>
      var rest := s[i + 1..];
      && i > 0
      && (forall k :: 0 <= k < |s| ==> !IsWhiteSpace(s[k]))
      && '@' !in rest
      && |rest| >= 3 && '.' in rest[1..|rest| - 1]
  }

  /** Everything the one-pass test accepts matches the pattern. */
  lemma EmailCheckSound(s: string)
    requires IsValidEmail(s)
    ensures MatchesEmailPattern(s)
  {
    var i := IndexOf(s, '@').value;
    var rest := s[i + 1..];
    var mid := rest[1..|rest| - 1];
    var m :| 0 <= m < |mid| && mid[m] == '.';
    var j := i + 2 + m;
    assert s[j] == '.' by {
      assert mid[m] == rest[m + 1] == s[j];
    }
    var a, b, c := s[..i], s[i + 1..j], s[j + 1..];
    assert EmailPart(a) by {
      forall k | 0 <= k < |a|
        ensures EmailChar(a[k])
      {
        assert a[k] == s[k];
      }
    }
    assert EmailPart(b) by {
      forall k | 0 <= k < |b|
        ensures EmailChar(b[k])
      {
        assert b[k] == rest[k] == s[i + 1 + k];
      }
    }
    assert EmailPart(c) by {
      forall k | 0 <= k < |c|
        ensures EmailChar(c[k])
      {
        assert c[k] == rest[j - i + k] == s[j + 1 + k];
      }
    }
  }

  /** A string that matches the pattern has no white space. */
  lemma MatchHasNoWhiteSpace(s: string, i: nat, j: nat)
    requires i < j < |s| && s[i] == '@' && s[j] == '.'
    requires EmailPart(s[..i]) && EmailPart(s[i + 1..j]) && EmailPart(s[j + 1..])
    ensures forall k :: 0 <= k < |s| ==> !IsWhiteSpace(s[k])
  {
    var a, b, c := s[..i], s[i + 1..j], s[j + 1..];
    forall k | 0 <= k < |s|
      ensures !IsWhiteSpace(s[k])
    {
      if k < i {
        assert s[k] == a[k];
      } else if i < k < j {
        assert s[k] == b[k - i - 1];
      } else if j < k {
        assert s[k] == c[k - j - 1];
      }
    }
  }

  /** In a string that matches the pattern no "@" follows the first. */
  lemma MatchHasOneAt(s: string, i: nat, j: nat)
    requires i < j < |s| && s[j] == '.'
    requires EmailPart(s[i + 1..j]) && EmailPart(s[j + 1..])
    ensures '@' !in s[i + 1..]
  {
    var rest, b, c := s[i + 1..], s[i + 1..j], s[j + 1..];
    forall t | 0 <= t < |rest|
      ensures rest[t] != '@'
    {
      if i + 1 + t < j {
        assert rest[t] == b[t];
      } else if i + 1 + t > j {
        assert rest[t] == c[t + i - j];
      }
    }
  }

  /** Everything that matches the pattern passes the one-pass test. */
  lemma EmailCheckComplete(s: string)
    requires MatchesEmailPattern(s)
    ensures IsValidEmail(s)
  {
    var i, j :| 0 <= i < j < |s| && s[i] == '@' && s[j] == '.' &&
      EmailPart(s[..i]) && EmailPart(s[i + 1..j]) && EmailPart(s[j + 1..]);
    var a := s[..i];
    assert '@' !in a by {
      forall k | 0 <= k < |a|
        ensures a[k] != '@'
      {
        assert EmailChar(a[k]);
      }
    }
    IndexOfFirst(s, '@', i);
    MatchHasNoWhiteSpace(s, i, j);
    MatchHasOneAt(s, i, j);
    var rest := s[i + 1..];
    assert i > 0 && |rest| >= 3 by {
      assert |s[i + 1..j]| > 0 && |s[j + 1..]| > 0;
    }
    assert '.' in rest[1..|rest| - 1] by {
      assert rest[1..|rest| - 1][j - i - 2] == '.';
    }
  }

  /** The test of `validateLead` agrees with the pattern in both directions. */
  lemma EmailCheckIsPattern(s: string)
    ensures IsValidEmail(s) <==> MatchesEmailPattern(s)
  {
    if IsValidEmail(s) {
      EmailCheckSound(s);
    }
    if MatchesEmailPattern(s) {
      EmailCheckComplete(s);
    }
  }

  // ----- validateLead -----

  datatype LeadInfo = LeadInfo(
    email: string,
    companyName: string,
    contactName: string,
    phone: string,
    consentToContact: bool)

  /** The messages `validateLead` can record, spelled out by `LeadErrorText`. */
  datatype LeadError =
    | EmailRequired | EmailInvalid | CompanyNameRequired
    | ContactNameRequired | PhoneRequired | ConsentRequired

  function LeadErrorText(e: LeadError): string {
    match e
    case EmailRequired => "Email is required"
    case EmailInvalid => "Enter a valid email address"
    case CompanyNameRequired => "Company name is required"
    case ContactNameRequired => "Contact name is required"
    case PhoneRequired => "Phone number is required"
    case ConsentRequired => "You must consent to be contacted"
  }

  /** The keys of the `errors` record, spelled out by `LeadFieldKey`. */
  datatype LeadField = EmailField | CompanyNameField | ContactNameField | PhoneField | ConsentField

  function LeadFieldKey(f: LeadField): string {
    match f
    case EmailField => "email"
    case CompanyNameField => "companyName"
    case ContactNameField => "contactName"
    case PhoneField => "phone"
    case ConsentField => "consent"
  }

  const LeadFields: set<LeadField> := {EmailField, CompanyNameField, ContactNameField, PhoneField, ConsentField}

  /** The outcome of each test `validateLead` makes. */
  datatype LeadChecks = LeadChecks(
    emailBlank: bool,
    emailValid: bool,
    companyNameBlank: bool,
    contactNameBlank: bool,
    phoneBlank: bool,
    consent: bool)

  /** The tests on the trimmed fields. */
  function ChecksOf(lead: LeadInfo): (c: LeadChecks)
    ensures c.emailBlank <==> AllWhiteSpace(lead.email)
    ensures c.companyNameBlank <==> AllWhiteSpace(lead.companyName)
    ensures c.contactNameBlank <==> AllWhiteSpace(lead.contactName)
    ensures c.phoneBlank <==> AllWhiteSpace(lead.phone)
    ensures c.consent == lead.consentToContact
  {
    var email := Trim(lead.email);
    LeadChecks(email == "", IsValidEmail(email), Trim(lead.companyName) == "",
               Trim(lead.contactName) == "", Trim(lead.phone) == "", lead.consentToContact)
  }

  /** Whether an entry is recorded for field `f`. */
  predicate FieldFails(c: LeadChecks, f: LeadField) {
    match f
    case EmailField => c.emailBlank || !c.emailValid
    case CompanyNameField => c.companyNameBlank
    case ContactNameField => c.contactNameBlank
    case PhoneField => c.phoneBlank
    case ConsentField => !c.consent
  }

  /** The message recorded for a failing field: for the e-mail, missing
      takes priority over malformed. */
  function FieldError(c: LeadChecks, f: LeadField): LeadError {
    match f
    case EmailField => if c.emailBlank then EmailRequired else EmailInvalid
    case CompanyNameField => CompanyNameRequired
    case ContactNameField => ContactNameRequired
    case PhoneField => PhoneRequired
    case ConsentField => ConsentRequired
  }

  /** The record of errors for the outcomes `c`. */
  function ErrorsOf(c: LeadChecks): (errors: map<LeadField, LeadError>)
    ensures forall f {:trigger FieldFails(c, f)} :: f in errors <==> FieldFails(c, f)
    ensures forall f {:trigger FieldError(c, f)} :: f in errors ==> errors[f] == FieldError(c, f)
  {
    map f | f in LeadFields && FieldFails(c, f) :: FieldError(c, f)
  }

  /** A record with the entries and messages of `ErrorsOf(c)` is `ErrorsOf(c)`. */
  lemma SameErrors(c: LeadChecks, errors: map<LeadField, LeadError>)
    requires forall f :: f in errors <==> FieldFails(c, f)
    requires forall f :: f in errors ==> errors[f] == FieldError(c, f)
    ensures errors == ErrorsOf(c)
  {
  }

  /** The `errors` record `validateLead` builds. */
  function LeadErrorsOf(lead: LeadInfo): map<LeadField, LeadError> {
    ErrorsOf(ChecksOf(lead))
  }

  /** The e-mail entry: recorded iff the trimmed e-mail is blank or does not
      match the pattern, and a blank e-mail is reported as missing, not as
      malformed. */
  lemma EmailEntry(lead: LeadInfo)
    ensures var errors := LeadErrorsOf(lead);
            && (EmailField in errors <==> AllWhiteSpace(lead.email) || !MatchesEmailPattern(Trim(lead.email)))
            && (AllWhiteSpace(lead.email) ==> errors[EmailField] == EmailRequired)
            && (!AllWhiteSpace(lead.email) && !MatchesEmailPattern(Trim(lead.email)) ==> errors[EmailField] == EmailInvalid)
  {
    EmailCheckIsPattern(Trim(lead.email));
    var c := ChecksOf(lead);
    assert c.emailValid == IsValidEmail(Trim(lead.email));
    assert FieldFails(c, EmailField) <==> c.emailBlank || !c.emailValid;
  }

  /** Which of the four required entries `ErrorsOf` records. */
  lemma RequiredChecks(c: LeadChecks)
    ensures CompanyNameField in ErrorsOf(c) <==> c.companyNameBlank
    ensures ContactNameField in ErrorsOf(c) <==> c.contactNameBlank
    ensures PhoneField in ErrorsOf(c) <==> c.phoneBlank
    ensures ConsentField in ErrorsOf(c) <==> !c.consent
  {
  }

  /** A company, contact or phone of white space only counts as missing,
      and anything else is accepted; consent must be given. */
  lemma RequiredEntries(lead: LeadInfo)
    ensures var errors := LeadErrorsOf(lead);
            && (CompanyNameField in errors <==> AllWhiteSpace(lead.companyName))
            && (ContactNameField in errors <==> AllWhiteSpace(lead.contactName))
            && (PhoneField in errors <==> AllWhiteSpace(lead.phone))
            && (ConsentField in errors <==> !lead.consentToContact)
  {
    var c := ChecksOf(lead);
    RequiredChecks(c);
  }

  /** All that a lead needs to pass validation. */
  predicate LeadComplete(lead: LeadInfo) {
    && !AllWhiteSpace(lead.email) && MatchesEmailPattern(Trim(lead.email))
    && !AllWhiteSpace(lead.companyName)
    && !AllWhiteSpace(lead.contactName)
    && !AllWhiteSpace(lead.phone)
    && lead.consentToContact
  }

  /** `validateLead` passes (no entry recorded) exactly for a complete lead. */
  lemma LeadValidIff(lead: LeadInfo)
    ensures LeadErrorsOf(lead) == map[] <==> LeadComplete(lead)
  {
    EmailEntry(lead);
    RequiredEntries(lead);
    var errors := LeadErrorsOf(lead);
    if LeadComplete(lead) {
      assert forall f :: f !in errors by {
        forall f
          ensures f !in errors
        {
          assert !FieldFails(ChecksOf(lead), f);
        }
      }
      assert errors.Keys == {};
    } else {
      assert exists f :: f in errors;
    }
  }

  /** The chain of `if`s in `validateLead` that fills the `errors` record
      from the outcomes of its tests. */
  method RecordErrors(c: LeadChecks) returns (errors: map<LeadField, LeadError>)
    ensures errors == ErrorsOf(c)
  {
    errors := map[];
    if c.emailBlank {
      errors := errors[EmailField := EmailRequired];
    } else if !c.emailValid {
      errors := errors[EmailField := EmailInvalid];
    }
    if c.companyNameBlank {
      errors := errors[CompanyNameField := CompanyNameRequired];
    }
    if c.contactNameBlank {
      errors := errors[ContactNameField := ContactNameRequired];
    }
    if c.phoneBlank {
      errors := errors[PhoneField := PhoneRequired];
    }
    if !c.consent {
      errors := errors[ConsentField := ConsentRequired];
    }
    SameErrors(c, errors);
  }

  /** The lead form's state on the quiz page: what has been typed in and
      the errors of the last validation. */
  class LeadForm {
    var leadInfo: LeadInfo
    var leadErrors: map<LeadField, LeadError>

    /** Empty fields, consent not given, no errors. */
    constructor()
      ensures leadInfo == LeadInfo("", "", "", "", false) && leadErrors == map[]
    {
      leadInfo := LeadInfo("", "", "", "", false);
      leadErrors := map[];
    }

    /** The inputs' `onChange` handlers: `setLeadInfo` with one field
        replaced. The errors stay until the next validation. */
    method SetLeadInfo(info: LeadInfo)
      modifies this
      ensures leadInfo == info && leadErrors == old(leadErrors)
    {
      leadInfo := info;
    }

    /** `validateLead`: record the errors of the lead form and report whether
        there are none. */
    method ValidateLead() returns (ok: bool)
      modifies this
      ensures leadErrors == LeadErrorsOf(leadInfo)
      ensures ok <==> LeadComplete(leadInfo)
      ensures leadInfo == old(leadInfo)
    {
      var email := Trim(leadInfo.email);
      var c := LeadChecks(email == "", IsValidEmail(email), Trim(leadInfo.companyName) == "",
                          Trim(leadInfo.contactName) == "", Trim(leadInfo.phone) == "",
                          leadInfo.consentToContact);
      assert c == ChecksOf(leadInfo);
      var errors := RecordErrors(c);
      leadErrors := errors;
      ok := |errors| == 0;
      LeadValidIff(leadInfo);
    }
  }
}
