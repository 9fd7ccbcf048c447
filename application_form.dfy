/**
 * The application form of src/components/JobApplicationForm.tsx: the field
 * checks of `applicationFormSchema` and what a submission does.
 *
 * Zod's e-mail check is a parameter. An uploaded resume is modelled by the
 * two properties the schema reads, its size and MIME type; a value that is
 * not a `File` is the absent resume.
 */
module ApplicationForm {
  import opened Wrappers
  import opened JsString

  /** The two properties of a `File` the schema reads. */
  datatype FileInfo = FileInfo(size: int, mimeType: string)

  /** A form value. */
  datatype ApplicationValues = ApplicationValues(
    name: string,
    email: string,
    qualificationDetails: string,
    collegeDetails: string,
    coverLetter: Option<string>,
    resume: Option<FileInfo>)

  /** The fields `applicationFormSchema` can reject. */
  datatype ApplicationField = Name | Email | QualificationDetails | CollegeDetails | CoverLetter | Resume

  const PDF: string := "application/pdf"
  const DOC: string := "application/msword"
  const DOCX: string := "application/vnd.openxmlformats-officedocument.wordprocessingml.document"

  /** The resume refinements: a `File`, not empty, of one of the three types. */
  predicate AcceptsResume(resume: Option<FileInfo>)
  {
    && resume.Some?
    && resume.value.size > 0
    && (resume.value.mimeType == PDF || resume.value.mimeType == DOC || resume.value.mimeType == DOCX)
  }

  /**
   * The check `applicationFormSchema` applies to one field: name of at least
   * 2, qualification details of at least 5 and college of at least 3
   * characters, a valid e-mail, a cover letter that is absent or has at least
   * 10 characters, and an acceptable resume.
   */
  predicate Rejects(v: ApplicationValues, isEmail: string -> bool, f: ApplicationField)
  {
    match f
    case Name => Utf16Length(v.name) < 2
    case Email => !isEmail(v.email)
    case QualificationDetails => Utf16Length(v.qualificationDetails) < 5
    case CollegeDetails => Utf16Length(v.collegeDetails) < 3
    case CoverLetter => v.coverLetter.Some? && Utf16Length(v.coverLetter.value) < 10
    case Resume => !AcceptsResume(v.resume)
  }

  /** The checked fields in schema order. */
  const SCHEMA_FIELDS: seq<ApplicationField> :=
    [Name, Email, QualificationDetails, CollegeDetails, CoverLetter, Resume]

  /** The fields of `fs` that the schema rejects, keeping their order. */
  function Rejected(v: ApplicationValues, isEmail: string -> bool, fs: seq<ApplicationField>)
    : (r: seq<ApplicationField>)
    ensures |r| <= |fs|
    ensures forall f :: f in r <==> f in fs && Rejects(v, isEmail, f)
  {
    if fs == [] then []
    else
      assert forall f :: f in fs <==> f == fs[0] || f in fs[1..];
      (if Rejects(v, isEmail, fs[0]) then [fs[0]] else []) + Rejected(v, isEmail, fs[1..])
  }

  /** The fields `applicationFormSchema` rejects, in schema order. */
  function Errors(v: ApplicationValues, isEmail: string -> bool): (r: seq<ApplicationField>)
    ensures forall f :: f in r <==> Rejects(v, isEmail, f)
    ensures |r| <= |SCHEMA_FIELDS|
  {
    forall f: ApplicationField
      ensures f in SCHEMA_FIELDS
    {
      var k := match f
        case Name => 0 case Email => 1 case QualificationDetails => 2
        case CollegeDetails => 3 case CoverLetter => 4 case Resume => 5;
      assert SCHEMA_FIELDS[k] == f;
    }
    Rejected(v, isEmail, SCHEMA_FIELDS)
  }

  /** The form passes the schema. */
  predicate Valid(v: ApplicationValues, isEmail: string -> bool)
  {
    Errors(v, isEmail) == []
  }

  /** The schema accepts exactly when every field check holds. */
  lemma ValidIff(v: ApplicationValues, isEmail: string -> bool)
    ensures Valid(v, isEmail) <==>
      && Utf16Length(v.name) >= 2
      && isEmail(v.email)
      && Utf16Length(v.qualificationDetails) >= 5
      && Utf16Length(v.collegeDetails) >= 3
      && (v.coverLetter.None? || Utf16Length(v.coverLetter.value) >= 10)
      && v.resume.Some? && v.resume.value.size > 0
      && v.resume.value.mimeType in {PDF, DOC, DOCX}
  {
    if !Valid(v, isEmail) {
      var f := Errors(v, isEmail)[0];
      assert Rejects(v, isEmail, f);
    } else {
      assert !Rejects(v, isEmail, Name) && !Rejects(v, isEmail, Email);
      assert !Rejects(v, isEmail, QualificationDetails) && !Rejects(v, isEmail, CollegeDetails);
      assert !Rejects(v, isEmail, CoverLetter) && !Rejects(v, isEmail, Resume);
    }
  }

  /** The form's `defaultValues`: empty text fields, an empty cover letter, no resume. */
  function DefaultValues(): (r: ApplicationValues)
    ensures r.coverLetter == Some("") && r.resume.None?
  {
    ApplicationValues("", "", "", "", Some(""), None)
  }

  /**
   * The optional cover letter is optional only when absent: the default
   * empty string is present and shorter than 10, so any form still holding
   * it is rejected, whatever the other fields say.
   */
  lemma EmptyCoverLetterRejected(v: ApplicationValues, isEmail: string -> bool)
    requires v.coverLetter == Some("")
    ensures CoverLetter in Errors(v, isEmail)
    ensures !Valid(v, isEmail)
  {
  }

  /** The defaults fail every check except possibly the e-mail one. */
  lemma DefaultsRejected(isEmail: string -> bool)
    ensures forall f :: f in Errors(DefaultValues(), isEmail) <==> f != Email || !isEmail("")
  {
  }

  /** What a submission does, in order. */
  datatype Effect = SubmitSuccess | ResetForm

  /** The effects of a submission and the form values it leaves. */
  datatype SubmitOutcome = SubmitOutcome(effects: seq<Effect>, values: ApplicationValues)

  /**
   * `form.handleSubmit(onSubmit)`: an invalid form shows its errors and does
   * nothing else; a valid one calls `onSubmitSuccess` and then resets the
   * form to its defaults.
   */
  function HandleSubmit(v: ApplicationValues, isEmail: string -> bool): (r: SubmitOutcome)
    ensures !Valid(v, isEmail) ==> r == SubmitOutcome([], v)
    ensures Valid(v, isEmail) ==> r.effects == [SubmitSuccess, ResetForm] && r.values == DefaultValues()
  {
    if Valid(v, isEmail) then SubmitOutcome([SubmitSuccess, ResetForm], DefaultValues())
    else SubmitOutcome([], v)
  }

  /** The parent hears of a submission exactly when the form is valid. */
  lemma SuccessIffValid(v: ApplicationValues, isEmail: string -> bool)
    ensures SubmitSuccess in HandleSubmit(v, isEmail).effects <==> Valid(v, isEmail)
  {
  }

  /** After a successful submission, submitting the reset form again does nothing. */
  lemma ResubmitAfterSuccessDoesNothing(v: ApplicationValues, isEmail: string -> bool)
    requires Valid(v, isEmail)
    ensures HandleSubmit(HandleSubmit(v, isEmail).values, isEmail) == SubmitOutcome([], DefaultValues())
  {
    EmptyCoverLetterRejected(DefaultValues(), isEmail);
  }
}
