/**
 * The job-posting form of src/app/admin/create-job/page.tsx: the field
 * checks of `jobFormSchema`, the transform `onSubmit` applies before handing
 * the job to `addJob`, and the effects of a submission.
 *
 * `addJob` itself is not part of this model: a submission records the call
 * and whether it threw. `toISOString` is a parameter.
 */
module CreateJob {
  import opened Wrappers
  import opened Types
  import opened JsString

  // ---------------------------------------------------------------------------
  // The line-list transform
  // ---------------------------------------------------------------------------

  /** `.map(s => s.trim())`. */
  function TrimEach(xs: seq<string>): (r: seq<string>)
    ensures |r| == |xs|
    ensures forall i :: 0 <= i < |xs| ==> r[i] == Trim(xs[i])
  {
    if xs == [] then [] else [Trim(xs[0])] + TrimEach(xs[1..])
  }

  /** `.filter(s => s)`: the empty string is the only falsy string. */
  function NonEmpty(xs: seq<string>): (r: seq<string>)
    ensures |r| <= |xs|
    ensures forall i :: 0 <= i < |r| ==> r[i] != ""
    ensures forall x :: x in r <==> x in xs && x != ""
    ensures forall x :: x != "" ==> multiset(r)[x] == multiset(xs)[x]
  {
    if xs == [] then []
    else
      assert xs == [xs[0]] + xs[1..];
      assert forall x :: x in xs <==> x == xs[0] || x in xs[1..];
      if xs[0] == "" then NonEmpty(xs[1..])
      else [xs[0]] + NonEmpty(xs[1..])
  }

  /** `a` is `b` with some elements left out, the rest kept in order. */
  ghost predicate IsSubsequence<T>(a: seq<T>, b: seq<T>)
    decreases |b|
  {
    if a == [] then true
    else if b == [] then false
    else (a[0] == b[0] && IsSubsequence(a[1..], b[1..])) || IsSubsequence(a, b[1..])
  }

  /** The filter keeps the non-empty elements in their original order. */
  lemma {:induction false} NonEmptyIsSubsequence(xs: seq<string>)
    ensures IsSubsequence(NonEmpty(xs), xs)
  {
    if xs != [] {
      NonEmptyIsSubsequence(xs[1..]);
      if xs[0] != "" {
        assert NonEmpty(xs)[1..] == NonEmpty(xs[1..]);
      }
    }
  }

  /** A list without empty elements passes the filter unchanged. */
  lemma {:induction false} NonEmptyKeepsAll(xs: seq<string>)
    requires forall i :: 0 <= i < |xs| ==> xs[i] != ""
    ensures NonEmpty(xs) == xs
  {
    if xs != [] {
      NonEmptyKeepsAll(xs[1..]);
    }
  }

  /** A list of trimmed strings passes `.map(s => s.trim())` unchanged. */
  lemma TrimEachKeepsTrimmed(xs: seq<string>)
    requires forall i :: 0 <= i < |xs| ==> Trim(xs[i]) == xs[i]
    ensures TrimEach(xs) == xs
  {
  }

  /**
   * `text.split('\n').map(s => s.trim()).filter(s => s)`: the non-blank lines
   * of a textarea, trimmed. No element is empty, starts or ends with
   * whitespace, or contains a line break, and there are no more elements
   * than lines.
   */
  function ParseLines(text: string): (r: seq<string>)
    ensures |r| <= Count(text, '\n') + 1
    ensures forall i :: 0 <= i < |r| ==> r[i] != ""
    ensures forall i :: 0 <= i < |r| ==> Trim(r[i]) == r[i] && '\n' !in r[i]
  {
    var lines := Split(text, '\n');
    var r := NonEmpty(TrimEach(lines));
    TrimmedLines(lines, r);
    r
  }

  /** No element of the transform's result starts or ends with whitespace. */
  lemma ParseLinesTrimmed(text: string)
    ensures forall x :: x in ParseLines(text) ==> !IsWhitespace(x[0]) && !IsWhitespace(x[|x| - 1])
  {
    var r := ParseLines(text);
    forall x | x in r
      ensures !IsWhitespace(x[0]) && !IsWhitespace(x[|x| - 1])
    {
      TrimmedEnds(x);
    }
  }

  /** What the trimmed, filtered lines inherit from the trimmed lines. */
  lemma TrimmedLines(lines: seq<string>, r: seq<string>)
    requires forall i :: 0 <= i < |lines| ==> '\n' !in lines[i]
    requires r == NonEmpty(TrimEach(lines))
    ensures forall i :: 0 <= i < |r| ==> Trim(r[i]) == r[i] && '\n' !in r[i]
  {
    var trimmed := TrimEach(lines);
    forall i | 0 <= i < |r|
      ensures Trim(r[i]) == r[i] && '\n' !in r[i]
    {
      assert r[i] in trimmed;
      var j :| 0 <= j < |trimmed| && trimmed[j] == r[i];
      TrimIdempotent(lines[j]);
      if '\n' in r[i] {
        TrimKeepsCharacters(lines[j], '\n');
      }
    }
  }

  /**
   * The transform keeps the order of the lines: its result is a subsequence
   * of the trimmed lines, every non-blank line is in it, and each non-blank
   * line occurs in it as often as among the trimmed lines. So the result is
   * exactly the trimmed lines with the blank ones left out.
   */
  lemma ParseLinesKeepsOrder(text: string)
    ensures IsSubsequence(ParseLines(text), TrimEach(Split(text, '\n')))
    ensures forall i :: 0 <= i < |Split(text, '\n')| && Trim(Split(text, '\n')[i]) != ""
                        ==> Trim(Split(text, '\n')[i]) in ParseLines(text)
    ensures forall x :: x != "" ==> multiset(ParseLines(text))[x] == multiset(TrimEach(Split(text, '\n')))[x]
  {
    NonEmptyIsSubsequence(TrimEach(Split(text, '\n')));
  }

  /** Joining the result with '\n' and transforming again gives the same list. */
  lemma ParseLinesIdempotent(text: string)
    ensures ParseLines(Join(ParseLines(text), '\n')) == ParseLines(text)
  {
    var xs := ParseLines(text);
    if xs == [] {
      assert Split("", '\n') == [""];
      assert TrimEach([""]) == [""];
    } else {
      SplitJoin(xs, '\n');
      TrimEachKeepsTrimmed(xs);
      NonEmptyKeepsAll(xs);
    }
  }

  /**
   * A text of ten or more spaces satisfies the `min(10)` checks and yet
   * transforms to an empty list: nothing requires a non-empty list.
   */
  lemma BlankTextPassesAsEmptyList(text: string)
    requires |text| >= 10
    requires forall i :: 0 <= i < |text| ==> text[i] == ' '
    ensures Utf16Length(text) >= 10
    ensures ParseLines(text) == []
  {
    CountAbsent(text, '\n');
    var lines := Split(text, '\n');
    assert lines == [text];
    assert Trim(text) == "";
    assert TrimEach(lines) == [""];
  }

  // ---------------------------------------------------------------------------
  // Validation
  // ---------------------------------------------------------------------------

  /** A form value: the text fields, the selected type, and the optional fields. */
  datatype JobFormValues = JobFormValues(
    title: string,
    company: string,
    location: string,
    description: string,
    responsibilities: string,
    qualifications: string,
    employmentType: string,
    salaryRange: Option<string>,
    department: Option<string>,
    expirationDate: Option<Timestamp>)

  /** The fields `jobFormSchema` can reject. */
  datatype JobField =
    Title | Company | Location | Description | Responsibilities | Qualifications | EmploymentTypeField

  /** Zod's `min(n)`: at least `n` UTF-16 code units. */
  predicate MinLength(s: string, n: nat)
  {
    Utf16Length(s) >= n
  }

  /** The check `jobFormSchema` applies to one field. */
  predicate Rejects(v: JobFormValues, f: JobField)
  {
    match f
    case Title => !MinLength(v.title, 3)
    case Company => !MinLength(v.company, 2)
    case Location => !MinLength(v.location, 2)
    case Description => !MinLength(v.description, 10)
    case Responsibilities => !MinLength(v.responsibilities, 10)
    case Qualifications => !MinLength(v.qualifications, 10)
    case EmploymentTypeField => ParseEmploymentType(v.employmentType).None?
  }

  /** The checked fields in schema order. */
  const SCHEMA_FIELDS: seq<JobField> :=
    [Title, Company, Location, Description, Responsibilities, Qualifications, EmploymentTypeField]

  /** The fields of `fs` that the schema rejects, keeping their order. */
  function Rejected(v: JobFormValues, fs: seq<JobField>): (r: seq<JobField>)
    ensures |r| <= |fs|
    ensures forall f :: f in r <==> f in fs && Rejects(v, f)
  {
    if fs == [] then []
    else
      assert forall f :: f in fs <==> f == fs[0] || f in fs[1..];
      (if Rejects(v, fs[0]) then [fs[0]] else []) + Rejected(v, fs[1..])
  }

  /**
   * The fields `jobFormSchema` rejects, in schema order: title shorter than
   * 3, company or location shorter than 2, description, responsibilities or
   * qualifications shorter than 10, or a type that is not one of the four.
   * The optional fields accept anything.
   */
  function Errors(v: JobFormValues): (r: seq<JobField>)
    ensures forall f :: f in r <==> Rejects(v, f)
    ensures |r| <= |SCHEMA_FIELDS|
  {
    forall f: JobField
      ensures f in SCHEMA_FIELDS
    {
      var k := match f
        case Title => 0 case Company => 1 case Location => 2 case Description => 3
        case Responsibilities => 4 case Qualifications => 5 case EmploymentTypeField => 6;
      assert SCHEMA_FIELDS[k] == f;
    }
    Rejected(v, SCHEMA_FIELDS)
  }

  /** The form passes the schema. */
  predicate Valid(v: JobFormValues)
  {
    Errors(v) == []
  }

  /** The schema accepts exactly when every field check holds. */
  lemma ValidIff(v: JobFormValues)
    ensures Valid(v) <==>
      && Utf16Length(v.title) >= 3
      && Utf16Length(v.company) >= 2 && Utf16Length(v.location) >= 2
      && Utf16Length(v.description) >= 10
      && Utf16Length(v.responsibilities) >= 10 && Utf16Length(v.qualifications) >= 10
      && v.employmentType in {"Full-time", "Part-time", "Contract", "Temporary"}
  {
    if !Valid(v) {
      var f := Errors(v)[0];
      assert Rejects(v, f);
    } else {
      assert !Rejects(v, Title) && !Rejects(v, Company) && !Rejects(v, Location);
      assert !Rejects(v, Description) && !Rejects(v, Responsibilities);
      assert !Rejects(v, Qualifications) && !Rejects(v, EmploymentTypeField);
    }
  }

  /** The form's `defaultValues`. */
  function DefaultValues(): (r: JobFormValues)
    ensures r.employmentType == Label(FullTime)
    ensures r.expirationDate.None?
  {
    JobFormValues("", "", "", "", "", "", "Full-time", Some(""), Some(""), None)
  }

  /** The defaults fail every text check and pass only the type check. */
  lemma DefaultsRejected()
    ensures forall f :: f in Errors(DefaultValues()) <==> f != EmploymentTypeField
  {
    assert ParseEmploymentType(DefaultValues().employmentType).Some?;
  }

  // ---------------------------------------------------------------------------
  // Submission
  // ---------------------------------------------------------------------------

  /** The object handed to `addJob`. */
  datatype JobDraft = JobDraft(
    title: string,
    company: string,
    location: string,
    description: string,
    responsibilities: seq<string>,
    qualifications: seq<string>,
    employmentType: EmploymentType,
    salaryRange: Option<string>,
    department: Option<string>,
    expirationDate: Option<string>)

  /**
   * `jobDataToSave`: the two line-list fields transformed, the date converted
   * only when one was picked, every other field passed through.
   */
  function BuildDraft(v: JobFormValues, toIso: Timestamp -> string): (r: JobDraft)
    requires Valid(v)
    ensures r.title == v.title && r.company == v.company && r.location == v.location
    ensures r.description == v.description
    ensures r.salaryRange == v.salaryRange && r.department == v.department
    ensures Label(r.employmentType) == v.employmentType
    ensures r.responsibilities == ParseLines(v.responsibilities)
    ensures r.qualifications == ParseLines(v.qualifications)
    ensures r.expirationDate.Some? <==> v.expirationDate.Some?
    ensures v.expirationDate.Some? ==> r.expirationDate.value == toIso(v.expirationDate.value)
  {
    assert !Rejects(v, EmploymentTypeField);
    JobDraft(
      v.title, v.company, v.location, v.description,
      ParseLines(v.responsibilities), ParseLines(v.qualifications),
      ParseEmploymentType(v.employmentType).value,
      v.salaryRange, v.department,
      if v.expirationDate.Some? then Some(toIso(v.expirationDate.value)) else None)
  }

  const DASHBOARD_PATH: string := "/admin/dashboard"

  /** What a submission does, in order. */
  datatype Effect =
    | AddJob(draft: JobDraft)
    | ToastSuccess(title: string)
    | ResetForm
    | Navigate(path: string)
    | ToastError

  /** The effects of a submission and the form values it leaves. */
  datatype SubmitOutcome = SubmitOutcome(effects: seq<Effect>, values: JobFormValues)

  /**
   * `form.handleSubmit(onSubmit)`: an invalid form shows its errors and does
   * nothing else. A valid one calls `addJob` with the draft; if that returns,
   * it announces the title, resets the form and goes to the dashboard; if it
   * throws, it shows the error toast and keeps the values. Either way `addJob`
   * is called once, first.
   */
  function HandleSubmit(v: JobFormValues, toIso: Timestamp -> string, addJobThrows: bool)
    : (r: SubmitOutcome)
    ensures !Valid(v) ==> r == SubmitOutcome([], v)
    ensures Valid(v) ==> |r.effects| >= 2 && r.effects[0] == AddJob(BuildDraft(v, toIso))
    ensures forall i :: 0 < i < |r.effects| ==> !r.effects[i].AddJob?
    ensures Valid(v) && !addJobThrows
            ==> r.effects[1..] == [ToastSuccess(v.title), ResetForm, Navigate(DASHBOARD_PATH)]
                && r.values == DefaultValues()
    ensures Valid(v) && addJobThrows ==> r.effects[1..] == [ToastError] && r.values == v
  {
    if !Valid(v) then SubmitOutcome([], v)
    else
      var add := AddJob(BuildDraft(v, toIso));
      if addJobThrows then SubmitOutcome([add, ToastError], v)
      else SubmitOutcome([add, ToastSuccess(v.title), ResetForm, Navigate(DASHBOARD_PATH)], DefaultValues())
  }

  /**
   * The form resets and goes to the dashboard exactly when the form was
   * valid and `addJob` returned.
   */
  lemma ResetOnlyAfterAddJob(v: JobFormValues, toIso: Timestamp -> string, addJobThrows: bool)
    ensures ResetForm in HandleSubmit(v, toIso, addJobThrows).effects <==> Valid(v) && !addJobThrows
    ensures Navigate(DASHBOARD_PATH) in HandleSubmit(v, toIso, addJobThrows).effects
            <==> Valid(v) && !addJobThrows
  {
    var r := HandleSubmit(v, toIso, addJobThrows);
    if Valid(v) {
      assert r.effects == [r.effects[0]] + r.effects[1..];
    }
  }

  /** After a successful submission, submitting the reset form again does nothing. */
  lemma ResubmitAfterSuccessDoesNothing(v: JobFormValues, toIso: Timestamp -> string, again: bool)
    requires Valid(v)
    ensures HandleSubmit(HandleSubmit(v, toIso, false).values, toIso, again).effects == []
  {
    DefaultsRejected();
  }
}
