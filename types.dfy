/** The value types shared by the job store and the admin forms (src/types/index.ts). */
module Types {
  import opened Wrappers

  /** The four employment types a job may carry. */
  datatype EmploymentType = FullTime | PartTime | Contract | Temporary

  /** The string that stands for an employment type in the form and in the data. */
  function Label(e: EmploymentType): string
  {
    match e
    case FullTime => "Full-time"
    case PartTime => "Part-time"
    case Contract => "Contract"
    case Temporary => "Temporary"
  }

  /** Reads an employment type from its string; any other string is rejected. */
  function ParseEmploymentType(s: string): (r: Option<EmploymentType>)
    ensures r.Some? ==> Label(r.value) == s
    ensures r.None? <==> s !in {"Full-time", "Part-time", "Contract", "Temporary"}
  {
    if s == "Full-time" then Some(FullTime)
    else if s == "Part-time" then Some(PartTime)
    else if s == "Contract" then Some(Contract)
    else if s == "Temporary" then Some(Temporary)
    else None
  }

  /** Parsing a label gives back the employment type it came from. */
  lemma ParseLabel(e: EmploymentType)
    ensures ParseEmploymentType(Label(e)) == Some(e)
  {
  }

  /** Milliseconds since the epoch, the value `Date.getTime()` compares. */
  type Timestamp = int

  /** A job posting. */
  datatype Job = Job(
    id: string,
    title: string,
    company: string,
    location: string,
    description: string,
    responsibilities: seq<string>,
    qualifications: seq<string>,
    employmentType: EmploymentType,
    postedDate: Timestamp,
    expirationDate: Option<Timestamp>,
    salaryRange: Option<string>,
    department: Option<string>,
    applicationUrl: Option<string>)
}
