/** The form record shared by the app and the generation service. */
module JobTypes {
  import opened Wrappers

  /** The seven always-present text fields, then the optional ones; an
      optional field that was never filled is `None`. The aspect ratio is
      typed as one of four tokens, but at run time it is whatever string
      the form held, so it is kept as a string. */
  datatype JobDetails = JobDetails(
    jobTitle: string,
    department: string,
    experience: string,
    responsibilities: string,
    skills: string,
    companyName: string,
    location: string,
    email: Option<string>,
    mobileNo: Option<string>,
    primaryColor: Option<string>,
    secondaryColor: Option<string>,
    aspectRatio: Option<string>)

  /** Free-text prompt or structured form. */
  datatype InputMode = Form | Prompt

  /** JavaScript truthiness of a `string | null | undefined`: present and
      not the empty string. */
  predicate Truthy(o: Option<string>) {
    o.Some? && o.value != ""
  }

  /** The four aspect ratios the form offers. */
  const AspectRatios: seq<string> := ["1:1", "9:16", "16:9", "3:4"]

  /** The record the app starts from and returns to on start-over. */
  const InitialDetails: JobDetails := JobDetails(
    "", "", "", "", "", "", "",
    Some(""), Some(""), Some(""), Some(""), Some("1:1"))
}
