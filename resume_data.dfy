/** The resume document as the client holds it: personal information, a
    summary, ordered experience and education entries and a list of skills,
    together with the title and the template tag. */
module ResumeData {
  import opened Wrappers

  /** A JavaScript value found where a template name is expected. A switch
      with `case 'creative':` compares with `===`, so only strings can match;
      every other kind of value is kept apart from them. */
  datatype TagValue = Str(s: string) | Undefined | Null | NonString

  datatype PersonalInfo = PersonalInfo(
    name: string, email: string, phone: string,
    address: string, linkedin: string, website: string)

  datatype Experience = Experience(
    title: string, company: string, location: string,
    startDate: string, endDate: string, current: bool, description: string)

  datatype Education = Education(
    institution: string, degree: string, field: string,
    startDate: string, endDate: string, current: bool)

  datatype Content = Content(
    personalInfo: PersonalInfo, summary: string,
    experience: seq<Experience>, education: seq<Education>, skills: seq<string>)

  /** The form's `formData`: what is edited, previewed and saved. */
  datatype Draft = Draft(title: string, template: TagValue, content: Content)

  /** A resume as the server returns it (`_id` is absent on an unsaved draft). */
  datatype StoredResume = StoredResume(
    id: Option<string>, title: string, template: TagValue,
    content: Content, updatedAt: string)

  const BlankPersonalInfo := PersonalInfo("", "", "", "", "", "")
  const BlankExperience := Experience("", "", "", "", "", false, "")
  const BlankEducation := Education("", "", "", "", "", false)

  /** JavaScript truthiness of an optional string (`initialData?._id`, a route
      parameter): present and not empty. */
  predicate Truthy(o: Option<string>) {
    o.Some? && o.value != ""
  }
}
