/** The resume editor: the draft it starts from, the handlers that each
    rebuild the draft with one thing changed, the skills textarea, the
    decisions taken around saving, exporting and the AI objective, and the
    editor's state (`formData`, `loading`, `aiLoading`, `message`,
    `previewMode`). */
module ResumeForm {
  import opened Wrappers
  import opened Text
  import opened ResumeData
  import opened Layout
  import ResumePreview
  import ProfessionalTemplate
  import CreativeTemplate

  // ---------------------------------------------------------------------
  // The initial draft

  const FreshContent := Content(BlankPersonalInfo, "", [BlankExperience], [BlankEducation], [])

  /** The draft the editor starts from. The title comes from the page's
      `resumeTitle` even when a stored resume is being edited; the template
      and the content come from the stored resume when there is one. */
  function InitialDraft(initialData: Option<StoredResume>, resumeTitle: string): (d: Draft)
    ensures d.title == if resumeTitle != "" then resumeTitle else "My Resume"
    ensures initialData.Some? ==>
      d.template == initialData.value.template && d.content == initialData.value.content
    ensures initialData.None? ==> d.template == Str("professional") && d.content == FreshContent
  {
    Draft(if resumeTitle != "" then resumeTitle else "My Resume",
          if initialData.Some? then initialData.value.template else Str("professional"),
          if initialData.Some? then initialData.value.content else FreshContent)
  }

  /** A fresh draft previews in the professional layout with exactly an
      experience and an education section, each holding one blank entry. */
  lemma FreshDraftPreview(fmt: DateFormatter, draw: nat -> CreativeTemplate.Unit, resumeTitle: string)
    ensures var d := InitialDraft(None, resumeTitle);
      && ResumePreview.Resolve(d.template) == ResumePreview.Professional
      && Kinds(AllSections(ResumePreview.Preview(fmt, draw, d))) == [ExperienceSection, EducationSection]
      && |d.content.experience| == 1 && !d.content.experience[0].current
      && |d.content.education| == 1 && !d.content.education[0].current
      && d.content.skills == []
  {
    var d := InitialDraft(None, resumeTitle);
    assert ResumePreview.Resolve(d.template) == ResumePreview.Professional;
    assert ResumePreview.OrderOf(ResumePreview.Professional) == ProfessionalTemplate.Order;
    ResumePreview.PreviewShape(fmt, draw, d);
    FreshVisible();
  }

  lemma {:induction false} FreshVisible()
    ensures Visible(FreshContent, ProfessionalTemplate.Order) == [ExperienceSection, EducationSection]
  {
    OnlyListsVisible(FreshContent);
  }

  /** With an empty summary, no skills and at least one entry in each list,
      the professional layout shows exactly the two lists. */
  lemma {:induction false} OnlyListsVisible(c: Content)
    requires c.summary == "" && |c.experience| > 0 && |c.education| > 0 && c.skills == []
    ensures Visible(c, ProfessionalTemplate.Order) == [ExperienceSection, EducationSection]
  {
    var p := ShownIn(c);
    assert !p(SummarySection) && p(ExperienceSection) && p(EducationSection) && !p(SkillsSection);
    assert ProfessionalTemplate.Order == [SummarySection, ExperienceSection] + [EducationSection, SkillsSection];
    FilterConcat([SummarySection, ExperienceSection], [EducationSection, SkillsSection], p);
    TwoSectionsFilter(SummarySection, ExperienceSection, p);
    TwoSectionsFilter(EducationSection, SkillsSection, p);
  }

  lemma TwoSectionsFilter(k1: SectionKind, k2: SectionKind, p: SectionKind -> bool)
    ensures Filter([k1, k2], p) == (if p(k1) then [k1] else []) + (if p(k2) then [k2] else [])
  {
    assert [k1, k2][1..] == [k2];
    assert [k2][1..] == [];
  }

  // ---------------------------------------------------------------------
  // Personal information, summary and template

  datatype InfoField = NameField | EmailField | PhoneField | AddressField | LinkedInField | WebsiteField

  /** The text field an input named `name` edits. */
  function InfoValue(info: PersonalInfo, f: InfoField): string {
    match f
    case NameField => info.name
    case EmailField => info.email
    case PhoneField => info.phone
    case AddressField => info.address
    case LinkedInField => info.linkedin
    case WebsiteField => info.website
  }

  function SetInfo(info: PersonalInfo, f: InfoField, v: string): PersonalInfo {
    match f
    case NameField => info.(name := v)
    case EmailField => info.(email := v)
    case PhoneField => info.(phone := v)
    case AddressField => info.(address := v)
    case LinkedInField => info.(linkedin := v)
    case WebsiteField => info.(website := v)
  }

  /** The six fields are all there is to personal information. */
  lemma InfoValuesDetermine(p: PersonalInfo, q: PersonalInfo)
    requires forall f :: InfoValue(p, f) == InfoValue(q, f)
    ensures p == q
  {
    assert InfoValue(p, NameField) == InfoValue(q, NameField);
    assert InfoValue(p, EmailField) == InfoValue(q, EmailField);
    assert InfoValue(p, PhoneField) == InfoValue(q, PhoneField);
    assert InfoValue(p, AddressField) == InfoValue(q, AddressField);
    assert InfoValue(p, LinkedInField) == InfoValue(q, LinkedInField);
    assert InfoValue(p, WebsiteField) == InfoValue(q, WebsiteField);
  }

  /** `handlePersonalInfoChange`: the named field takes the value; every other
      field of the personal information and everything else in the draft
      stay as they were. */
  function WithPersonalInfo(d: Draft, f: InfoField, v: string): (r: Draft)
    ensures InfoValue(r.content.personalInfo, f) == v
    ensures forall g :: g != f ==> InfoValue(r.content.personalInfo, g) == InfoValue(d.content.personalInfo, g)
    ensures r.(content := r.content.(personalInfo := d.content.personalInfo)) == d
  {
    d.(content := d.content.(personalInfo := SetInfo(d.content.personalInfo, f, v)))
  }

  /** Typing into a field twice keeps the last value, and writing back what a
      field holds changes nothing. */
  lemma {:induction false} PersonalInfoLastWriteWins(d: Draft, f: InfoField, v: string, w: string)
    ensures WithPersonalInfo(WithPersonalInfo(d, f, v), f, w) == WithPersonalInfo(d, f, w)
    ensures WithPersonalInfo(d, f, InfoValue(d.content.personalInfo, f)) == d
  {
    var p1 := WithPersonalInfo(WithPersonalInfo(d, f, v), f, w).content.personalInfo;
    var p2 := WithPersonalInfo(d, f, w).content.personalInfo;
    InfoValuesDetermine(p1, p2);
    InfoValuesDetermine(WithPersonalInfo(d, f, InfoValue(d.content.personalInfo, f)).content.personalInfo,
                        d.content.personalInfo);
  }

  /** `handleSummaryChange`: only the summary changes. */
  function WithSummary(d: Draft, summary: string): (r: Draft)
    ensures r.content.summary == summary
    ensures r.(content := r.content.(summary := d.content.summary)) == d
  {
    d.(content := d.content.(summary := summary))
  }

  /** `handleTemplateChange`: only the template tag changes. */
  function WithTemplate(d: Draft, tag: string): (r: Draft)
    ensures r.template == Str(tag)
    ensures r.(template := d.template) == d
  {
    d.(template := Str(tag))
  }

  /** The three template buttons select the three layouts. */
  lemma TemplateButtonsSelect(d: Draft)
    ensures ResumePreview.Resolve(WithTemplate(d, "professional").template) == ResumePreview.Professional
    ensures ResumePreview.Resolve(WithTemplate(d, "creative").template) == ResumePreview.Creative
    ensures ResumePreview.Resolve(WithTemplate(d, "minimal").template) == ResumePreview.Minimal
  {
  }

  // ---------------------------------------------------------------------
  // Change events of experience and education entries

  /** What `type === 'checkbox' ? checked : value` stores. */
  datatype FieldValue = TextValue(text: string) | FlagValue(flag: bool)

  /** The parts of `e.target` the entry handlers read. */
  datatype ChangeEvent<F> = ChangeEvent(name: F, value: string, isCheckbox: bool, checked: bool)

  function EventValue<F>(ev: ChangeEvent<F>): (v: FieldValue)
    ensures ev.isCheckbox ==> v == FlagValue(ev.checked)
    ensures !ev.isCheckbox ==> v == TextValue(ev.value)
  {
    if ev.isCheckbox then FlagValue(ev.checked) else TextValue(ev.value)
  }

  datatype ExperienceField =
    ExpTitle | ExpCompany | ExpLocation | ExpStartDate | ExpEndDate | ExpCurrent | ExpDescription

  /** As the form wires its inputs: the only checkbox is the one named `current`. */
  predicate ExperienceWired(ev: ChangeEvent<ExperienceField>) {
    ev.isCheckbox <==> ev.name == ExpCurrent
  }

  function ExperienceValue(e: Experience, f: ExperienceField): FieldValue {
    match f
    case ExpTitle => TextValue(e.title)
    case ExpCompany => TextValue(e.company)
    case ExpLocation => TextValue(e.location)
    case ExpStartDate => TextValue(e.startDate)
    case ExpEndDate => TextValue(e.endDate)
    case ExpCurrent => FlagValue(e.current)
    case ExpDescription => TextValue(e.description)
  }

  function SetExperience(e: Experience, f: ExperienceField, v: FieldValue): Experience
    requires v.FlagValue? <==> f == ExpCurrent
  {
    match f
    case ExpTitle => e.(title := v.text)
    case ExpCompany => e.(company := v.text)
    case ExpLocation => e.(location := v.text)
    case ExpStartDate => e.(startDate := v.text)
    case ExpEndDate => e.(endDate := v.text)
    case ExpCurrent => e.(current := v.flag)
    case ExpDescription => e.(description := v.text)
  }

  /** The seven fields are all there is to an experience entry. */
  lemma ExperienceValuesDetermine(a: Experience, b: Experience)
    requires forall f :: ExperienceValue(a, f) == ExperienceValue(b, f)
    ensures a == b
  {
    assert ExperienceValue(a, ExpTitle) == ExperienceValue(b, ExpTitle);
    assert ExperienceValue(a, ExpCompany) == ExperienceValue(b, ExpCompany);
    assert ExperienceValue(a, ExpLocation) == ExperienceValue(b, ExpLocation);
    assert ExperienceValue(a, ExpStartDate) == ExperienceValue(b, ExpStartDate);
    assert ExperienceValue(a, ExpEndDate) == ExperienceValue(b, ExpEndDate);
    assert ExperienceValue(a, ExpCurrent) == ExperienceValue(b, ExpCurrent);
    assert ExperienceValue(a, ExpDescription) == ExperienceValue(b, ExpDescription);
  }

  /** `handleExperienceChange(index, e)`: in entry `i`, the named field takes
      the event's value; its other fields, every other entry, the length of
      the list and the rest of the draft stay as they were. */
  function ChangeExperience(d: Draft, i: nat, ev: ChangeEvent<ExperienceField>): (r: Draft)
    requires i < |d.content.experience|
    requires ExperienceWired(ev)
    ensures |r.content.experience| == |d.content.experience|
    ensures ExperienceValue(r.content.experience[i], ev.name) == EventValue(ev)
    ensures forall g :: g != ev.name ==>
      ExperienceValue(r.content.experience[i], g) == ExperienceValue(d.content.experience[i], g)
    ensures forall j :: 0 <= j < |d.content.experience| && j != i ==>
      r.content.experience[j] == d.content.experience[j]
    ensures r.(content := r.content.(experience := d.content.experience)) == d
  {
    var es := d.content.experience;
    d.(content := d.content.(experience := es[i := SetExperience(es[i], ev.name, EventValue(ev))]))
  }

  datatype EducationField =
    EduInstitution | EduDegree | EduField | EduStartDate | EduEndDate | EduCurrent

  predicate EducationWired(ev: ChangeEvent<EducationField>) {
    ev.isCheckbox <==> ev.name == EduCurrent
  }

  function EducationValue(e: Education, f: EducationField): FieldValue {
    match f
    case EduInstitution => TextValue(e.institution)
    case EduDegree => TextValue(e.degree)
    case EduField => TextValue(e.field)
    case EduStartDate => TextValue(e.startDate)
    case EduEndDate => TextValue(e.endDate)
    case EduCurrent => FlagValue(e.current)
  }

  function SetEducation(e: Education, f: EducationField, v: FieldValue): Education
    requires v.FlagValue? <==> f == EduCurrent
  {
    match f
    case EduInstitution => e.(institution := v.text)
    case EduDegree => e.(degree := v.text)
    case EduField => e.(field := v.text)
    case EduStartDate => e.(startDate := v.text)
    case EduEndDate => e.(endDate := v.text)
    case EduCurrent => e.(current := v.flag)
  }

  /** The six fields are all there is to an education entry. */
  lemma EducationValuesDetermine(a: Education, b: Education)
    requires forall f :: EducationValue(a, f) == EducationValue(b, f)
    ensures a == b
  {
    assert EducationValue(a, EduInstitution) == EducationValue(b, EduInstitution);
    assert EducationValue(a, EduDegree) == EducationValue(b, EduDegree);
    assert EducationValue(a, EduField) == EducationValue(b, EduField);
    assert EducationValue(a, EduStartDate) == EducationValue(b, EduStartDate);
    assert EducationValue(a, EduEndDate) == EducationValue(b, EduEndDate);
    assert EducationValue(a, EduCurrent) == EducationValue(b, EduCurrent);
  }

  /** `handleEducationChange(index, e)`, the twin of `ChangeExperience`. */
  function ChangeEducation(d: Draft, i: nat, ev: ChangeEvent<EducationField>): (r: Draft)
    requires i < |d.content.education|
    requires EducationWired(ev)
    ensures |r.content.education| == |d.content.education|
    ensures EducationValue(r.content.education[i], ev.name) == EventValue(ev)
    ensures forall g :: g != ev.name ==>
      EducationValue(r.content.education[i], g) == EducationValue(d.content.education[i], g)
    ensures forall j :: 0 <= j < |d.content.education| && j != i ==>
      r.content.education[j] == d.content.education[j]
    ensures r.(content := r.content.(education := d.content.education)) == d
  {
    var es := d.content.education;
    d.(content := d.content.(education := es[i := SetEducation(es[i], ev.name, EventValue(ev))]))
  }

  // ---------------------------------------------------------------------
  // Adding and removing entries

  /** `copy.splice(i, 1)` for an index that is not negative: entry `i` goes,
      the others keep their order; an index past the end changes nothing. */
  function RemoveAt<T>(s: seq<T>, i: nat): (r: seq<T>)
    ensures i >= |s| ==> r == s
    ensures i < |s| ==> |r| == |s| - 1
    ensures i < |s| ==> forall j :: 0 <= j < i ==> r[j] == s[j]
    ensures i < |s| ==> forall j :: i <= j < |r| ==> r[j] == s[j + 1]
  {
    if i < |s| then s[..i] + s[i + 1..] else s
  }

  /** Exactly one occurrence of the removed entry is lost. */
  lemma RemoveAtCounts<T>(s: seq<T>, i: nat)
    requires i < |s|
    ensures multiset(RemoveAt(s, i)) + multiset{s[i]} == multiset(s)
  {
    assert s == s[..i] + [s[i]] + s[i + 1..];
  }

  /** `addExperience`: one blank entry more at the end, the earlier entries
      and the rest of the draft unchanged. */
  function AddExperience(d: Draft): (r: Draft)
    ensures |r.content.experience| == |d.content.experience| + 1
    ensures r.content.experience[|d.content.experience|] == BlankExperience
    ensures forall j :: 0 <= j < |d.content.experience| ==> r.content.experience[j] == d.content.experience[j]
    ensures r.(content := r.content.(experience := d.content.experience)) == d
  {
    d.(content := d.content.(experience := d.content.experience + [BlankExperience]))
  }

  /** `removeExperience(index)`: the list loses entry `i` (if it has one). */
  function RemoveExperience(d: Draft, i: nat): (r: Draft)
    ensures r.content.experience == RemoveAt(d.content.experience, i)
    ensures r.(content := r.content.(experience := d.content.experience)) == d
  {
    d.(content := d.content.(experience := RemoveAt(d.content.experience, i)))
  }

  function AddEducation(d: Draft): (r: Draft)
    ensures |r.content.education| == |d.content.education| + 1
    ensures r.content.education[|d.content.education|] == BlankEducation
    ensures forall j :: 0 <= j < |d.content.education| ==> r.content.education[j] == d.content.education[j]
    ensures r.(content := r.content.(education := d.content.education)) == d
  {
    d.(content := d.content.(education := d.content.education + [BlankEducation]))
  }

  function RemoveEducation(d: Draft, i: nat): (r: Draft)
    ensures r.content.education == RemoveAt(d.content.education, i)
    ensures r.(content := r.content.(education := d.content.education)) == d
  {
    d.(content := d.content.(education := RemoveAt(d.content.education, i)))
  }

  /** Removing the entry just added gives back the draft. */
  lemma {:induction false} RemoveUndoesAdd(d: Draft)
    ensures RemoveExperience(AddExperience(d), |d.content.experience|) == d
    ensures RemoveEducation(AddEducation(d), |d.content.education|) == d
  {
    var es := d.content.experience;
    assert RemoveAt(es + [BlankExperience], |es|) == es;
    var us := d.content.education;
    assert RemoveAt(us + [BlankEducation], |us|) == us;
  }

  /** The remove buttons exist only from the second entry on, so through them
      a list never loses its first entry and never becomes empty. */
  lemma {:induction false} RemoveKeepsFirst(d: Draft, i: nat)
    requires i > 0
    ensures |d.content.experience| > 0 ==>
      |RemoveExperience(d, i).content.experience| > 0 &&
      RemoveExperience(d, i).content.experience[0] == d.content.experience[0]
    ensures |d.content.education| > 0 ==>
      |RemoveEducation(d, i).content.education| > 0 &&
      RemoveEducation(d, i).content.education[0] == d.content.education[0]
  {
  }

  // ---------------------------------------------------------------------
  // The skills textarea

  /** `pieces.map(piece => piece.trim())` */
  function TrimAll(pieces: seq<string>): (r: seq<string>)
    ensures |r| == |pieces|
  {
    if pieces == [] then [] else [Trim(pieces[0])] + TrimAll(pieces[1..])
  }

  lemma {:induction false} TrimAllAt(pieces: seq<string>, i: nat)
    requires i < |pieces|
    ensures TrimAll(pieces)[i] == Trim(pieces[i])
  {
    if i > 0 { TrimAllAt(pieces[1..], i - 1); }
  }

  /** A skill the textarea can carry unchanged: trimmed and free of commas. */
  predicate CleanSkill(s: string) {
    IsTrimmed(s) && ',' !in s
  }

  /** `value.split(',').map(skill => skill.trim())`: one skill per comma more
      than there are commas, each trimmed and free of commas. */
  function ParseSkills(text: string): (skills: seq<string>)
    ensures |skills| == Count(text, ',') + 1
    ensures forall i :: 0 <= i < |skills| ==> CleanSkill(skills[i])
  {
    var pieces := Split(text, ',');
    var skills := TrimAll(pieces);
    forall i | 0 <= i < |pieces| ensures CleanSkill(skills[i]) {
      TrimAllAt(pieces, i);
      TrimKeepsOut(pieces[i], ',');
    }
    skills
  }

  /** The textarea's value: `skills.join(', ')`. */
  function SkillsText(skills: seq<string>): string {
    Join(skills, ", ")
  }

  /** `handleSkillsChange`: only the skills change. */
  function WithSkills(d: Draft, text: string): (r: Draft)
    ensures r.content.skills == ParseSkills(text)
    ensures r.(content := r.content.(skills := d.content.skills)) == d
  {
    d.(content := d.content.(skills := ParseSkills(text)))
  }

  /** Clearing the textarea leaves one empty skill, not an empty list, so the
      skills section is still rendered. */
  lemma ClearedSkillsStillShown(d: Draft)
    ensures WithSkills(d, "").content.skills == [""]
    ensures Shown(WithSkills(d, "").content, SkillsSection)
  {
    var r := WithSkills(d, "");
    ParseEmptyText();
    assert r.content.skills == [""];
    assert |r.content.skills| == 1;
  }

  /** `"".split(',')` is `[""]`, and trimming keeps it. */
  lemma ParseEmptyText()
    ensures ParseSkills("") == [""]
  {
    var pieces := Split("", ',');
    assert pieces == [""];
    assert pieces[1..] == [];
    assert Trim(pieces[0]) == "";
    assert TrimAll(pieces) == [Trim(pieces[0])] + TrimAll(pieces[1..]);
  }

  /** A space in front of the text only reaches the first piece, which is
      trimmed anyway. */
  lemma {:induction false} ParseSkillsSpace(s: string)
    ensures ParseSkills(" " + s) == ParseSkills(s)
  {
    var p := Split(s, ',');
    assert " " + s == [' '] + s;
    SplitCons(' ', s, ',');
    TrimLeadingSpace(p[0]);
    var q := Split(" " + s, ',');
    assert q == [" " + p[0]] + p[1..];
    assert TrimAll(q) == [Trim(q[0])] + TrimAll(p[1..]) by { assert q[1..] == p[1..]; }
    assert TrimAll(p) == [Trim(p[0])] + TrimAll(p[1..]);
  }

  /** The text up to the first comma is the first skill. */
  lemma {:induction false} ParseSkillsAfter(a: string, b: string)
    requires ',' !in a
    ensures ParseSkills(a + "," + b) == [Trim(a)] + ParseSkills(b)
  {
    SplitAfter(a, b, ',');
    assert a + "," + b == a + [','] + b;
    var q := Split(a + "," + b, ',');
    assert q == [a] + Split(b, ',');
    assert q[1..] == Split(b, ',');
  }

  /** Joining trimmed, comma-free skills into the textarea and parsing the
      text back gives the same list. */
  lemma {:induction false} SkillsRoundTrip(skills: seq<string>)
    requires |skills| > 0
    requires forall i :: 0 <= i < |skills| ==> CleanSkill(skills[i])
    ensures ParseSkills(SkillsText(skills)) == skills
  {
    if |skills| == 1 {
      RoundTripOne(skills);
    } else {
      CleanTail(skills);
      SkillsRoundTrip(skills[1..]);
      RoundTripCons(skills);
    }
  }

  lemma RoundTripCons(skills: seq<string>)
    requires |skills| > 1 && CleanSkill(skills[0])
    requires ParseSkills(SkillsText(skills[1..])) == skills[1..]
    ensures ParseSkills(SkillsText(skills)) == skills
  {
    RoundTripStep(skills);
    assert skills == [skills[0]] + skills[1..];
  }

  lemma CleanTail(skills: seq<string>)
    requires |skills| > 0
    requires forall i :: 0 <= i < |skills| ==> CleanSkill(skills[i])
    ensures forall i :: 0 <= i < |skills[1..]| ==> CleanSkill(skills[1..][i])
  {
    forall i | 0 <= i < |skills[1..]| ensures CleanSkill(skills[1..][i]) { assert skills[1..][i] == skills[i + 1]; }
  }

  lemma RoundTripOne(skills: seq<string>)
    requires |skills| == 1 && CleanSkill(skills[0])
    ensures ParseSkills(SkillsText(skills)) == skills
  {
    var skill := skills[0];
    assert skills == [skill];
    SplitFree(skill, ',');
    TrimTrimmed(skill);
  }

  lemma {:induction false} RoundTripStep(skills: seq<string>)
    requires |skills| > 1 && CleanSkill(skills[0])
    ensures ParseSkills(SkillsText(skills)) == [skills[0]] + ParseSkills(SkillsText(skills[1..]))
  {
    var first, rest := skills[0], SkillsText(skills[1..]);
    SkillsTextStep(skills);
    ParseSkillsAfter(first, " " + rest);
    ParseSkillsSpace(rest);
    TrimTrimmed(first);
  }

  lemma SkillsTextStep(skills: seq<string>)
    requires |skills| > 1
    ensures SkillsText(skills) == skills[0] + "," + (" " + SkillsText(skills[1..]))
  {
    var rest := SkillsText(skills[1..]);
    assert SkillsText(skills) == skills[0] + ", " + rest;
    assert skills[0] + ", " + rest == skills[0] + "," + (" " + rest);
  }

  /** The textarea shows `skills.join(', ')` of what was parsed; parsing that
      again gives the same list, so re-rendering never changes the skills. */
  lemma TextareaIsStable(text: string)
    ensures ParseSkills(SkillsText(ParseSkills(text))) == ParseSkills(text)
  {
    SkillsRoundTrip(ParseSkills(text));
  }

  // ---------------------------------------------------------------------
  // Saving, exporting and the AI objective

  /** The request `saveResume` sends. */
  datatype SaveRequest = CreateResume(body: Draft) | UpdateResume(id: string, body: Draft)

  /** An update of the stored resume exactly when editing one that has an
      id, a creation otherwise; the page's title wins over the draft's. */
  function SaveRequestFor(d: Draft, resumeTitle: string, isEditing: bool,
                          initialData: Option<StoredResume>): (r: SaveRequest)
    ensures r.UpdateResume? <==> isEditing && initialData.Some? && Truthy(initialData.value.id)
    ensures r.UpdateResume? ==> initialData.Some? && initialData.value.id == Some(r.id)
    ensures r.body.title == if resumeTitle != "" then resumeTitle else d.title
    ensures r.body.(title := d.title) == d
  {
    var body := d.(title := if resumeTitle != "" then resumeTitle else d.title);
    if isEditing && initialData.Some? && Truthy(initialData.value.id)
    then UpdateResume(initialData.value.id.value, body)
    else CreateResume(body)
  }

  /** `${formData.title || 'resume'}.pdf`: the title as typed, whitespace
      included, or "resume" when it is empty. */
  function PdfFileName(title: string): (name: string)
    ensures |name| >= 4 && name[|name| - 4..] == ".pdf"
    ensures title != "" ==> |name| == |title| + 4 && name[..|title|] == title
    ensures title == "" ==> name == "resume.pdf"
  {
    (if title != "" then title else "resume") + ".pdf"
  }

  /** One experience entry as the AI endpoint is told about it. */
  datatype ExperienceDetail = ExperienceDetail(title: string, company: string, description: string)
  datatype EducationDetail = EducationDetail(degree: string, field: string, institution: string)
  datatype AiRequest = AiRequest(
    name: string, role: string, skills: seq<string>,
    experience: seq<ExperienceDetail>, education: seq<EducationDetail>, singleOption: bool)

  function ExperienceDetailOf(e: Experience): ExperienceDetail {
    ExperienceDetail(e.title, e.company, e.description)
  }

  function EducationDetailOf(e: Education): EducationDetail {
    EducationDetail(e.degree, e.field, e.institution)
  }

  predicate ExperienceDetailFilled(x: ExperienceDetail) {
    x.title != "" || x.company != "" || x.description != ""
  }

  predicate EducationDetailFilled(x: EducationDetail) {
    x.degree != "" || x.field != "" || x.institution != ""
  }

  /** The body of the AI request: the name and the first entry's title, each
      defaulting to "Professional", the skills as they are, and the details
      of the entries with at least one of the three fields filled in, in
      list order and with every occurrence kept. */
  function AiPayload(c: Content): (req: AiRequest)
    ensures req.name == if c.personalInfo.name != "" then c.personalInfo.name else "Professional"
    ensures req.role == if |c.experience| > 0 && c.experience[0].title != "" then c.experience[0].title else "Professional"
    ensures req.skills == c.skills && req.singleOption
    ensures Subsequence(req.experience, ExperienceDetails(c.experience))
    ensures forall x :: multiset(req.experience)[x] == (if ExperienceDetailFilled(x) then multiset(ExperienceDetails(c.experience))[x] else 0)
    ensures Subsequence(req.education, EducationDetails(c.education))
    ensures forall x :: multiset(req.education)[x] == (if EducationDetailFilled(x) then multiset(EducationDetails(c.education))[x] else 0)
  {
    AiRequest(
      if c.personalInfo.name != "" then c.personalInfo.name else "Professional",
      if |c.experience| > 0 && c.experience[0].title != "" then c.experience[0].title else "Professional",
      c.skills,
      FilledExperience(c.experience),
      FilledEducation(c.education),
      true)
  }

  /** `experience.map(exp => ({ title, company, description }))` */
  function ExperienceDetails(es: seq<Experience>): (xs: seq<ExperienceDetail>)
    ensures |xs| == |es|
    ensures forall i :: 0 <= i < |es| ==> xs[i] == ExperienceDetailOf(es[i])
  {
    seq(|es|, i requires 0 <= i < |es| => ExperienceDetailOf(es[i]))
  }

  /** `education.map(edu => ({ degree, field, institution }))` */
  function EducationDetails(es: seq<Education>): (xs: seq<EducationDetail>)
    ensures |xs| == |es|
    ensures forall i :: 0 <= i < |es| ==> xs[i] == EducationDetailOf(es[i])
  {
    seq(|es|, i requires 0 <= i < |es| => EducationDetailOf(es[i]))
  }

  /** The `.filter(exp => exp.title || exp.company || exp.description)` of
      the mapped entries: the filled ones, in order, each occurrence kept. */
  function FilledExperience(es: seq<Experience>): (r: seq<ExperienceDetail>)
    ensures Subsequence(r, ExperienceDetails(es))
    ensures forall x :: multiset(r)[x] == (if ExperienceDetailFilled(x) then multiset(ExperienceDetails(es))[x] else 0)
  {
    var xs := ExperienceDetails(es);
    var fx := x => ExperienceDetailFilled(x);
    FilterSubsequence(xs, fx);
    forall x ensures multiset(Filter(xs, fx))[x] == if ExperienceDetailFilled(x) then multiset(xs)[x] else 0 {
      FilterCounts(xs, fx, x);
    }
    Filter(xs, fx)
  }

  /** The `.filter(edu => edu.degree || edu.field || edu.institution)` of
      the mapped entries. */
  function FilledEducation(es: seq<Education>): (r: seq<EducationDetail>)
    ensures Subsequence(r, EducationDetails(es))
    ensures forall x :: multiset(r)[x] == (if EducationDetailFilled(x) then multiset(EducationDetails(es))[x] else 0)
  {
    var us := EducationDetails(es);
    var fu := x => EducationDetailFilled(x);
    FilterSubsequence(us, fu);
    forall x ensures multiset(Filter(us, fu))[x] == if EducationDetailFilled(x) then multiset(us)[x] else 0 {
      FilterCounts(us, fu, x);
    }
    Filter(us, fu)
  }

  /** In particular an entry's details are sent exactly when one of its
      three fields is filled in. */
  lemma AiPayloadMentions(c: Content, i: nat)
    requires i < |c.experience|
    ensures ExperienceDetailOf(c.experience[i]) in AiPayload(c).experience
        <==> ExperienceDetailFilled(ExperienceDetailOf(c.experience[i]))
  {
    var x := ExperienceDetailOf(c.experience[i]);
    assert ExperienceDetails(c.experience)[i] == x;
    assert multiset(ExperienceDetails(c.experience))[x] > 0;
  }

  /** What the AI endpoint answers: an objective, a refusal carrying an error
      text, or a failed request. */
  datatype AiResponse = AiSucceeded(objective: string) | AiRefused(error: string) | AiFailed

  // ---------------------------------------------------------------------
  // The editor's state

  class FormState {
    const initialData: Option<StoredResume>
    const resumeTitle: string
    const isEditing: bool
    var formData: Draft
    var loading: bool
    var aiLoading: bool
    var message: string
    var previewMode: bool

    constructor(initialData: Option<StoredResume>, resumeTitle: string, isEditing: bool)
      ensures this.initialData == initialData && this.resumeTitle == resumeTitle && this.isEditing == isEditing
      ensures formData == InitialDraft(initialData, resumeTitle)
      ensures !loading && !aiLoading && message == "" && !previewMode
    {
      this.initialData := initialData;
      this.resumeTitle := resumeTitle;
      this.isEditing := isEditing;
      formData := InitialDraft(initialData, resumeTitle);
      loading := false;
      aiLoading := false;
      message := "";
      previewMode := false;
    }

    method TogglePreviewMode()
      modifies this`previewMode
      ensures previewMode == !old(previewMode)
    {
      previewMode := !previewMode;
    }

    method ChangePersonalInfo(f: InfoField, v: string)
      modifies this`formData
      ensures formData == WithPersonalInfo(old(formData), f, v)
    {
      formData := WithPersonalInfo(formData, f, v);
    }

    method ChangeSummary(summary: string)
      modifies this`formData
      ensures formData == WithSummary(old(formData), summary)
    {
      formData := WithSummary(formData, summary);
    }

    method ChangeTemplate(tag: string)
      modifies this`formData
      ensures formData == WithTemplate(old(formData), tag)
    {
      formData := WithTemplate(formData, tag);
    }

    method ChangeExperienceEntry(i: nat, ev: ChangeEvent<ExperienceField>)
      requires i < |formData.content.experience| && ExperienceWired(ev)
      modifies this`formData
      ensures formData == ChangeExperience(old(formData), i, ev)
    {
      formData := ChangeExperience(formData, i, ev);
    }

    method AddExperienceEntry()
      modifies this`formData
      ensures formData == AddExperience(old(formData))
    {
      formData := AddExperience(formData);
    }

    method RemoveExperienceEntry(i: nat)
      modifies this`formData
      ensures formData == RemoveExperience(old(formData), i)
    {
      formData := RemoveExperience(formData, i);
    }

    method ChangeEducationEntry(i: nat, ev: ChangeEvent<EducationField>)
      requires i < |formData.content.education| && EducationWired(ev)
      modifies this`formData
      ensures formData == ChangeEducation(old(formData), i, ev)
    {
      formData := ChangeEducation(formData, i, ev);
    }

    method AddEducationEntry()
      modifies this`formData
      ensures formData == AddEducation(old(formData))
    {
      formData := AddEducation(formData);
    }

    method RemoveEducationEntry(i: nat)
      modifies this`formData
      ensures formData == RemoveEducation(old(formData), i)
    {
      formData := RemoveEducation(formData, i);
    }

    method ChangeSkills(text: string)
      modifies this`formData
      ensures formData == WithSkills(old(formData), text)
    {
      formData := WithSkills(formData, text);
    }

    /** `saveResume` up to the request: busy, with the request it sends. */
    method BeginSave() returns (request: SaveRequest)
      modifies this`loading, this`message
      ensures request == SaveRequestFor(formData, resumeTitle, isEditing, initialData)
      ensures loading && message == "Saving resume..."
    {
      loading := true;
      message := "Saving resume...";
      request := SaveRequestFor(formData, resumeTitle, isEditing, initialData);
    }

    /** `saveResume` after the request, given whether it succeeded. */
    method FinishSave(saved: bool)
      modifies this`loading, this`message
      ensures !loading
      ensures message == if saved then "Resume saved successfully!" else "Error saving resume. Please try again."
    {
      loading := false;
      if saved {
        message := "Resume saved successfully!";
      } else {
        message := "Error saving resume. Please try again.";
      }
    }

    /** `downloadPDF` up to the capture: without a mounted preview it stops
      with an error and is no longer busy; otherwise it is busy and the file
      will be named after the current title. */
    method BeginPdf(previewMounted: bool) returns (fileName: Option<string>)
      modifies this`loading, this`message
      ensures !previewMounted ==>
        fileName == None && !loading && message == "Error: Could not generate PDF. Please try again."
      ensures previewMounted ==>
        fileName == Some(PdfFileName(formData.title)) && loading && message == "Generating PDF..."
    {
      loading := true;
      message := "Generating PDF...";
      if !previewMounted {
        message := "Error: Could not generate PDF. Please try again.";
        loading := false;
        return None;
      }
      fileName := Some(PdfFileName(formData.title));
    }

    /** `downloadPDF` after the capture, given whether the file was written. */
    method FinishPdf(written: bool)
      modifies this`loading, this`message
      ensures !loading
      ensures message == if written then "PDF generated successfully!" else "Error generating PDF. Please try again."
    {
      loading := false;
      if written {
        message := "PDF generated successfully!";
      } else {
        message := "Error generating PDF. Please try again.";
      }
    }

    /** `generateAIObjective` up to the request: the draft it will write the
      objective into is the one current now, and the request describes it. */
    method BeginAiObjective() returns (snapshot: Draft, request: AiRequest)
      modifies this`aiLoading, this`message
      ensures snapshot == formData && request == AiPayload(formData.content)
      ensures aiLoading && message == "Generating AI objective..."
    {
      aiLoading := true;
      message := "Generating AI objective...";
      snapshot := formData;
      request := AiPayload(formData.content);
    }

    /** `generateAIObjective` after the answer. A generated objective replaces
      the summary of the snapshot taken when the request started, so edits
      made while it was pending are dropped. */
    method FinishAiObjective(snapshot: Draft, response: AiResponse)
      modifies this`formData, this`aiLoading, this`message
      ensures response.AiSucceeded? ==> formData == WithSummary(snapshot, response.objective)
      ensures !response.AiSucceeded? ==> formData == old(formData)
      ensures !aiLoading
      ensures message == match response
        case AiSucceeded(_) => "AI objective generated successfully!"
        case AiRefused(error) => "Error: " + error
        case AiFailed => "Error generating AI objective. Please try again."
    {
      aiLoading := false;
      match response
      case AiSucceeded(objective) =>
        formData := WithSummary(snapshot, objective);
        message := "AI objective generated successfully!";
      case AiRefused(error) =>
        message := "Error: " + error;
      case AiFailed =>
        message := "Error generating AI objective. Please try again.";
    }
  }
}
