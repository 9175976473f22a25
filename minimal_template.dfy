/** The "minimal" layout: one column, a centred header whose contact rows are
    plain text, then the "Profile", experience, education and skills
    sections; the skills are one line joined with a bullet separator. */
module MinimalTemplate {
  import opened Wrappers
  import opened Text
  import opened ResumeData
  import opened Layout

  const Order := [SummarySection, ExperienceSection, EducationSection, SkillsSection]

  /** The separator as the file stores it: the UTF-8 bytes of " • " read as
      Windows-1252, that is space, U+00E2, U+20AC, U+00A2, space. */
  const SkillSeparator := " \U{00E2}\U{20AC}\U{00A2} "

  function ExperienceBlock(fmt: DateFormatter, e: Experience): seq<Line> {
    [ Line(EntryTitle, e.title),
      Line(DateRangeLine, DateRange(fmt, e.startDate, e.endDate, e.current)),
      Line(Organisation, CompanyLine(e.company, e.location)),
      Line(Details, e.description) ]
  }

  function EducationBlock(fmt: DateFormatter, e: Education): seq<Line> {
    [ Line(EntryTitle, DegreeLine(e.degree, e.field)),
      Line(DateRangeLine, DateRange(fmt, e.startDate, e.endDate, e.current)),
      Line(Organisation, e.institution) ]
  }

  function ExperienceBlocks(fmt: DateFormatter, es: seq<Experience>): seq<seq<Line>> {
    seq(|es|, i requires 0 <= i < |es| => ExperienceBlock(fmt, es[i]))
  }

  function EducationBlocks(fmt: DateFormatter, es: seq<Education>): seq<seq<Line>> {
    seq(|es|, i requires 0 <= i < |es| => EducationBlock(fmt, es[i]))
  }

  function SummaryPart(c: Content): Section {
    Section(SummarySection, "Profile", Paragraph(c.summary))
  }

  function ExperiencePart(fmt: DateFormatter, c: Content): Section {
    Section(ExperienceSection, "Experience", Entries(ExperienceBlocks(fmt, c.experience)))
  }

  function EducationPart(fmt: DateFormatter, c: Content): Section {
    Section(EducationSection, "Education", Entries(EducationBlocks(fmt, c.education)))
  }

  function SkillsPart(c: Content): Section {
    Section(SkillsSection, "Skills", Inline(Join(c.skills, SkillSeparator)))
  }

  /** The rendered document: a centred header with the name and plain-text
      contact rows, then exactly the visible sections in the order profile,
      experience, education, skills. */
  function Render(fmt: DateFormatter, c: Content): Document {
    SingleColumn(
      Header(c.personalInfo.name, ContactRows(c.personalInfo, false), true),
      When(Shown(c, SummarySection), SummaryPart(c)) + When(Shown(c, ExperienceSection), ExperiencePart(fmt, c)) +
      When(Shown(c, EducationSection), EducationPart(fmt, c)) + When(Shown(c, SkillsSection), SkillsPart(c)))
  }

  lemma RenderShape(fmt: DateFormatter, c: Content)
    ensures Render(fmt, c).SingleColumn?
    ensures Render(fmt, c).header == Header(c.personalInfo.name, ContactRows(c.personalInfo, false), true)
    ensures Kinds(Render(fmt, c).sections) == Visible(c, Order)
  {
    FourSections(c, SummaryPart(c), ExperiencePart(fmt, c), EducationPart(fmt, c), SkillsPart(c));
  }

  /** Two contents with the same name, contact rows, parts and visible
      sections render alike. */
  lemma RenderCongruence(fmt: DateFormatter, c1: Content, c2: Content)
    requires c1.personalInfo.name == c2.personalInfo.name
    requires ContactRows(c1.personalInfo, false) == ContactRows(c2.personalInfo, false)
    requires SummaryPart(c1) == SummaryPart(c2) && SkillsPart(c1) == SkillsPart(c2)
    requires ExperiencePart(fmt, c1) == ExperiencePart(fmt, c2) && EducationPart(fmt, c1) == EducationPart(fmt, c2)
    requires Shown(c1, SummarySection) == Shown(c2, SummarySection) && Shown(c1, SkillsSection) == Shown(c2, SkillsSection)
    requires Shown(c1, ExperienceSection) == Shown(c2, ExperienceSection)
    requires Shown(c1, EducationSection) == Shown(c2, EducationSection)
    ensures Render(fmt, c1) == Render(fmt, c2)
  {
  }

  /** What each section holds; the skills are a single string, which for a
      single skill is that skill with no separator. */
  lemma {:induction false} SectionContents(fmt: DateFormatter, c: Content)
    ensures Find(Render(fmt, c).sections, SummarySection)
         == if c.summary != "" then Some(Section(SummarySection, "Profile", Paragraph(c.summary))) else None
    ensures Find(Render(fmt, c).sections, SkillsSection)
         == if |c.skills| > 0 then Some(Section(SkillsSection, "Skills", Inline(Join(c.skills, SkillSeparator)))) else None
    ensures |c.skills| == 1 ==> SkillsPart(c).body.text == c.skills[0]
    ensures Find(Render(fmt, c).sections, ExperienceSection)
         == if |c.experience| > 0 then Some(ExperiencePart(fmt, c)) else None
    ensures Find(Render(fmt, c).sections, EducationSection)
         == if |c.education| > 0 then Some(EducationPart(fmt, c)) else None
    ensures |ExperiencePart(fmt, c).body.blocks| == |c.experience|
    ensures forall i :: 0 <= i < |c.experience| ==>
      ExperiencePart(fmt, c).body.blocks[i] == ExperienceBlock(fmt, c.experience[i])
    ensures |EducationPart(fmt, c).body.blocks| == |c.education|
    ensures forall i :: 0 <= i < |c.education| ==>
      EducationPart(fmt, c).body.blocks[i] == EducationBlock(fmt, c.education[i])
  {
    FindAmongFour(c, SummaryPart(c), ExperiencePart(fmt, c), EducationPart(fmt, c), SkillsPart(c));
  }

  /** Two skills are shown as one string with the separator between them. */
  lemma TwoSkillsLine(a: string, b: string)
    ensures Join([a, b], SkillSeparator) == a + " \U{00E2}\U{20AC}\U{00A2} " + b
  {
    assert [a, b][1..] == [b];
  }
  /** The stored end date of an entry marked current never reaches the page. */
  lemma {:induction false} IgnoresCurrentEndDates(fmt: DateFormatter, c1: Content, c2: Content)
    requires SameUpToCurrentEndDates(c1, c2)
    ensures Render(fmt, c1) == Render(fmt, c2)
  {
    ExperienceIgnoresCurrentEndDates(fmt, c1, c2);
    EducationIgnoresCurrentEndDates(fmt, c1, c2);
    RenderCongruence(fmt, c1, c2);
  }

  lemma {:induction false} ExperienceIgnoresCurrentEndDates(fmt: DateFormatter, c1: Content, c2: Content)
    requires SameUpToCurrentEndDates(c1, c2)
    ensures ExperiencePart(fmt, c1) == ExperiencePart(fmt, c2)
  {
    forall i | 0 <= i < |c1.experience|
      ensures ExperienceBlock(fmt, c1.experience[i]) == ExperienceBlock(fmt, c2.experience[i])
    {
      var e1, e2 := c1.experience[i], c2.experience[i];
      if e1 != e2 { CurrentHidesEndDate(fmt, e1.startDate, e1.endDate, e2.endDate); }
    }
    assert ExperienceBlocks(fmt, c1.experience) == ExperienceBlocks(fmt, c2.experience);
  }

  lemma {:induction false} EducationIgnoresCurrentEndDates(fmt: DateFormatter, c1: Content, c2: Content)
    requires SameUpToCurrentEndDates(c1, c2)
    ensures EducationPart(fmt, c1) == EducationPart(fmt, c2)
  {
    forall i | 0 <= i < |c1.education|
      ensures EducationBlock(fmt, c1.education[i]) == EducationBlock(fmt, c2.education[i])
    {
      var e1, e2 := c1.education[i], c2.education[i];
      if e1 != e2 { CurrentHidesEndDate(fmt, e1.startDate, e1.endDate, e2.endDate); }
    }
    assert EducationBlocks(fmt, c1.education) == EducationBlocks(fmt, c2.education);
  }

  /** The address and the website are never shown. */
  lemma {:induction false} IgnoresAddressAndWebsite(fmt: DateFormatter, c: Content, address: string, website: string)
    ensures Render(fmt, c.(personalInfo := c.personalInfo.(address := address, website := website)))
         == Render(fmt, c)
  {
    var c' := c.(personalInfo := c.personalInfo.(address := address, website := website));
    assert ContactRows(c'.personalInfo, false) == ContactRows(c.personalInfo, false);
    assert SkillsPart(c') == SkillsPart(c);
    assert EducationPart(fmt, c') == EducationPart(fmt, c);
    assert SummaryPart(c') == SummaryPart(c);
    assert ExperiencePart(fmt, c') == ExperiencePart(fmt, c);
    RenderCongruence(fmt, c', c);
  }
}
