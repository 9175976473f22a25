/** The "creative" layout: a sidebar with the name, the contact rows, the
    skills (each with a decorative bar) and the education entries, and a main
    region with the summary ("About Me") and the experience entries. */
module CreativeTemplate {
  import opened Wrappers
  import opened ResumeData
  import opened Layout

  const SidebarOrder := [SkillsSection, EducationSection]
  const MainOrder := [SummarySection, ExperienceSection]

  /** A value `Math.random()` can return. */
  type Unit = u: real | 0.0 <= u < 1.0

  /** `Math.floor(Math.random() * 30) + 70`: a whole percentage from 70 to 99. */
  function Fill(u: Unit): (percent: int)
    ensures 70 <= percent <= 99
  {
    (u * 30.0).Floor + 70
  }

  /** One bar per skill, in list order; `draw(i)` is the random value drawn
      for the i-th bar. */
  function SkillBars(skills: seq<string>, draw: nat -> Unit): (bars: seq<SkillBar>)
    ensures |bars| == |skills|
    ensures forall i :: 0 <= i < |skills| ==> bars[i].skill == skills[i] && 70 <= bars[i].fill <= 99
  {
    var bars := seq(|skills|, i requires 0 <= i < |skills| => SkillBar(skills[i], Fill(draw(i))));
    assert forall i :: 0 <= i < |skills| ==> bars[i] == SkillBar(skills[i], Fill(draw(i)));
    bars
  }

  /** "degree in field", institution, date range: in this layout the dates
      come last. */
  function EducationBlock(fmt: DateFormatter, e: Education): seq<Line> {
    [ Line(EntryTitle, DegreeLine(e.degree, e.field)),
      Line(Organisation, e.institution),
      Line(DateRangeLine, DateRange(fmt, e.startDate, e.endDate, e.current)) ]
  }

  /** Title, date range, "company, location", description. */
  function ExperienceBlock(fmt: DateFormatter, e: Experience): seq<Line> {
    [ Line(EntryTitle, e.title),
      Line(DateRangeLine, DateRange(fmt, e.startDate, e.endDate, e.current)),
      Line(Organisation, CompanyLine(e.company, e.location)),
      Line(Details, e.description) ]
  }

  function ExperienceBlocks(fmt: DateFormatter, es: seq<Experience>): seq<seq<Line>> {
    seq(|es|, i requires 0 <= i < |es| => ExperienceBlock(fmt, es[i]))
  }

  function EducationBlocks(fmt: DateFormatter, es: seq<Education>): seq<seq<Line>> {
    seq(|es|, i requires 0 <= i < |es| => EducationBlock(fmt, es[i]))
  }

  function SkillsPart(c: Content, draw: nat -> Unit): Section {
    Section(SkillsSection, "Skills", Bars(SkillBars(c.skills, draw)))
  }

  function EducationPart(fmt: DateFormatter, c: Content): Section {
    Section(EducationSection, "Education", Entries(EducationBlocks(fmt, c.education)))
  }

  function SummaryPart(c: Content): Section {
    Section(SummarySection, "About Me", Paragraph(c.summary))
  }

  function ExperiencePart(fmt: DateFormatter, c: Content): Section {
    Section(ExperienceSection, "Experience", Entries(ExperienceBlocks(fmt, c.experience)))
  }

  /** The rendered document: two regions; the sidebar starts with the name
      and the contact rows and then holds the visible ones of skills and
      education, in that order; the main region holds the visible ones of
      summary and experience, in that order. */
  function Render(fmt: DateFormatter, draw: nat -> Unit, c: Content): Document {
    TwoRegion(
      Header(c.personalInfo.name, ContactRows(c.personalInfo, true), false),
      When(Shown(c, SkillsSection), SkillsPart(c, draw)) + When(Shown(c, EducationSection), EducationPart(fmt, c)),
      When(Shown(c, SummarySection), SummaryPart(c)) + When(Shown(c, ExperienceSection), ExperiencePart(fmt, c)))
  }

  lemma RenderShape(fmt: DateFormatter, draw: nat -> Unit, c: Content)
    ensures Render(fmt, draw, c).TwoRegion?
    ensures Render(fmt, draw, c).header == Header(c.personalInfo.name, ContactRows(c.personalInfo, true), false)
    ensures Kinds(Render(fmt, draw, c).sidebar) == Visible(c, SidebarOrder)
    ensures Kinds(Render(fmt, draw, c).main) == Visible(c, MainOrder)
  {
    TwoSections(c, SkillsPart(c, draw), EducationPart(fmt, c));
    TwoSections(c, SummaryPart(c), ExperiencePart(fmt, c));
  }

  /** Two contents with the same name, contact rows, parts and visible
      sections render alike. */
  lemma RenderCongruence(fmt: DateFormatter, draw: nat -> Unit, c1: Content, c2: Content)
    requires c1.personalInfo.name == c2.personalInfo.name
    requires ContactRows(c1.personalInfo, true) == ContactRows(c2.personalInfo, true)
    requires SummaryPart(c1) == SummaryPart(c2) && SkillsPart(c1, draw) == SkillsPart(c2, draw)
    requires ExperiencePart(fmt, c1) == ExperiencePart(fmt, c2) && EducationPart(fmt, c1) == EducationPart(fmt, c2)
    requires Shown(c1, SummarySection) == Shown(c2, SummarySection) && Shown(c1, SkillsSection) == Shown(c2, SkillsSection)
    requires Shown(c1, ExperienceSection) == Shown(c2, ExperienceSection)
    requires Shown(c1, EducationSection) == Shown(c2, EducationSection)
    ensures Render(fmt, draw, c1) == Render(fmt, draw, c2)
  {
  }

  /** What each section holds: one bar per skill, one block per education
      and experience entry, in list order. */
  lemma {:induction false} SectionContents(fmt: DateFormatter, draw: nat -> Unit, c: Content)
    ensures Find(Render(fmt, draw, c).main, SummarySection)
         == if c.summary != "" then Some(Section(SummarySection, "About Me", Paragraph(c.summary))) else None
    ensures Find(Render(fmt, draw, c).main, ExperienceSection)
         == if |c.experience| > 0 then Some(ExperiencePart(fmt, c)) else None
    ensures Find(Render(fmt, draw, c).sidebar, SkillsSection)
         == if |c.skills| > 0 then Some(SkillsPart(c, draw)) else None
    ensures Find(Render(fmt, draw, c).sidebar, EducationSection)
         == if |c.education| > 0 then Some(EducationPart(fmt, c)) else None
    ensures |ExperiencePart(fmt, c).body.blocks| == |c.experience|
    ensures forall i :: 0 <= i < |c.experience| ==>
      ExperiencePart(fmt, c).body.blocks[i] == ExperienceBlock(fmt, c.experience[i])
    ensures |EducationPart(fmt, c).body.blocks| == |c.education|
    ensures forall i :: 0 <= i < |c.education| ==>
      EducationPart(fmt, c).body.blocks[i] == EducationBlock(fmt, c.education[i])
  {
    FindAmongTwo(c, SkillsPart(c, draw), EducationPart(fmt, c));
    FindAmongTwo(c, SummaryPart(c), ExperiencePart(fmt, c));
  }

  /** The random widths are the only thing two renderings of the same
      content can differ in. */
  lemma {:induction false} OnlyBarsAreRandom(fmt: DateFormatter, d1: nat -> Unit, d2: nat -> Unit, c: Content)
    ensures Undecorated(Render(fmt, d1, c)) == Undecorated(Render(fmt, d2, c))
  {
    var b1, b2 := SkillBars(c.skills, d1), SkillBars(c.skills, d2);
    assert PlainBody(Bars(b1)) == PlainBody(Bars(b2));
    assert PlainSections([SkillsPart(c, d1)]) == PlainSections([SkillsPart(c, d2)]);
    var e := When(Shown(c, EducationSection), EducationPart(fmt, c));
    var k1 := When(Shown(c, SkillsSection), SkillsPart(c, d1));
    var k2 := When(Shown(c, SkillsSection), SkillsPart(c, d2));
    PlainSectionsConcat(k1, e);
    PlainSectionsConcat(k2, e);
  }

  lemma PlainSectionsConcat(a: seq<Section>, b: seq<Section>)
    ensures PlainSections(a + b) == PlainSections(a) + PlainSections(b)
  {
  }
  /** The stored end date of an entry marked current never reaches the page. */
  lemma {:induction false} IgnoresCurrentEndDates(fmt: DateFormatter, draw: nat -> Unit, c1: Content, c2: Content)
    requires SameUpToCurrentEndDates(c1, c2)
    ensures Render(fmt, draw, c1) == Render(fmt, draw, c2)
  {
    ExperienceIgnoresCurrentEndDates(fmt, c1, c2);
    EducationIgnoresCurrentEndDates(fmt, c1, c2);
    RenderCongruence(fmt, draw, c1, c2);
  }

  lemma {:induction false} ExperienceIgnoresCurrentEndDates(fmt: DateFormatter, c1: Content, c2: Content)
    requires SameUpToCurrentEndDates(c1, c2)
    ensures ExperiencePart(fmt, c1) == ExperiencePart(fmt, c2)
  {
    forall i | 0 <= i < |c1.experience|
      ensures ExperienceBlock(fmt, c1.experience[i]) == ExperienceBlock(fmt, c2.experience[i])
    {
      var e1, e2 := c1.experience[i], c2.experience[i];
      if e1 != e2 { CurrentHidesEndDate(fmt, e1.startDate, e1.endDate, e2.endDate); }
    }
    assert ExperienceBlocks(fmt, c1.experience) == ExperienceBlocks(fmt, c2.experience);
  }

  lemma {:induction false} EducationIgnoresCurrentEndDates(fmt: DateFormatter, c1: Content, c2: Content)
    requires SameUpToCurrentEndDates(c1, c2)
    ensures EducationPart(fmt, c1) == EducationPart(fmt, c2)
  {
    forall i | 0 <= i < |c1.education|
      ensures EducationBlock(fmt, c1.education[i]) == EducationBlock(fmt, c2.education[i])
    {
      var e1, e2 := c1.education[i], c2.education[i];
      if e1 != e2 { CurrentHidesEndDate(fmt, e1.startDate, e1.endDate, e2.endDate); }
    }
    assert EducationBlocks(fmt, c1.education) == EducationBlocks(fmt, c2.education);
  }

  /** The address and the website are never shown. */
  lemma {:induction false} IgnoresAddressAndWebsite(fmt: DateFormatter, draw: nat -> Unit, c: Content, address: string, website: string)
    ensures Render(fmt, draw, c.(personalInfo := c.personalInfo.(address := address, website := website)))
         == Render(fmt, draw, c)
  {
    var c' := c.(personalInfo := c.personalInfo.(address := address, website := website));
    assert ContactRows(c'.personalInfo, true) == ContactRows(c.personalInfo, true);
    assert SkillsPart(c', draw) == SkillsPart(c, draw);
    assert EducationPart(fmt, c') == EducationPart(fmt, c);
    assert SummaryPart(c') == SummaryPart(c);
    assert ExperiencePart(fmt, c') == ExperiencePart(fmt, c);
    RenderCongruence(fmt, draw, c', c);
  }
}
