/** The preview component: it reads the tag `resumeData.template` and hands
    the whole `resumeData` to one of the three layouts; any tag other than
    "creative" and "minimal" (including a missing one) selects the
    professional layout. */
module ResumePreview {
  import opened Wrappers
  import opened ResumeData
  import opened Layout
  import ProfessionalTemplate
  import CreativeTemplate
  import MinimalTemplate

  datatype Template = Professional | Creative | Minimal

  /** The `switch (template)`; the `default` makes it total. */
  function Resolve(tag: TagValue): (t: Template)
    ensures t == Creative <==> tag == Str("creative")
    ensures t == Minimal <==> tag == Str("minimal")
    ensures t == Professional <==> tag != Str("creative") && tag != Str("minimal")
  {
    match tag
    case Str(s) => if s == "creative" then Creative else if s == "minimal" then Minimal else Professional
    case _ => Professional
  }

  /** The section kinds a layout can show, in reading order. */
  function OrderOf(t: Template): seq<SectionKind> {
    match t
    case Professional => ProfessionalTemplate.Order
    case Creative => CreativeTemplate.SidebarOrder + CreativeTemplate.MainOrder
    case Minimal => MinimalTemplate.Order
  }

  /** The rendered preview of a draft: the layout the tag selects. */
  function Preview(fmt: DateFormatter, draw: nat -> CreativeTemplate.Unit, d: Draft): Document {
    match Resolve(d.template)
    case Creative => CreativeTemplate.Render(fmt, draw, d.content)
    case Minimal => MinimalTemplate.Render(fmt, d.content)
    case Professional => ProfessionalTemplate.Render(fmt, d.content)
  }

  /** Whatever the tag, the header carries the name and the contact rows
      (plain text and centred only in the minimal layout), and the sections
      are the visible ones in the chosen layout's order; only the creative
      layout has two regions. */
  lemma PreviewShape(fmt: DateFormatter, draw: nat -> CreativeTemplate.Unit, d: Draft)
    ensures Preview(fmt, draw, d).TwoRegion? <==> Resolve(d.template) == Creative
    ensures Preview(fmt, draw, d).header == Header(d.content.personalInfo.name,
                                 ContactRows(d.content.personalInfo, Resolve(d.template) != Minimal),
                                 Resolve(d.template) == Minimal)
    ensures Kinds(AllSections(Preview(fmt, draw, d))) == Visible(d.content, OrderOf(Resolve(d.template)))
  {
    var c := d.content;
    match Resolve(d.template)
    case Creative =>
      var doc := CreativeTemplate.Render(fmt, draw, c);
      CreativeTemplate.RenderShape(fmt, draw, c);
      KindsConcat(doc.sidebar, doc.main);
      FilterConcat(CreativeTemplate.SidebarOrder, CreativeTemplate.MainOrder, ShownIn(c));
    case Minimal => MinimalTemplate.RenderShape(fmt, c);
    case Professional => ProfessionalTemplate.RenderShape(fmt, c);
  }

  /** The choice depends on the tag alone: neither the title nor the content
      has a say in which layout is used. */
  lemma SameTagSameLayout(fmt: DateFormatter, draw: nat -> CreativeTemplate.Unit, d1: Draft, d2: Draft)
    requires d1.template == d2.template
    ensures Preview(fmt, draw, d1).TwoRegion? == Preview(fmt, draw, d2).TwoRegion?
    ensures Preview(fmt, draw, d1).header.centered == Preview(fmt, draw, d2).header.centered
  {
    PreviewShape(fmt, draw, d1);
    PreviewShape(fmt, draw, d2);
  }

  /** The tags that select the professional layout. */
  lemma DefaultIsProfessional(s: string)
    requires s != "creative" && s != "minimal"
    ensures Resolve(Str(s)) == Professional
    ensures Resolve(Undefined) == Professional && Resolve(Null) == Professional
    ensures Resolve(NonString) == Professional
  {
  }

  /** Every layout shows a section exactly when the content has something
      for it: the summary when it is not empty, a list when it has an entry. */
  lemma {:induction false} SectionPresence(fmt: DateFormatter, draw: nat -> CreativeTemplate.Unit, d: Draft, kind: SectionKind)
    ensures kind in Kinds(AllSections(Preview(fmt, draw, d))) <==> Shown(d.content, kind)
  {
    var t := Resolve(d.template);
    assert kind in OrderOf(t) by {
      match t
      case Creative =>
        assert OrderOf(t) == [SkillsSection, EducationSection, SummarySection, ExperienceSection];
      case _ =>
        assert OrderOf(t) == [SummarySection, ExperienceSection, EducationSection, SkillsSection];
    }
    PreviewShape(fmt, draw, d);
    VisibleIff(d.content, OrderOf(t), kind);
  }

  /** An empty summary and an empty skill list leave no summary and no
      skills section in any layout. */
  lemma {:induction false} NoSummaryNoSkills(fmt: DateFormatter, draw: nat -> CreativeTemplate.Unit, d: Draft)
    requires d.content.summary == "" && d.content.skills == []
    ensures SummarySection !in Kinds(AllSections(Preview(fmt, draw, d)))
    ensures SkillsSection !in Kinds(AllSections(Preview(fmt, draw, d)))
  {
    SectionPresence(fmt, draw, d, SummarySection);
    SectionPresence(fmt, draw, d, SkillsSection);
  }

  /** The address and the website are stored but no layout shows them. */
  lemma {:induction false} AddressAndWebsiteNeverShown(fmt: DateFormatter, draw: nat -> CreativeTemplate.Unit, d: Draft,
                                                      address: string, website: string)
    ensures var pi := d.content.personalInfo.(address := address, website := website);
      Preview(fmt, draw, d.(content := d.content.(personalInfo := pi))) == Preview(fmt, draw, d)
  {
    var c := d.content;
    match Resolve(d.template)
    case Creative => CreativeTemplate.IgnoresAddressAndWebsite(fmt, draw, c, address, website);
    case Minimal => MinimalTemplate.IgnoresAddressAndWebsite(fmt, c, address, website);
    case Professional => ProfessionalTemplate.IgnoresAddressAndWebsite(fmt, c, address, website);
  }

  /** In every layout, the stored end date of an entry marked current has no
      influence on the page. */
  lemma {:induction false} CurrentEndDatesNeverShown(fmt: DateFormatter, draw: nat -> CreativeTemplate.Unit,
                                                     d1: Draft, d2: Draft)
    requires d1.template == d2.template
    requires SameUpToCurrentEndDates(d1.content, d2.content)
    ensures Preview(fmt, draw, d1) == Preview(fmt, draw, d2)
  {
    match Resolve(d1.template)
    case Creative => CreativeTemplate.IgnoresCurrentEndDates(fmt, draw, d1.content, d2.content);
    case Minimal => MinimalTemplate.IgnoresCurrentEndDates(fmt, d1.content, d2.content);
    case Professional => ProfessionalTemplate.IgnoresCurrentEndDates(fmt, d1.content, d2.content);
  }

  /** A minimal-layout draft holding nothing but a name renders as a centred
      header with that name and nothing else. */
  lemma NameOnlyMinimal(fmt: DateFormatter, draw: nat -> CreativeTemplate.Unit)
    ensures var c := Content(BlankPersonalInfo.(name := "Ada Lovelace"), "", [], [], []);
      Preview(fmt, draw, Draft("Ada", Str("minimal"), c))
        == SingleColumn(Header("Ada Lovelace", [], true), [])
  {
  }

  /** The experience section of `doc` holds one block, and that block has the
      date-range line `range`. */
  predicate OneEntryWithRange(doc: Document, range: string) {
    var s := Find(AllSections(doc), ExperienceSection);
    && s.Some? && s.value.body.Entries? && |s.value.body.blocks| == 1
    && Line(DateRangeLine, range) in s.value.body.blocks[0]
  }

  /** A current experience entry that starts on a date the formatter shows as
      "Jan 2022" reads "Jan 2022 - Present" in each of the three layouts. */
  lemma {:induction false} CurrentEntryReadsPresent(fmt: DateFormatter, draw: nat -> CreativeTemplate.Unit,
                                                    d: Draft, e: Experience)
    requires fmt("2022-01-01") == "Jan 2022"
    requires e.startDate == "2022-01-01" && e.current
    requires d.content.experience == [e]
    ensures OneEntryWithRange(Preview(fmt, draw, d), "Jan 2022 - Present")
  {
    assert DateRange(fmt, e.startDate, e.endDate, e.current) == "Jan 2022 - Present";
    match Resolve(d.template)
    case Creative => CreativeEntryRange(fmt, draw, d.content, e);
    case Minimal => MinimalEntryRange(fmt, d.content, e);
    case Professional => ProfessionalEntryRange(fmt, d.content, e);
  }

  lemma CreativeEntryRange(fmt: DateFormatter, draw: nat -> CreativeTemplate.Unit, c: Content, e: Experience)
    requires c.experience == [e]
    ensures OneEntryWithRange(CreativeTemplate.Render(fmt, draw, c), DateRange(fmt, e.startDate, e.endDate, e.current))
  {
    CreativeTemplate.SectionContents(fmt, draw, c);
    CreativeTemplate.RenderShape(fmt, draw, c);
    var doc := CreativeTemplate.Render(fmt, draw, c);
    assert Find(doc.sidebar, ExperienceSection) == None by {
      VisibleIff(c, CreativeTemplate.SidebarOrder, ExperienceSection);
      FindMissing(doc.sidebar, ExperienceSection);
    }
    FindConcat(doc.sidebar, doc.main, ExperienceSection);
    assert CreativeTemplate.ExperienceBlock(fmt, e)[1] == Line(DateRangeLine, DateRange(fmt, e.startDate, e.endDate, e.current));
  }

  lemma MinimalEntryRange(fmt: DateFormatter, c: Content, e: Experience)
    requires c.experience == [e]
    ensures OneEntryWithRange(MinimalTemplate.Render(fmt, c), DateRange(fmt, e.startDate, e.endDate, e.current))
  {
    MinimalTemplate.SectionContents(fmt, c);
    assert MinimalTemplate.ExperienceBlock(fmt, e)[1] == Line(DateRangeLine, DateRange(fmt, e.startDate, e.endDate, e.current));
  }

  lemma ProfessionalEntryRange(fmt: DateFormatter, c: Content, e: Experience)
    requires c.experience == [e]
    ensures OneEntryWithRange(ProfessionalTemplate.Render(fmt, c), DateRange(fmt, e.startDate, e.endDate, e.current))
  {
    ProfessionalTemplate.SectionContents(fmt, c);
    assert ProfessionalTemplate.ExperienceBlock(fmt, e)[1] == Line(DateRangeLine, DateRange(fmt, e.startDate, e.endDate, e.current));
  }
}
