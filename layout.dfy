/** The visual document the three templates produce, and the pieces of it
    that all three build in the same way: the contact rows, the date range
    of an entry and the composed "company, location" and "degree in field"
    lines. */
module Layout {
  import opened Wrappers
  import opened ResumeData

  /** `new Date(d).toLocaleDateString('en-US', { year: 'numeric', month: 'short' })`:
      locale and time-zone dependent, so it is a parameter of every template. */
  type DateFormatter = string -> string

  datatype ContactKind = EmailRow | PhoneRow | LinkedInRow
  datatype ContactRow = ContactRow(kind: ContactKind, text: string, icon: bool)
  datatype Header = Header(name: string, contacts: seq<ContactRow>, centered: bool)

  /** The role a line plays inside one experience or education block. */
  datatype Role = EntryTitle | DateRangeLine | Organisation | Details
  datatype Line = Line(role: Role, text: string)

  /** A skill with the width, in percent, of its decorative bar. */
  datatype SkillBar = SkillBar(skill: string, fill: int)

  datatype Body =
    | Paragraph(text: string)
    | Entries(blocks: seq<seq<Line>>)
    | Chips(chips: seq<string>)
    | Bars(bars: seq<SkillBar>)
    | Inline(text: string)

  datatype SectionKind = SummarySection | ExperienceSection | EducationSection | SkillsSection
  datatype Section = Section(kind: SectionKind, heading: string, body: Body)

  /** A page: one column of sections under a header, or two regions side by
      side, where the header (name and contact rows) heads the sidebar
      column, above its sections, and the main column holds the rest. */
  datatype Document =
    | SingleColumn(header: Header, sections: seq<Section>)
    | TwoRegion(header: Header, sidebar: seq<Section>, main: seq<Section>)

  /** Which personal-information field a contact row shows. */
  function ContactText(info: PersonalInfo, kind: ContactKind): string {
    match kind
    case EmailRow => info.email
    case PhoneRow => info.phone
    case LinkedInRow => info.linkedin
  }

  function Rank(kind: ContactKind): nat {
    match kind
    case EmailRow => 0
    case PhoneRow => 1
    case LinkedInRow => 2
  }

  predicate HasRow(rows: seq<ContactRow>, kind: ContactKind) {
    exists i :: 0 <= i < |rows| && rows[i].kind == kind
  }

  /** The `{personalInfo.x && (...)}` rows: email, phone and LinkedIn, each
      one present when its field is not empty. */
  function ContactRows(info: PersonalInfo, icon: bool): seq<ContactRow> {
    RowIf(info, EmailRow, icon) + RowIf(info, PhoneRow, icon) + RowIf(info, LinkedInRow, icon)
  }

  function RowIf(info: PersonalInfo, kind: ContactKind, icon: bool): seq<ContactRow> {
    if ContactText(info, kind) != "" then [ContactRow(kind, ContactText(info, kind), icon)] else []
  }

  /** A contact row is present exactly when its field is not empty. */
  lemma ContactRowsPresent(info: PersonalInfo, icon: bool, kind: ContactKind)
    ensures HasRow(ContactRows(info, icon), kind) <==> ContactText(info, kind) != ""
  {
    var e, p, l := RowIf(info, EmailRow, icon), RowIf(info, PhoneRow, icon), RowIf(info, LinkedInRow, icon);
    var rows := e + p + l;
    if ContactText(info, kind) != "" {
      match kind
      case EmailRow => assert rows[0].kind == kind;
      case PhoneRow => assert rows[|e|].kind == kind;
      case LinkedInRow => assert rows[|e| + |p|].kind == kind;
    }
  }

  /** Every contact row shows the field of its kind, with the template's icon setting. */
  lemma ContactRowsShowField(info: PersonalInfo, icon: bool)
    ensures var rows := ContactRows(info, icon);
      forall i :: 0 <= i < |rows| ==> rows[i].text == ContactText(info, rows[i].kind) && rows[i].icon == icon
  {
  }

  /** The contact rows come in the order email, phone, LinkedIn. */
  lemma ContactRowsOrdered(info: PersonalInfo, icon: bool)
    ensures var rows := ContactRows(info, icon);
      forall i, j :: 0 <= i < j < |rows| ==> Rank(rows[i].kind) < Rank(rows[j].kind)
  {
  }

  /** `{d && new Date(d).toLocaleDateString(...)}`: an empty date shows nothing. */
  function DateText(fmt: DateFormatter, d: string): (r: string)
    ensures d == "" ==> r == ""
  {
    if d == "" then "" else fmt(d)
  }

  /** The date range of one entry. JSX keeps the text " -" between the two
      expressions (the space after the dash ends its line and is dropped), so
      a current entry reads "Jan 2022 - Present" and a finished one
      "Jan 2022 -Dec 2023". */
  function DateRange(fmt: DateFormatter, start: string, end: string, current: bool): (r: string)
    ensures current ==> r == DateText(fmt, start) + " - Present"
    ensures !current ==> r == DateText(fmt, start) + " -" + DateText(fmt, end)
  {
    DateText(fmt, start) + " -" + (if current then " Present" else DateText(fmt, end))
  }

  /** A current entry's stored end date has no influence on its range. */
  lemma CurrentHidesEndDate(fmt: DateFormatter, start: string, end1: string, end2: string)
    ensures DateRange(fmt, start, end1, true) == DateRange(fmt, start, end2, true)
  {
  }

  /** The formatter is consulted only on non-empty dates, and the end date
      only when the entry is not current. */
  lemma FormatterOnlySeesShownDates(f: DateFormatter, g: DateFormatter,
                                    start: string, end: string, current: bool)
    requires start != "" ==> f(start) == g(start)
    requires !current && end != "" ==> f(end) == g(end)
    ensures DateRange(f, start, end, current) == DateRange(g, start, end, current)
  {
  }

  /** `{exp.company}{exp.location ? `, ${exp.location}` : ''}` */
  function CompanyLine(company: string, location: string): (r: string)
    ensures location == "" ==> r == company
    ensures location != "" ==> r == company + ", " + location
  {
    company + (if location != "" then ", " + location else "")
  }

  /** `{edu.degree}{edu.field ? ` in ${edu.field}` : ''}` */
  function DegreeLine(degree: string, field: string): (r: string)
    ensures field == "" ==> r == degree
    ensures field != "" ==> r == degree + " in " + field
  {
    degree + (if field != "" then " in " + field else "")
  }

  /** Whether a section is rendered at all: the summary when it is not empty,
      each list when it has an element (a list holding one empty skill counts). */
  predicate Shown(c: Content, kind: SectionKind) {
    match kind
    case SummarySection => c.summary != ""
    case ExperienceSection => |c.experience| > 0
    case EducationSection => |c.education| > 0
    case SkillsSection => |c.skills| > 0
  }

  function Kinds(sections: seq<Section>): (r: seq<SectionKind>)
    ensures |r| == |sections|
  {
    if sections == [] then [] else [sections[0].kind] + Kinds(sections[1..])
  }

  lemma {:induction false} KindsConcat(a: seq<Section>, b: seq<Section>)
    ensures Kinds(a + b) == Kinds(a) + Kinds(b)
  {
    if a == [] {
      assert a + b == b;
    } else {
      assert (a + b)[0] == a[0];
      assert (a + b)[1..] == a[1..] + b;
      KindsConcat(a[1..], b);
    }
  }

  /** The kinds, in the given order, that the content makes visible. */
  function Visible(c: Content, order: seq<SectionKind>): seq<SectionKind> {
    Filter(order, ShownIn(c))
  }

  function ShownIn(c: Content): SectionKind -> bool {
    k => Shown(c, k)
  }

  /** The section of a kind, if the list has one. */
  function Find(sections: seq<Section>, kind: SectionKind): Option<Section> {
    if sections == [] then None
    else if sections[0].kind == kind then Some(sections[0])
    else Find(sections[1..], kind)
  }

  /** `{cond && <section>...</section>}` */
  function When(cond: bool, s: Section): (r: seq<Section>)
    ensures cond ==> r == [s]
    ensures !cond ==> r == []
  {
    if cond then [s] else []
  }

  /** Two contents that differ at most in the stored end dates of entries
      that are marked current. */
  predicate SameUpToCurrentEndDates(c1: Content, c2: Content) {
    && c1.personalInfo == c2.personalInfo
    && c1.summary == c2.summary
    && c1.skills == c2.skills
    && |c1.experience| == |c2.experience|
    && (forall i :: 0 <= i < |c1.experience| ==>
          c1.experience[i] == c2.experience[i] ||
          (c1.experience[i].current && c1.experience[i].(endDate := c2.experience[i].endDate) == c2.experience[i]))
    && |c1.education| == |c2.education|
    && (forall i :: 0 <= i < |c1.education| ==>
          c1.education[i] == c2.education[i] ||
          (c1.education[i].current && c1.education[i].(endDate := c2.education[i].endDate) == c2.education[i]))
  }

  /** Presence and order of conditional sections: keeping, out of four
      candidate sections, those whose kind the content shows, lists exactly
      the visible kinds in the candidates' order. */
  lemma FourSections(c: Content, s1: Section, s2: Section, s3: Section, s4: Section)
    ensures Kinds(When(Shown(c, s1.kind), s1) + When(Shown(c, s2.kind), s2) +
                  When(Shown(c, s3.kind), s3) + When(Shown(c, s4.kind), s4))
         == Visible(c, [s1.kind, s2.kind, s3.kind, s4.kind])
  {
    var p := ShownIn(c);
    assert p(s1.kind) == Shown(c, s1.kind) && p(s2.kind) == Shown(c, s2.kind);
    assert p(s3.kind) == Shown(c, s3.kind) && p(s4.kind) == Shown(c, s4.kind);
    KeptFour(p, s1, s2, s3, s4);
  }

  /** The same for a region of two conditional sections. */
  lemma TwoSections(c: Content, s1: Section, s2: Section)
    ensures Kinds(When(Shown(c, s1.kind), s1) + When(Shown(c, s2.kind), s2))
         == Visible(c, [s1.kind, s2.kind])
  {
    var p := ShownIn(c);
    assert p(s1.kind) == Shown(c, s1.kind) && p(s2.kind) == Shown(c, s2.kind);
    KeptTwo(p, s1, s2);
  }

  /** Keeping the sections whose kind satisfies `p` keeps their kinds in order. */
  lemma {:induction false} KeptFour(p: SectionKind -> bool, s1: Section, s2: Section, s3: Section, s4: Section)
    ensures Kinds(When(p(s1.kind), s1) + When(p(s2.kind), s2) + When(p(s3.kind), s3) + When(p(s4.kind), s4))
         == Filter([s1.kind, s2.kind, s3.kind, s4.kind], p)
  {
    var w1, w2, w3, w4 := When(p(s1.kind), s1), When(p(s2.kind), s2), When(p(s3.kind), s3), When(p(s4.kind), s4);
    assert w1 + w2 + w3 + w4 == (w1 + w2) + (w3 + w4);
    assert [s1.kind, s2.kind, s3.kind, s4.kind] == [s1.kind, s2.kind] + [s3.kind, s4.kind];
    calc {
      Kinds((w1 + w2) + (w3 + w4));
      { KindsConcat(w1 + w2, w3 + w4); }
      Kinds(w1 + w2) + Kinds(w3 + w4);
      { KeptTwo(p, s1, s2); KeptTwo(p, s3, s4); }
      Filter([s1.kind, s2.kind], p) + Filter([s3.kind, s4.kind], p);
      { FilterConcat([s1.kind, s2.kind], [s3.kind, s4.kind], p); }
      Filter([s1.kind, s2.kind] + [s3.kind, s4.kind], p);
    }
  }

  lemma {:induction false} KeptTwo(p: SectionKind -> bool, s1: Section, s2: Section)
    ensures Kinds(When(p(s1.kind), s1) + When(p(s2.kind), s2)) == Filter([s1.kind, s2.kind], p)
  {
    KindsConcat(When(p(s1.kind), s1), When(p(s2.kind), s2));
    assert [s1.kind, s2.kind] == [s1.kind] + [s2.kind];
    FilterConcat([s1.kind], [s2.kind], p);
    FilterSingleton(s1.kind, p);
    FilterSingleton(s2.kind, p);
  }

  /** A kind is visible exactly when the content shows it and the order lists it. */
  lemma VisibleIff(c: Content, order: seq<SectionKind>, kind: SectionKind)
    ensures kind in Visible(c, order) <==> kind in order && Shown(c, kind)
  {
    FilterIn(order, ShownIn(c), kind);
  }

  /** Every section the document holds, regions in reading order. */
  function AllSections(doc: Document): seq<Section> {
    match doc
    case SingleColumn(_, sections) => sections
    case TwoRegion(_, sidebar, main) => sidebar + main
  }

  /** The document with every skill bar's width set to zero: what is left
      when the decorative value is ignored. */
  function Undecorated(doc: Document): Document {
    match doc
    case SingleColumn(h, sections) => SingleColumn(h, PlainSections(sections))
    case TwoRegion(h, sidebar, main) => TwoRegion(h, PlainSections(sidebar), PlainSections(main))
  }

  function PlainSections(sections: seq<Section>): seq<Section> {
    seq(|sections|, i requires 0 <= i < |sections| => sections[i].(body := PlainBody(sections[i].body)))
  }

  function PlainBody(b: Body): Body {
    match b
    case Bars(bars) => Bars(seq(|bars|, i requires 0 <= i < |bars| => SkillBar(bars[i].skill, 0)))
    case _ => b
  }

  lemma {:induction false} FindConcat(a: seq<Section>, b: seq<Section>, kind: SectionKind)
    ensures Find(a + b, kind) == if Find(a, kind).Some? then Find(a, kind) else Find(b, kind)
  {
    if a != [] {
      assert (a + b)[0] == a[0];
      assert (a + b)[1..] == a[1..] + b;
      FindConcat(a[1..], b, kind);
    } else {
      assert a + b == b;
    }
  }

  /** Looking up a section among four conditional sections of distinct kinds
      finds it exactly when the content shows it. */
  lemma {:induction false} FindAmongFour(c: Content, s1: Section, s2: Section, s3: Section, s4: Section)
    requires s1.kind != s2.kind && s1.kind != s3.kind && s1.kind != s4.kind
    requires s2.kind != s3.kind && s2.kind != s4.kind && s3.kind != s4.kind
    ensures var all := When(Shown(c, s1.kind), s1) + When(Shown(c, s2.kind), s2) +
                       When(Shown(c, s3.kind), s3) + When(Shown(c, s4.kind), s4);
      && Find(all, s1.kind) == (if Shown(c, s1.kind) then Some(s1) else None)
      && Find(all, s2.kind) == (if Shown(c, s2.kind) then Some(s2) else None)
      && Find(all, s3.kind) == (if Shown(c, s3.kind) then Some(s3) else None)
      && Find(all, s4.kind) == (if Shown(c, s4.kind) then Some(s4) else None)
  {
    var w1, w2, w3, w4 := When(Shown(c, s1.kind), s1), When(Shown(c, s2.kind), s2),
                          When(Shown(c, s3.kind), s3), When(Shown(c, s4.kind), s4);
    FindInFour(w1, w2, w3, w4, s1.kind);
    FindInFour(w1, w2, w3, w4, s2.kind);
    FindInFour(w1, w2, w3, w4, s3.kind);
    FindInFour(w1, w2, w3, w4, s4.kind);
  }

  lemma FindInFour(w1: seq<Section>, w2: seq<Section>, w3: seq<Section>, w4: seq<Section>, k: SectionKind)
    ensures Find(w1 + w2 + w3 + w4, k) ==
      if Find(w1, k).Some? then Find(w1, k) else if Find(w2, k).Some? then Find(w2, k)
      else if Find(w3, k).Some? then Find(w3, k) else Find(w4, k)
  {
    FindConcat(w1 + w2 + w3, w4, k);
    FindConcat(w1 + w2, w3, k);
    FindConcat(w1, w2, k);
  }

  /** The same for a region of two conditional sections of distinct kinds. */
  lemma {:induction false} FindAmongTwo(c: Content, s1: Section, s2: Section)
    requires s1.kind != s2.kind
    ensures var all := When(Shown(c, s1.kind), s1) + When(Shown(c, s2.kind), s2);
      && Find(all, s1.kind) == (if Shown(c, s1.kind) then Some(s1) else None)
      && Find(all, s2.kind) == (if Shown(c, s2.kind) then Some(s2) else None)
  {
    FindConcat(When(Shown(c, s1.kind), s1), When(Shown(c, s2.kind), s2), s1.kind);
    FindConcat(When(Shown(c, s1.kind), s1), When(Shown(c, s2.kind), s2), s2.kind);
  }
  /** A kind the list does not hold is not found. */
  lemma {:induction false} FindMissing(sections: seq<Section>, kind: SectionKind)
    requires kind !in Kinds(sections)
    ensures Find(sections, kind) == None
  {
    if sections != [] {
      assert Kinds(sections)[1..] == Kinds(sections[1..]);
      FindMissing(sections[1..], kind);
    }
  }
}
