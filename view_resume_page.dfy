/** The page of a shared resume. Only the name of the downloaded file is
    modelled: the page builds it with the same expression as the dashboard,
    written out a second time. */
module ViewResumePage {
  import opened Text
  import Dashboard

  /** `${resume.title.replace(/\s+/g, '_')}_resume.pdf` */
  function SharedFileName(title: string): (name: string)
    ensures |name| >= 11 && name[|name| - 11..] == "_resume.pdf"
  {
    UnderscoreWhitespace(title) + "_resume.pdf"
  }

  /** A shared resume downloads under the name the owner's dashboard gives it. */
  lemma SameNameAsDashboard(title: string)
    ensures SharedFileName(title) == Dashboard.DownloadFileName(title)
  {
  }

  /** No whitespace is left before the suffix, and a leading or trailing
      whitespace run of the title shows as a leading or trailing `_`. */
  lemma SharedFileNameShape(w: string, title: string)
    requires w != "" && AllWhitespace(w)
    requires title != "" && !IsWhitespace(title[0]) && !IsWhitespace(title[|title| - 1])
    ensures var name := SharedFileName(title); NoWhitespace(name[..|name| - 11])
    ensures SharedFileName(w + title)[0] == '_'
    ensures var name := SharedFileName(title + w); name[|name| - 12] == '_'
  {
    UnderscoreWhitespaceClean(title);
    LeadingRun(w, title);
    TrailingRun(title, w);
    var u := UnderscoreWhitespace(title);
    assert SharedFileName(title)[..|SharedFileName(title)| - 11] == u;
    assert SharedFileName(title + w) == u + "_" + "_resume.pdf";
  }
}
