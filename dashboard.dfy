/** The dashboard: the list of the user's resumes with a badge per template,
    the "all" and "recent" tabs, and the delete, download and share actions.
    The requests themselves are outside the model; each handler is split at
    its `await` into the state change before it and the one after it, and
    the outcome of the request is a parameter. */
module Dashboard {
  import opened Wrappers
  import opened Text
  import opened ResumeData
  import ResumePreview

  /** One resume as the dashboard endpoint lists it. */
  datatype ListedResume = ListedResume(id: string, title: string, template: TagValue, updatedAt: string)

  /** `getTemplateColor`: the Tailwind classes of the template badge. */
  function TemplateColor(template: TagValue): (classes: string)
    ensures template == Str("professional") ==> classes == "bg-blue-100 text-blue-800"
    ensures template == Str("creative") ==> classes == "bg-purple-100 text-purple-800"
    ensures template == Str("minimal") ==> classes == "bg-green-100 text-green-800"
    ensures template != Str("professional") && template != Str("creative") && template != Str("minimal") ==>
      classes == "bg-gray-100 text-gray-800"
  {
    match template
    case Str(s) =>
      if s == "professional" then "bg-blue-100 text-blue-800"
      else if s == "creative" then "bg-purple-100 text-purple-800"
      else if s == "minimal" then "bg-green-100 text-green-800"
      else "bg-gray-100 text-gray-800"
    case _ => "bg-gray-100 text-gray-800"
  }

  /** The grey badge marks exactly the tags that the preview renders with the
      professional layout without naming it: the tags it falls back on. */
  lemma GreyBadgeIsFallback(template: TagValue)
    ensures TemplateColor(template) == "bg-gray-100 text-gray-800"
        <==> ResumePreview.Resolve(template) == ResumePreview.Professional && template != Str("professional")
  {
  }

  /** `${title.replace(/\s+/g, '_')}_resume.pdf` */
  function DownloadFileName(title: string): (name: string)
    ensures |name| >= 11 && name[|name| - 11..] == "_resume.pdf"
  {
    UnderscoreWhitespace(title) + "_resume.pdf"
  }

  /** What comes before the suffix holds no whitespace at all. */
  lemma FileNameWithoutWhitespace(title: string)
    ensures var name := DownloadFileName(title); NoWhitespace(name[..|name| - 11])
  {
    var name := DownloadFileName(title);
    assert name[..|name| - 11] == UnderscoreWhitespace(title);
    UnderscoreWhitespaceClean(title);
  }

  /** A title without whitespace is kept as it is. */
  lemma FileNameKeepsPlainTitle(title: string)
    requires NoWhitespace(title)
    ensures DownloadFileName(title) == title + "_resume.pdf"
  {
    UnderscoreWhitespaceFree(title);
  }

  /** Each whitespace run between two words becomes one underscore: the
      title "Senior  Backend   Engineer" is saved as
      "Senior_Backend_Engineer_resume.pdf". */
  lemma FileNameOfSpacedTitle(a: string, b: string, c: string)
    requires a == "Senior" && b == "Backend" && c == "Engineer"
    ensures DownloadFileName(a + "  " + b + "   " + c) == a + "_" + b + "_" + c + "_resume.pdf"
  {
    PlainWords(a, b, c);
    assert AllWhitespace("  ") && AllWhitespace("   ");
    TwoRuns(a, "  ", b, "   ", c);
  }

  lemma PlainWords(a: string, b: string, c: string)
    requires a == "Senior" && b == "Backend" && c == "Engineer"
    ensures NoWhitespace(a) && NoWhitespace(b) && NoWhitespace(c)
  {
  }

  /** Two runs between three words without whitespace. */
  lemma TwoRuns(a: string, w1: string, b: string, w2: string, c: string)
    requires a != "" && b != "" && c != ""
    requires NoWhitespace(a) && NoWhitespace(b) && NoWhitespace(c)
    requires w1 != "" && AllWhitespace(w1) && w2 != "" && AllWhitespace(w2)
    ensures UnderscoreWhitespace(a + w1 + b + w2 + c) == a + "_" + b + "_" + c
  {
    var rest := b + w2 + c;
    assert rest[0] == b[0];
    assert a + w1 + b + w2 + c == a + w1 + rest;
    WhitespaceRunBetween(a, w1, rest);
    WhitespaceRunBetween(b, w2, c);
    UnderscoreWhitespaceFree(a);
    UnderscoreWhitespaceFree(b);
    UnderscoreWhitespaceFree(c);
  }

  /** A leading or trailing whitespace run becomes a leading or trailing
      underscore: the title is not trimmed first. */
  lemma FileNameKeepsOuterRuns(w: string, title: string)
    requires w != "" && AllWhitespace(w)
    requires title != "" && !IsWhitespace(title[0]) && !IsWhitespace(title[|title| - 1])
    ensures DownloadFileName(w + title) == "_" + UnderscoreWhitespace(title) + "_resume.pdf"
    ensures DownloadFileName(title + w) == UnderscoreWhitespace(title) + "__resume.pdf"
  {
    LeadingRun(w, title);
    TrailingRun(title, w);
    assert UnderscoreWhitespace(title) + "_" + "_resume.pdf" == UnderscoreWhitespace(title) + "__resume.pdf";
  }

  /** `resumes.filter(resume => resume._id !== id)` */
  function WithoutResume(resumes: seq<ListedResume>, id: string): seq<ListedResume> {
    Filter(resumes, OtherThan(id))
  }

  function OtherThan(id: string): ListedResume -> bool {
    (r: ListedResume) => r.id != id
  }

  /** Deleting removes every resume with that id, keeps every other one with
      all its occurrences, and keeps their order. */
  lemma DeleteRemovesExactly(resumes: seq<ListedResume>, id: string, r: ListedResume)
    ensures r in WithoutResume(resumes, id) <==> r in resumes && r.id != id
    ensures r.id != id ==> multiset(WithoutResume(resumes, id))[r] == multiset(resumes)[r]
    ensures Subsequence(WithoutResume(resumes, id), resumes)
  {
    FilterIn(resumes, OtherThan(id), r);
    FilterCounts(resumes, OtherThan(id), r);
    FilterSubsequence(resumes, OtherThan(id));
  }

  /** Deleting an id no listed resume has changes nothing. */
  lemma DeleteUnknownId(resumes: seq<ListedResume>, id: string)
    requires forall i :: 0 <= i < |resumes| ==> resumes[i].id != id
    ensures WithoutResume(resumes, id) == resumes
  {
    FilterAll(resumes, OtherThan(id));
  }

  /** `new Date(updatedAt)` as a time value, `None` for an invalid date; and
      `updatedDate > oneWeekAgo`, which is false for an invalid date. */
  type DateParser = string -> Option<int>

  predicate UpdatedAfter(parse: DateParser, cutoff: int, r: ListedResume) {
    parse(r.updatedAt).Some? && parse(r.updatedAt).value > cutoff
  }

  function UpdatedSince(parse: DateParser, cutoff: int): ListedResume -> bool {
    (r: ListedResume) => UpdatedAfter(parse, cutoff, r)
  }

  /** `recentResumes`, with `cutoff` the time value of now minus seven days. */
  function RecentResumes(resumes: seq<ListedResume>, parse: DateParser, cutoff: int): seq<ListedResume> {
    Filter(resumes, UpdatedSince(parse, cutoff))
  }

  /** The recent resumes are the listed ones updated after the cutoff, in the
      list's order. */
  lemma RecentAreUpdatedAfterCutoff(resumes: seq<ListedResume>, parse: DateParser, cutoff: int, r: ListedResume)
    ensures r in RecentResumes(resumes, parse, cutoff) <==> r in resumes && UpdatedAfter(parse, cutoff, r)
    ensures Subsequence(RecentResumes(resumes, parse, cutoff), resumes)
    ensures |RecentResumes(resumes, parse, cutoff)| <= |resumes|
  {
    FilterIn(resumes, UpdatedSince(parse, cutoff), r);
    FilterSubsequence(resumes, UpdatedSince(parse, cutoff));
  }

  /** What the page shows once loaded: the two tab counts, an error banner,
      and either the empty-state panel or the cards of the active tab. */
  datatype Screen =
    | Loading
    | Loaded(allCount: nat, recentCount: nat, banner: Option<string>, emptyPanel: bool, cards: seq<ListedResume>)

  function ScreenOf(resumes: seq<ListedResume>, loading: bool, error: Option<string>, activeTab: string,
                    parse: DateParser, cutoff: int): Screen
  {
    var recent := RecentResumes(resumes, parse, cutoff);
    if loading then Loading
    else Loaded(|resumes|, |recent|, error, |resumes| == 0,
                if |resumes| == 0 then [] else if activeTab == "all" then resumes else recent)
  }

  /** Once loaded, the empty-state panel is shown exactly when there is no
      resume, whatever the tab; the "all" tab lists every resume, any other
      tab the recent ones; the counts are the lengths of the two lists. */
  lemma ScreenShowsTabs(resumes: seq<ListedResume>, error: Option<string>, activeTab: string,
                        parse: DateParser, cutoff: int)
    ensures var s := ScreenOf(resumes, false, error, activeTab, parse, cutoff);
      && s.Loaded?
      && (s.emptyPanel <==> resumes == [])
      && s.allCount == |resumes| && s.recentCount == |RecentResumes(resumes, parse, cutoff)|
      && s.recentCount <= s.allCount
      && (resumes != [] && activeTab == "all" ==> s.cards == resumes)
      && (resumes != [] && activeTab != "all" ==> s.cards == RecentResumes(resumes, parse, cutoff))
      && Subsequence(s.cards, resumes)
  {
    FilterSubsequence(resumes, UpdatedSince(parse, cutoff));
    SubsequenceRefl(resumes);
  }

  lemma {:induction false} SubsequenceRefl<T>(s: seq<T>)
    ensures Subsequence(s, s)
  {
    if s != [] { SubsequenceRefl(s[1..]); }
  }

  const LoadFailed := "Failed to load your resumes"
  const DeleteFailed := "Failed to delete resume"
  const DownloadFailed := "Failed to download resume"

  /** The page's state. */
  class DashboardPage {
    var resumes: seq<ListedResume>
    var loading: bool
    var error: Option<string>
    var activeTab: string
    var shareModalOpen: bool
    var currentResumeId: Option<string>
    var shareLink: string
    var shareLoading: bool

    constructor()
      ensures resumes == [] && loading && error == None && activeTab == "all"
      ensures !shareModalOpen && currentResumeId == None && shareLink == "" && !shareLoading
    {
      resumes := [];
      loading := true;
      error := None;
      activeTab := "all";
      shareModalOpen := false;
      currentResumeId := None;
      shareLink := "";
      shareLoading := false;
    }

    function Screen(parse: DateParser, cutoff: int): Screen
      reads this
    {
      ScreenOf(resumes, loading, error, activeTab, parse, cutoff)
    }

    /** `fetchResumes` succeeded with the given list. */
    method FetchSucceeded(list: seq<ListedResume>)
      modifies this`resumes, this`loading
      ensures resumes == list && !loading
    {
      resumes := list;
      loading := false;
    }

    /** `fetchResumes` failed. */
    method FetchFailed()
      modifies this`error, this`loading
      ensures error == Some(LoadFailed) && !loading
    {
      error := Some(LoadFailed);
      loading := false;
    }

    /** The "All Resumes" and "Recent" buttons. */
    method SelectTab(tab: string)
      modifies this`activeTab
      ensures activeTab == tab
    {
      activeTab := tab;
    }

    /** `handleDeleteResume`: nothing happens unless the user confirms; then
        a successful request drops every resume with that id and a failed
        one sets the error. */
    method Delete(id: string, confirmed: bool, succeeded: bool)
      modifies this`resumes, this`error
      ensures confirmed && succeeded ==> resumes == WithoutResume(old(resumes), id) && error == old(error)
      ensures confirmed && !succeeded ==> resumes == old(resumes) && error == Some(DeleteFailed)
      ensures !confirmed ==> resumes == old(resumes) && error == old(error)
    {
      if confirmed {
        if succeeded {
          resumes := WithoutResume(resumes, id);
        } else {
          error := Some(DeleteFailed);
        }
      }
    }

    /** `handleDownloadResume` up to the request: the spinner replaces the page. */
    method BeginDownload()
      modifies this`loading
      ensures loading
    {
      loading := true;
    }

    /** `handleDownloadResume` after the request: the file saved, if any, and
        the spinner gone in both cases. */
    method FinishDownload(title: string, succeeded: bool) returns (saved: Option<string>)
      modifies this`loading, this`error
      ensures !loading
      ensures succeeded ==> saved == Some(DownloadFileName(title)) && error == old(error)
      ensures !succeeded ==> saved == None && error == Some(DownloadFailed)
    {
      if succeeded {
        saved := Some(DownloadFileName(title));
      } else {
        saved := None;
        error := Some(DownloadFailed);
      }
      loading := false;
    }

    /** `handleShareResume` up to the request. */
    method BeginShare(id: string)
      modifies this`currentResumeId, this`shareLoading
      ensures currentResumeId == Some(id) && shareLoading
    {
      currentResumeId := Some(id);
      shareLoading := true;
    }

    /** `handleShareResume` after the request: the modal opens with the link
        the server made, or stays closed. */
    method FinishShare(link: Option<string>)
      modifies this`shareLink, this`shareModalOpen, this`shareLoading
      ensures !shareLoading
      ensures link.Some? ==> shareLink == link.value && shareModalOpen
      ensures link.None? ==> shareLink == old(shareLink) && shareModalOpen == old(shareModalOpen)
    {
      if link.Some? {
        shareLink := link.value;
        shareModalOpen := true;
      }
      shareLoading := false;
    }

    /** The modal's close button and backdrop. */
    method CloseShareModal()
      modifies this`shareModalOpen
      ensures !shareModalOpen
    {
      shareModalOpen := false;
    }
  }
}
