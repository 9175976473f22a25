/** The page that creates or edits a resume. Without an id in the route it
    first asks for a title (step 1) and then shows the form (step 2); with an
    id it fetches the stored resume and goes straight to the form. */
module CreateResumePage {
  import opened Wrappers
  import opened Text
  import opened ResumeData
  import ResumeForm

  const TitleSuggestions := [
    "Professional Software Engineer Resume",
    "Creative Marketing Portfolio",
    "Executive Leadership CV",
    "Technical Project Manager Resume",
    "Data Science Specialist CV"
  ]

  const LoadFailed := "Failed to load resume data"

  /** What the page renders. The title step shows the title box, with the
      clear button when the title is not empty; the form step hands the form
      its three props. */
  datatype Screen =
    | LoadingScreen
    | ErrorScreen(message: string)
    | TitleStep(title: string, clearButton: bool)
    | FormStep(initialData: Option<StoredResume>, resumeTitle: string, isEditing: bool)

  function ScreenOf(id: Option<string>, authLoading: bool, isLoading: bool, error: Option<string>,
                    step: int, resumeTitle: string, resumeData: Option<StoredResume>): (s: Screen)
    ensures s.FormStep? ==> s.isEditing == Truthy(id) && s.initialData == resumeData && s.resumeTitle == resumeTitle
    ensures s.LoadingScreen? <==> authLoading || isLoading
    ensures s.TitleStep? <==> !authLoading && !isLoading && error.None? && step == 1
  {
    if authLoading || isLoading then LoadingScreen
    else if error.Some? then ErrorScreen(error.value)
    else if step == 1 then TitleStep(resumeTitle, resumeTitle != "")
    else FormStep(resumeData, resumeTitle, Truthy(id))
  }

  /** A new resume starts from the title the user submitted, untrimmed, and
      its first save creates a resume under that title. */
  lemma SubmittedTitleIsSaved(title: string)
    requires Trim(title) != ""
    ensures ResumeForm.InitialDraft(None, title).title == title
    ensures var r := ResumeForm.SaveRequestFor(ResumeForm.InitialDraft(None, title), title, false, None);
      r.CreateResume? && r.body.title == title
  {
    assert title != "" by { TrimBlank(title); }
  }

  class CreatePage {
    const id: Option<string>
    var resumeTitle: string
    var resumeData: Option<StoredResume>
    var isLoading: bool
    var error: Option<string>
    var step: int

    /** The initial state: with an id, loading and already at the form. */
    constructor(id: Option<string>)
      ensures this.id == id
      ensures step == (if Truthy(id) then 2 else 1)
      ensures isLoading == Truthy(id)
      ensures resumeTitle == "" && resumeData == None && error == None
    {
      this.id := id;
      resumeTitle := "";
      resumeData := None;
      isLoading := Truthy(id);
      error := None;
      step := if Truthy(id) then 2 else 1;
    }

    function Screen(authLoading: bool): Screen
      reads this
    {
      ScreenOf(id, authLoading, isLoading, error, step, resumeTitle, resumeData)
    }

    /** The fetch of the resume being edited succeeded. */
    method FetchSucceeded(r: StoredResume)
      requires Truthy(id)
      modifies this`resumeData, this`resumeTitle, this`isLoading, this`step
      ensures resumeData == Some(r) && resumeTitle == r.title && !isLoading && step == 2
    {
      resumeData := Some(r);
      resumeTitle := r.title;
      isLoading := false;
      step := 2;
    }

    /** The fetch of the resume being edited failed. */
    method FetchFailed()
      requires Truthy(id)
      modifies this`error, this`isLoading
      ensures error == Some(LoadFailed) && !isLoading
    {
      error := Some(LoadFailed);
      isLoading := false;
    }

    /** Typing in the title box. */
    method EditTitle(value: string)
      modifies this`resumeTitle
      ensures resumeTitle == value
    {
      resumeTitle := value;
    }

    /** The clear button of the title box. */
    method ClearTitle()
      modifies this`resumeTitle
      ensures resumeTitle == ""
    {
      resumeTitle := "";
    }

    /** `useSuggestion`: the suggestion replaces the title as it is. */
    method UseSuggestion(i: nat)
      requires i < |TitleSuggestions|
      modifies this`resumeTitle
      ensures resumeTitle == TitleSuggestions[i]
    {
      resumeTitle := TitleSuggestions[i];
    }

    /** `handleTitleSubmit`: a title that is blank after trimming is refused
        and the step stays; any other title moves on to the form, kept as
        typed. */
    method SubmitTitle() returns (accepted: bool)
      modifies this`step
      ensures accepted <==> Trim(resumeTitle) != ""
      ensures accepted <==> !AllWhitespace(resumeTitle)
      ensures step == if accepted then 2 else old(step)
    {
      TrimBlank(resumeTitle);
      accepted := Trim(resumeTitle) != "";
      if accepted {
        step := 2;
      }
    }
  }
}
