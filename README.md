# Resubuilder client core in Dafny

Resubuilder is a React client for building resumes. The user names a resume. They fill in a form with contact details, a summary, experience and education entries and a comma-separated skill list. They pick one of three layouts, which are previewed live: professional, creative and minimal. Then they save, export to PDF or share the resume.

This project models the logic behind those steps:

- the draft the editor starts from and the handlers that change it;
- the skills textarea;
- the save, PDF and AI-objective decisions;
- the dispatch from the template tag to a layout;
- the three layouts, modelled as functions from the content to a structured document;
- the dashboard's badge colour, download name, delete and "recent" filters, and tabs;
- the title step of the create page;
- the file name of a shared resume.

Modules, one per source file plus shared ones:

- `Wrappers` holds `Option` and `Array.prototype.filter`.
- `Text` models JavaScript's `trim`, `split`, `join` and `replace(/\s+/g, '_')`.
- `ResumeData` holds the entities.
- `Layout` holds the document type and the pieces the three layouts share: contact rows, date ranges, "company, location" and "degree in field".
- `ProfessionalTemplate`, `CreativeTemplate` and `MinimalTemplate` are the three layouts.
- `ResumePreview` is the dispatch.
- `ResumeForm` covers the editor. Its pure handlers are functions on the draft, and its state (`formData`, `loading`, `aiLoading`, `message`, `previewMode`) is the class `FormState`.
- `Dashboard` has the class `DashboardPage`.
- `CreateResumePage` has the class `CreatePage`.
- `ViewResumePage` holds the shared file name.

How the model treats things the code leaves to its environment:

- **Date formatting.** `toLocaleDateString('en-US', …)` depends on locale and time zone, so every layout takes it as a parameter `fmt`.
- **Random bar widths.** The creative layout's `Math.random()` is a parameter `draw` that gives a value in [0, 1) per bar.
- **Request outcomes.** Each handler that awaits a request is split at the `await`. The outcome (success, failure, the server's answer) is a method parameter.
- **The "recent" cutoff.** The cutoff time and date parsing are parameters of the recent filter.

Behaviour modelled as the code has it:

- **Date ranges.** JSX drops the line-ending space after the dash, so the text between start and end is `" -"`. A current entry reads "Jan 2022 - Present" and a finished one "Jan 2022 -Dec 2023".
- **Minimal skill separator.** It is stored mis-encoded: the UTF-8 bytes of " • " read as Windows-1252. The model keeps those code points.
- **Cleared skills.** Clearing the skills textarea stores `[""]`, not `[]`, so the skills section stays visible.
- **Editor title.** The editor takes its title from the page's `resumeTitle` prop, also when it edits a stored resume. Saving also prefers that prop to the draft's title.
- **AI objective.** The generated objective is written into the draft captured when the request started (a stale closure). Edits made while the request was pending are lost. `BeginAiObjective` returns that snapshot and `FinishAiObjective` writes into it.
- **Delete.** The dashboard filters the list it rendered from. The model filters the list it holds, because no other update can interleave in the model.
- **Filename expression.** The dashboard and the shared-resume page build the download file name with the same expression, written out twice. `ViewResumePage.SameNameAsDashboard` proves the two agree.
- **`ViewResume.jsx` props.** `client/src/components/resume/ViewResume.jsx:64-67` passes `template` and `content` props to the preview. The preview reads only `resumeData`, so that call would fail. The file is only I/O and is not part of this model.

## Model

| member | source | states |
|---|---|---|
| Wrappers.FilterIn | client/src/components/dashboard/Dashboard.jsx:53 | an element survives `filter` exactly when it occurs in the input and satisfies the predicate |
| Wrappers.FilterCounts | client/src/components/dashboard/Dashboard.jsx:53 | `filter` keeps every occurrence of an element that passes and drops every occurrence of one that does not |
| Wrappers.FilterSubsequence | client/src/components/dashboard/Dashboard.jsx:42-47 | `filter` only leaves elements out and never reorders them |
| Wrappers.FilterConcat | client/src/components/dashboard/Dashboard.jsx:42-47 | filtering a concatenation is the concatenation of the filtered parts |
| Wrappers.FilterAll | client/src/components/dashboard/Dashboard.jsx:53 | a filter every element passes returns the list unchanged |
| Text.Trim | client/src/components/resume/ResumeForm.jsx:198 | `trim` never lengthens its input and leaves no whitespace at either end |
| Text.TrimStart | client/src/components/resume/ResumeForm.jsx:198 | removes a prefix made only of whitespace, and the rest does not start with whitespace |
| Text.TrimEnd | client/src/components/resume/ResumeForm.jsx:198 | removes a suffix made only of whitespace, and the rest does not end with whitespace |
| Text.TrimBlank | client/src/pages/CreateResumePage.jsx:56 | a string trims to "" exactly when it is all whitespace |
| Text.TrimTrimmed | client/src/components/resume/ResumeForm.jsx:198 | `trim` leaves a string with no whitespace at either end unchanged |
| Text.TrimLeadingSpace | client/src/components/resume/ResumeForm.jsx:198 | a space in front of a string makes no difference after `trim` |
| Text.TrimKeepsOut | client/src/components/resume/ResumeForm.jsx:198 | `trim` cannot introduce a character that was absent |
| Text.Split | client/src/components/resume/ResumeForm.jsx:198 | `split` on a character gives one more piece than there are separators, and no piece contains the separator |
| Text.JoinSplit | client/src/components/resume/ResumeForm.jsx:198 | joining the pieces of a split with the separator restores the text |
| Text.SplitJoin | client/src/components/resume/ResumeForm.jsx:641 | splitting a join of separator-free pieces recovers exactly those pieces |
| Text.SplitFree | client/src/components/resume/ResumeForm.jsx:198 | a text without the separator splits into one piece, itself |
| Text.SplitAfter | client/src/components/resume/ResumeForm.jsx:198 | the first piece is everything before the first separator |
| Text.UnderscoreWhitespaceClean | client/src/components/dashboard/Dashboard.jsx:71 | no whitespace is left after `replace(/\s+/g, '_')` |
| Text.UnderscoreWhitespaceFree | client/src/components/dashboard/Dashboard.jsx:71 | text without whitespace passes through the replace unchanged |
| Text.CollapseConcat | client/src/components/dashboard/Dashboard.jsx:71 | the replace scan of a concatenation continues, on the second part, in the state the first part ended in |
| Text.CollapseRun | client/src/components/dashboard/Dashboard.jsx:71 | a whitespace run becomes one `_`, or nothing when it continues a run already replaced |
| Text.WhitespaceRunBetween | client/src/components/dashboard/Dashboard.jsx:71 | a maximal whitespace run between two texts becomes exactly one `_`, and each side is rewritten independently |
| Text.LeadingRun | client/src/components/dashboard/Dashboard.jsx:71 | a leading whitespace run becomes a single leading `_` |
| Text.TrailingRun | client/src/components/dashboard/Dashboard.jsx:71 | a trailing whitespace run becomes a single trailing `_` |
| Layout.ContactRowsPresent | client/src/components/resume/templates/ProfessionalTemplate.jsx:16-39 | the email, phone or LinkedIn row is present exactly when that field is not empty |
| Layout.ContactRowsShowField | client/src/components/resume/templates/ProfessionalTemplate.jsx:16-39 | each contact row shows the field of its own kind, with the layout's icon setting |
| Layout.ContactRowsOrdered | client/src/components/resume/templates/ProfessionalTemplate.jsx:16-39 | contact rows come in the order email, phone, LinkedIn |
| Layout.DateText | client/src/components/resume/templates/ProfessionalTemplate.jsx:60 | an empty date shows nothing |
| Layout.DateRange | client/src/components/resume/templates/ProfessionalTemplate.jsx:59-62 | a current entry ends in " - Present"; any other entry shows the start, then " -", then the formatted end date (nothing when it is empty) |
| Layout.CurrentHidesEndDate | client/src/components/resume/templates/ProfessionalTemplate.jsx:61 | a current entry's stored end date does not affect its range |
| Layout.FormatterOnlySeesShownDates | client/src/components/resume/templates/ProfessionalTemplate.jsx:60-61 | the date formatter is applied only to non-empty dates, and to the end date only for entries that are not current |
| Layout.CompanyLine | client/src/components/resume/templates/ProfessionalTemplate.jsx:64 | ", location" is added after the company only when the location is not empty |
| Layout.DegreeLine | client/src/components/resume/templates/ProfessionalTemplate.jsx:78 | " in field" is added after the degree only when the field is not empty |
| Layout.FourSections | client/src/components/resume/templates/ProfessionalTemplate.jsx:44-102 | of four conditional sections, those shown are exactly the content's visible kinds, in the candidates' order |
| Layout.TwoSections | client/src/components/resume/templates/CreativeTemplate.jsx:44-81 | the same for a region of two conditional sections |
| Layout.VisibleIff | client/src/components/resume/templates/ProfessionalTemplate.jsx:44-91 | a kind is visible exactly when the layout lists it and the content has something for it |
| Layout.FindAmongFour | client/src/components/resume/templates/ProfessionalTemplate.jsx:44-102 | looking up a kind among four distinct conditional sections finds its section exactly when the content shows it |
| Layout.FindAmongTwo | client/src/components/resume/templates/CreativeTemplate.jsx:87-112 | the same for two conditional sections |
| Layout.FindMissing | client/src/components/resume/templates/CreativeTemplate.jsx:13-82 | a kind that a region does not contain is not found there |
| ProfessionalTemplate.RenderShape | client/src/components/resume/templates/ProfessionalTemplate.jsx:6-103 | one column; the header always shows the name (even when empty) and the contact rows with icons; the sections are exactly the visible ones, in the order summary, experience, education, skills |
| ProfessionalTemplate.SectionContents | client/src/components/resume/templates/ProfessionalTemplate.jsx:44-102 | each section is present exactly when its field or list is non-empty. The summary is a paragraph headed "Professional Summary". Experience and education hold one block per entry, in list order. Skills hold one chip per skill |
| ProfessionalTemplate.IgnoresCurrentEndDates | client/src/components/resume/templates/ProfessionalTemplate.jsx:52-88 | contents that differ only in the stored end dates of current entries render identically |
| ProfessionalTemplate.ExperienceIgnoresCurrentEndDates | client/src/components/resume/templates/ProfessionalTemplate.jsx:55-67 | the same, for the experience section |
| ProfessionalTemplate.EducationIgnoresCurrentEndDates | client/src/components/resume/templates/ProfessionalTemplate.jsx:75-86 | the same, for the education section |
| ProfessionalTemplate.IgnoresAddressAndWebsite | client/src/components/resume/templates/ProfessionalTemplate.jsx:13-41 | the address and the website never affect the page |
| CreativeTemplate.Fill | client/src/components/resume/templates/CreativeTemplate.jsx:58 | a bar's width is a whole percentage from 70 to 99 |
| CreativeTemplate.SkillBars | client/src/components/resume/templates/CreativeTemplate.jsx:48-61 | one bar per skill, in list order, each labelled with its skill and 70 to 99 percent wide |
| CreativeTemplate.RenderShape | client/src/components/resume/templates/CreativeTemplate.jsx:6-114 | two regions; the sidebar starts with the name and contact rows with icons (kept in `header`), then the visible ones of skills and education, in that order; the main region holds the visible ones of summary and experience, in that order |
| CreativeTemplate.SectionContents | client/src/components/resume/templates/CreativeTemplate.jsx:44-112 | each section is present exactly when its field or list is non-empty. The summary is headed "About Me". The entry sections hold one block per entry, in order. Skills hold the bars |
| CreativeTemplate.OnlyBarsAreRandom | client/src/components/resume/templates/CreativeTemplate.jsx:58 | two renderings of the same content differ at most in the bar widths |
| CreativeTemplate.IgnoresCurrentEndDates | client/src/components/resume/templates/CreativeTemplate.jsx:67-112 | contents that differ only in current entries' stored end dates render identically |
| CreativeTemplate.ExperienceIgnoresCurrentEndDates | client/src/components/resume/templates/CreativeTemplate.jsx:98-110 | the same, for the experience section |
| CreativeTemplate.EducationIgnoresCurrentEndDates | client/src/components/resume/templates/CreativeTemplate.jsx:70-79 | the same, for the education section |
| CreativeTemplate.IgnoresAddressAndWebsite | client/src/components/resume/templates/CreativeTemplate.jsx:14-41 | the address and the website never affect the page |
| MinimalTemplate.RenderShape | client/src/components/resume/templates/MinimalTemplate.jsx:6-82 | one column; a centred header with the name and plain-text contact rows; the sections are exactly the visible ones, in the order profile, experience, education, skills |
| MinimalTemplate.SectionContents | client/src/components/resume/templates/MinimalTemplate.jsx:29-81 | each section is present exactly when its field or list is non-empty. The summary is headed "Profile". Entry sections hold one block per entry, in order. Skills are one string joined with the separator, and a single skill appears without any separator |
| MinimalTemplate.TwoSkillsLine | client/src/components/resume/templates/MinimalTemplate.jsx:79 | two skills appear with the stored (mis-encoded) bullet separator between them |
| MinimalTemplate.IgnoresCurrentEndDates | client/src/components/resume/templates/MinimalTemplate.jsx:37-73 | contents that differ only in current entries' stored end dates render identically |
| MinimalTemplate.ExperienceIgnoresCurrentEndDates | client/src/components/resume/templates/MinimalTemplate.jsx:40-52 | the same, for the experience section |
| MinimalTemplate.EducationIgnoresCurrentEndDates | client/src/components/resume/templates/MinimalTemplate.jsx:60-71 | the same, for the education section |
| MinimalTemplate.IgnoresAddressAndWebsite | client/src/components/resume/templates/MinimalTemplate.jsx:13-26 | the address and the website never affect the page |
| ResumePreview.Resolve | client/src/components/resume/ResumePreview.jsx:9-17 | "creative" selects Creative and "minimal" selects Minimal. Every other value selects Professional, whether another string, undefined, null or not a string |
| ResumePreview.DefaultIsProfessional | client/src/components/resume/ResumePreview.jsx:14-16 | any other string, undefined, null and non-strings all select the professional layout, so the dispatch is total |
| ResumePreview.PreviewShape | client/src/components/resume/ResumePreview.jsx:6-18 | whatever the tag, the header carries the draft's name and contact rows. Icons appear except in the minimal layout, and only the minimal layout centres them. The sections are the visible ones in the chosen layout's order. Only the creative layout has two regions |
| ResumePreview.SameTagSameLayout | client/src/components/resume/ResumePreview.jsx:7-9 | the layout depends on the tag alone, not on the title or the content |
| ResumePreview.SectionPresence | client/src/components/resume/ResumePreview.jsx:6-18 | in every layout a section is rendered exactly when the content has something for it (`[""]` counts) |
| ResumePreview.NoSummaryNoSkills | client/src/components/resume/ResumePreview.jsx:6-18 | an empty summary and an empty skill list leave neither section in any layout |
| ResumePreview.AddressAndWebsiteNeverShown | client/src/components/resume/ResumePreview.jsx:6-18 | in no layout do the address and the website affect the page |
| ResumePreview.CurrentEndDatesNeverShown | client/src/components/resume/ResumePreview.jsx:6-18 | in every layout, the stored end date of a current entry does not affect the page |
| ResumePreview.NameOnlyMinimal | client/src/components/resume/templates/MinimalTemplate.jsx:13-26 | a minimal draft holding only a name renders as a centred header with that name and nothing else |
| ResumePreview.CurrentEntryReadsPresent | client/src/components/resume/templates/ProfessionalTemplate.jsx:59-62 | in all three layouts, a current entry starting in a month shown as "Jan 2022" reads "Jan 2022 - Present" |
| ResumePreview.CreativeEntryRange | client/src/components/resume/templates/CreativeTemplate.jsx:95-112 | the single experience entry of a creative page is found in the main region and shows its date range |
| ResumePreview.MinimalEntryRange | client/src/components/resume/templates/MinimalTemplate.jsx:37-54 | the single experience entry of a minimal page shows its date range |
| ResumePreview.ProfessionalEntryRange | client/src/components/resume/templates/ProfessionalTemplate.jsx:52-69 | the single experience entry of a professional page shows its date range |
| ResumeForm.InitialDraft | client/src/components/resume/ResumeForm.jsx:27-63 | the title is `resumeTitle`, or "My Resume" when it is empty. Template and content come from the stored resume when there is one. Otherwise they are "professional" and a blank content |
| ResumeForm.FreshDraftPreview | client/src/components/resume/ResumeForm.jsx:27-63 | a fresh draft previews in the professional layout. It shows exactly the experience and education sections, with one blank entry each, neither current, and no skills |
| ResumeForm.OnlyListsVisible | client/src/components/resume/ResumeForm.jsx:39-61 | with no summary, no skills and an entry in each list, only the two lists are shown |
| ResumeForm.WithPersonalInfo | client/src/components/resume/ResumeForm.jsx:66-78 | the named field takes the value; every other personal field and the rest of the draft are unchanged |
| ResumeForm.PersonalInfoLastWriteWins | client/src/components/resume/ResumeForm.jsx:66-78 | typing into a field twice keeps the last value, and writing back the current value changes nothing |
| ResumeForm.WithSummary | client/src/components/resume/ResumeForm.jsx:81-89 | only the summary changes |
| ResumeForm.WithTemplate | client/src/components/resume/ResumeForm.jsx:380-385 | only the template tag changes |
| ResumeForm.TemplateButtonsSelect | client/src/components/resume/ResumeForm.jsx:982-1010 | the three template buttons select the three layouts |
| ResumeForm.EventValue | client/src/components/resume/ResumeForm.jsx:97 | a checkbox event stores `checked`, any other event stores `value` |
| ResumeForm.ChangeExperience | client/src/components/resume/ResumeForm.jsx:92-107 | in entry i only the named field changes, to the event's value; other entries, the length and the rest of the draft are unchanged |
| ResumeForm.ChangeEducation | client/src/components/resume/ResumeForm.jsx:145-160 | the same for an education entry |
| ResumeForm.RemoveAt | client/src/components/resume/ResumeForm.jsx:133-134 | `splice(i, 1)` removes exactly entry i and keeps the rest in order; an index past the end changes nothing |
| ResumeForm.RemoveAtCounts | client/src/components/resume/ResumeForm.jsx:133-134 | exactly one occurrence of the removed entry is lost |
| ResumeForm.AddExperience | client/src/components/resume/ResumeForm.jsx:110-129 | exactly one blank entry is appended; earlier entries and the rest of the draft are unchanged |
| ResumeForm.RemoveExperience | client/src/components/resume/ResumeForm.jsx:132-142 | the experience list loses entry i (if any) and nothing else changes |
| ResumeForm.AddEducation | client/src/components/resume/ResumeForm.jsx:163-181 | exactly one blank entry is appended; earlier entries and the rest of the draft are unchanged |
| ResumeForm.RemoveEducation | client/src/components/resume/ResumeForm.jsx:184-194 | the education list loses entry i (if any) and nothing else changes |
| ResumeForm.RemoveUndoesAdd | client/src/components/resume/ResumeForm.jsx:110-194 | removing the entry just added restores the draft |
| ResumeForm.RemoveKeepsFirst | client/src/components/resume/ResumeForm.jsx:724-726 | remove buttons exist only for index > 0, so through them a non-empty list never loses its first entry |
| ResumeForm.ParseSkills | client/src/components/resume/ResumeForm.jsx:198 | one skill per comma plus one, each trimmed and free of commas |
| ResumeForm.WithSkills | client/src/components/resume/ResumeForm.jsx:197-206 | only the skills change, to the parse of the text |
| ResumeForm.ParseEmptyText | client/src/components/resume/ResumeForm.jsx:198 | empty text parses to `[""]` |
| ResumeForm.ClearedSkillsStillShown | client/src/components/resume/ResumeForm.jsx:198 | clearing the textarea leaves one empty skill, so the skills section is still shown |
| ResumeForm.ParseSkillsAfter | client/src/components/resume/ResumeForm.jsx:198 | the text up to the first comma, trimmed, is the first skill |
| ResumeForm.SkillsRoundTrip | client/src/components/resume/ResumeForm.jsx:641 | for a non-empty list of trimmed, comma-free skills, parsing `join(', ')` gives back the list |
| ResumeForm.TextareaIsStable | client/src/components/resume/ResumeForm.jsx:641 | re-parsing the textarea's joined text never changes the parsed skills |
| ResumeForm.SaveRequestFor | client/src/components/resume/ResumeForm.jsx:302-318 | an update under the stored id exactly when editing a resume with an id, otherwise a creation. The title is `resumeTitle`, or the draft's title when that is empty. Nothing else of the draft changes |
| ResumeForm.PdfFileName | client/src/components/resume/ResumeForm.jsx:364 | the name is the title as typed (whitespace kept), or "resume" when the title is empty, followed by ".pdf" |
| ResumeForm.AiPayload | client/src/components/resume/ResumeForm.jsx:223-252 | name and role default to "Professional"; skills are sent as they are; the experience and education details sent are the filled ones of the mapped entries, in list order, each occurrence kept (a subsequence with the same count of every filled detail and none of an empty one); a single option is requested |
| ResumeForm.ExperienceDetails | client/src/components/resume/ResumeForm.jsx:227-230 | one detail per entry, in order, each with that entry's title, company and description |
| ResumeForm.FilledExperience | client/src/components/resume/ResumeForm.jsx:227-231 | a subsequence of the mapped details that holds every detail with a filled title, company or description as often as the mapped list does, and no other |
| ResumeForm.EducationDetails | client/src/components/resume/ResumeForm.jsx:234-237 | one detail per entry, in order, each with that entry's degree, field and institution |
| ResumeForm.FilledEducation | client/src/components/resume/ResumeForm.jsx:234-238 | a subsequence of the mapped details that holds every detail with a filled degree, field or institution as often as the mapped list does, and no other |
| ResumeForm.AiPayloadMentions | client/src/components/resume/ResumeForm.jsx:227-231 | an experience entry's details are sent exactly when one of its three fields is filled in |
| ResumeForm.FormState.constructor | client/src/components/resume/ResumeForm.jsx:12-63 | starts from the initial draft, not loading, with no message and the preview hidden |
| ResumeForm.FormState.TogglePreviewMode | client/src/components/resume/ResumeForm.jsx:23-25 | flips the preview mode |
| ResumeForm.FormState.ChangePersonalInfo | client/src/components/resume/ResumeForm.jsx:66-78 | the form data becomes `WithPersonalInfo` of the old form data |
| ResumeForm.FormState.ChangeSummary | client/src/components/resume/ResumeForm.jsx:81-89 | the form data becomes `WithSummary` of the old form data |
| ResumeForm.FormState.ChangeTemplate | client/src/components/resume/ResumeForm.jsx:380-385 | the form data becomes `WithTemplate` of the old form data |
| ResumeForm.FormState.ChangeExperienceEntry | client/src/components/resume/ResumeForm.jsx:92-107 | the form data becomes `ChangeExperience` of the old form data |
| ResumeForm.FormState.AddExperienceEntry | client/src/components/resume/ResumeForm.jsx:110-129 | the form data becomes `AddExperience` of the old form data |
| ResumeForm.FormState.RemoveExperienceEntry | client/src/components/resume/ResumeForm.jsx:132-142 | the form data becomes `RemoveExperience` of the old form data |
| ResumeForm.FormState.ChangeEducationEntry | client/src/components/resume/ResumeForm.jsx:145-160 | the form data becomes `ChangeEducation` of the old form data |
| ResumeForm.FormState.AddEducationEntry | client/src/components/resume/ResumeForm.jsx:163-181 | the form data becomes `AddEducation` of the old form data |
| ResumeForm.FormState.RemoveEducationEntry | client/src/components/resume/ResumeForm.jsx:184-194 | the form data becomes `RemoveEducation` of the old form data |
| ResumeForm.FormState.ChangeSkills | client/src/components/resume/ResumeForm.jsx:197-206 | the form data becomes `WithSkills` of the old form data |
| ResumeForm.FormState.BeginSave | client/src/components/resume/ResumeForm.jsx:288-318 | loading, with "Saving resume...", and returns the request `SaveRequestFor` chooses |
| ResumeForm.FormState.FinishSave | client/src/components/resume/ResumeForm.jsx:320-334 | not loading, with the success or error message |
| ResumeForm.FormState.BeginPdf | client/src/components/resume/ResumeForm.jsx:338-364 | without a mounted preview: no file, not loading, with the error message. Otherwise: loading, and the file is named `PdfFileName` of the title |
| ResumeForm.FormState.FinishPdf | client/src/components/resume/ResumeForm.jsx:366-376 | not loading, with the success or error message |
| ResumeForm.FormState.BeginAiObjective | client/src/components/resume/ResumeForm.jsx:209-255 | AI busy, with its message; returns the current draft as the snapshot and `AiPayload` of its content |
| ResumeForm.FormState.FinishAiObjective | client/src/components/resume/ResumeForm.jsx:257-284 | on success the draft becomes the snapshot with the new summary; otherwise it is unchanged. Not busy afterwards, with the message for each outcome |
| Dashboard.TemplateColor | client/src/components/dashboard/Dashboard.jsx:110-117 | blue, purple or green badge for the three named templates; grey for any other value |
| Dashboard.GreyBadgeIsFallback | client/src/components/dashboard/Dashboard.jsx:110-117 | the badge is grey exactly for the tags the preview renders with the professional layout without naming it |
| Dashboard.DownloadFileName | client/src/components/dashboard/Dashboard.jsx:71 | the name always ends in "_resume.pdf" |
| Dashboard.FileNameWithoutWhitespace | client/src/components/dashboard/Dashboard.jsx:71 | no whitespace is left before the suffix |
| Dashboard.FileNameKeepsPlainTitle | client/src/components/dashboard/Dashboard.jsx:71 | a title without whitespace is kept as it is |
| Dashboard.FileNameOfSpacedTitle | client/src/components/dashboard/Dashboard.jsx:71 | "Senior  Backend   Engineer" downloads as "Senior_Backend_Engineer_resume.pdf" |
| Dashboard.TwoRuns | client/src/components/dashboard/Dashboard.jsx:71 | two whitespace runs between three words become two single underscores |
| Dashboard.FileNameKeepsOuterRuns | client/src/components/dashboard/Dashboard.jsx:71 | the title is not trimmed: a leading or trailing run becomes a leading or trailing `_` |
| Dashboard.DeleteRemovesExactly | client/src/components/dashboard/Dashboard.jsx:53 | a resume survives deletion exactly when its id differs. Survivors keep all their occurrences and their order |
| Dashboard.DeleteUnknownId | client/src/components/dashboard/Dashboard.jsx:53 | deleting an id no resume has changes nothing |
| Dashboard.RecentAreUpdatedAfterCutoff | client/src/components/dashboard/Dashboard.jsx:42-47 | a resume is recent exactly when it is listed and its date is after the cutoff; the recent list is an order-preserving subsequence |
| Dashboard.ScreenShowsTabs | client/src/components/dashboard/Dashboard.jsx:235-287 | once loaded, the empty-state panel shows exactly when there are no resumes, whatever the tab. "all" lists every resume and any other tab the recent ones. The counts are the two lists' lengths |
| Dashboard.DashboardPage.constructor | client/src/components/dashboard/Dashboard.jsx:12-20 | no resumes, loading, no error, the "all" tab, and no share state |
| Dashboard.DashboardPage.FetchSucceeded | client/src/components/dashboard/Dashboard.jsx:28-30 | the list is the fetched one and loading ends |
| Dashboard.DashboardPage.FetchFailed | client/src/components/dashboard/Dashboard.jsx:31-34 | the error is "Failed to load your resumes" and loading ends |
| Dashboard.DashboardPage.SelectTab | client/src/components/dashboard/Dashboard.jsx:235-245 | the tab becomes the chosen one |
| Dashboard.DashboardPage.Delete | client/src/components/dashboard/Dashboard.jsx:49-61 | unconfirmed: nothing changes. Confirmed and successful: the list is `WithoutResume`. Confirmed but failed: the error is "Failed to delete resume" |
| Dashboard.DashboardPage.BeginDownload | client/src/components/dashboard/Dashboard.jsx:65 | the spinner is on |
| Dashboard.DashboardPage.FinishDownload | client/src/components/dashboard/Dashboard.jsx:71-81 | the spinner is off. Success saves a file named `DownloadFileName`. Failure saves nothing and sets "Failed to download resume" |
| Dashboard.DashboardPage.BeginShare | client/src/components/dashboard/Dashboard.jsx:85-86 | remembers the resume and shows sharing as busy |
| Dashboard.DashboardPage.FinishShare | client/src/components/dashboard/Dashboard.jsx:89-97 | not busy; with a link the modal opens with it, otherwise the modal and link stay |
| Dashboard.DashboardPage.CloseShareModal | client/src/components/dashboard/Dashboard.jsx:359 | the modal is closed |
| CreateResumePage.ScreenOf | client/src/pages/CreateResumePage.jsx:67-242 | loading screen exactly while auth or the fetch is loading; the title step exactly when nothing is loading, there is no error and step is 1; the form gets the fetched resume, the title and `isEditing` exactly when there is an id |
| CreateResumePage.SubmittedTitleIsSaved | client/src/pages/CreateResumePage.jsx:60 | an accepted title, untrimmed, becomes the new draft's title and the title of the resume its first save creates |
| CreateResumePage.CreatePage.constructor | client/src/pages/CreateResumePage.jsx:15-19 | with an id: step 2 and loading; without: step 1, not loading; empty title, no data, no error |
| CreateResumePage.CreatePage.FetchSucceeded | client/src/pages/CreateResumePage.jsx:39-42 | stores the resume, takes its title, stops loading and goes to step 2 |
| CreateResumePage.CreatePage.FetchFailed | client/src/pages/CreateResumePage.jsx:45-46 | the error is "Failed to load resume data" and loading stops |
| CreateResumePage.CreatePage.EditTitle | client/src/pages/CreateResumePage.jsx:167 | the title becomes the typed value |
| CreateResumePage.CreatePage.ClearTitle | client/src/pages/CreateResumePage.jsx:172-175 | the title becomes "" |
| CreateResumePage.CreatePage.UseSuggestion | client/src/pages/CreateResumePage.jsx:63-65 | the title becomes the chosen suggestion verbatim |
| CreateResumePage.CreatePage.SubmitTitle | client/src/pages/CreateResumePage.jsx:54-61 | accepted exactly when the trimmed title is not empty, that is when it is not all whitespace; step 2 if accepted, otherwise unchanged |
| ViewResumePage.SharedFileName | client/src/pages/ViewResumePage.jsx:44 | the shared file name is the dashboard's download name, so it always ends in "_resume.pdf" |
| ViewResumePage.SameNameAsDashboard | client/src/pages/ViewResumePage.jsx:44 | the shared file name and the dashboard's download name are the same function of the title |
| ViewResumePage.SharedFileNameShape | client/src/pages/ViewResumePage.jsx:44 | no whitespace before the suffix; a leading or trailing whitespace run becomes a leading or trailing `_` |

## Left out

- HTTP requests (axios) are left out: the fetches, save, delete, download, share and AI calls. Only the decisions before and after them are modelled, and their outcomes are parameters.
- The PDF and print libraries (html2canvas, jsPDF, react-to-print) are foreign code. Only the missing-preview guard and the file name are modelled. The print path (`handlePrint`, its `documentTitle` and messages) is not modelled.
- Timers are left out: the `setTimeout` that clears messages after three seconds, and the 500 ms print delay.
- Toasts, `console.error` and `navigator.clipboard` are user-interface side effects.
- The delete confirmation dialog is the parameter `confirmed`.
- Which DOM node the preview ref points to is React commit behaviour. `BeginPdf` takes it as the parameter `previewMounted`.
- Authentication, navigation and routing are left out (`AuthContext.jsx`, `App.jsx`, the login redirect and the dashboard links). So are the marketing pages and the user menu.
- ViewResumePage's fetch, its loading and error screens and its own download error are I/O around the file name. Only the file name is modelled.
- `ViewResume.jsx` only fetches and renders, and is not part of this model.
- Date formatting is a parameter, because it depends on locale and time zone.
- The calendar arithmetic of "now minus seven days" is the parameter `cutoff`, and `new Date(updatedAt)` is the parameter `parse`. The cutoff is taken once for the whole filter, while the code evaluates `new Date()` again for each resume; a filter that runs across a clock change can differ from the model for a resume dated within that moment.
- CSS-only effects are not modelled, such as the minimal layout's `uppercase` class. Neither are the animations.
- ResumeForm.ChangeExperience: requires an index inside the list and an event wired as the form wires it (only the `current` input is a checkbox). An out-of-range index in JavaScript would create an entry, and a mistyped event would store a value of the wrong type. The form never produces either.
- ResumeForm.ChangeEducation: the same restriction as `ChangeExperience`.
- ResumeForm.RemoveAt: takes a natural-number index. `splice` with a negative index counts from the end, but the form never passes one.
- Lists that are missing (`undefined`) in stored content are not modelled. Every stored content has all its fields.
- The editor heading ("Edit Your Resume" or "Create Your Resume") is not modelled.
- Dashboard.DashboardPage.Delete: filters the list the page holds at the time, while the code filters the list from the render that created the handler. The two differ only when another update lands while the delete request is pending.
