# Portfolio session state, visitor notebook and personal space

This project models the interactive state of a personal portfolio
single-page application. Almost all of the application is markup; what it
holds and changes is:

- the **session** (`App` in App.tsx): which of four screens is shown
  (`home`, `projects-detail`, `contact-detail`, `personal-space`), three
  independent overlay flags (story, notebook, learning map), a focus mode
  that hides the navbar, the footer and the background particles, and the
  index of a quote that rotates every 8 seconds;
- the **visitor notebook** (`VisitorNotebook` in App.tsx): a write tab that
  prepends non-blank notes to an in-memory archive seeded with seven notes, a
  "sent" acknowledgement cleared by a 2000 ms timer that also switches to the
  archive tab, and an archive whose notes ask a text-completion service for an
  encouragement message, shown in a dismissible overlay;
- the **learning map** (`LearningMap` in App.tsx): four fixed options and the
  message of the option whose id was last clicked;
- the **personal space** (PersonalSpace.tsx): a roadmap record of three
  strings and a journal list, loaded from the browser's key/value storage
  when the view mounts, with every roadmap edit written back whole.

Files:

- `optional.dfy`: the `Option` datatype used for nullable values.
- `js_text.dfy`: JavaScript's `String.prototype.trim`, blankness, and the
  lemma that a string is blank exactly when it is all whitespace.
- `app_session.dfy`: the session as a class, with one method per handler and
  `Tick` for the interval; the quote rotation and its period.
- `notebook.dfy`: the notebook as a class; the suggestion text chosen for a
  collaborator outcome; three client scenarios.
- `learning_map.dfy`: the option lookup and the map's selection.
- `personal_space.dfy`: the roadmap record and its field update, storage as a
  class over a map of decoded documents, the personal space as a class, and
  read-after-write.

Time and the network are explicit steps. The 2000 ms callback is
`SentTimerFires`, and it can run only while a submit has scheduled one. The
8000 ms interval is `Tick`. A text-completion call is split into `BeginFetch`,
which is the synchronous part, and `ResolveFetch(outcome)`, where the outcome
(a response, or a thrown error) is a parameter chosen by the environment. Two
ghost counters record the scheduled callbacks and the unresolved calls.

The code gives none of the following guarantees, and the model claims none
of them:

- The notebook has no generation token: whichever pending call resolves last
  writes the overlay, even after a newer note was selected or the overlay was
  dismissed. `StaleResponseScenario` shows this; last-selection-wins is not
  claimed.
- `JSON.parse` on load is not guarded. The model does not claim a fallback to
  defaults for corrupt data. `Load` requires each key to hold a document of
  its own shape.
- Notebook notes are plain strings, without an id or a timestamp.
- PersonalSpace.tsx ends in the middle of `saveRoadmap` (line 50). No journal
  add or delete handler and no timer handler exist in it, so none is modelled.
  The write at line 50 is taken to store the new roadmap object.

## Model

| member | source | states |
|---|---|---|
| `JsText.SkipLeading` | App.tsx:72 | the result is the first non-whitespace position at or after the start, with only whitespace skipped |
| `JsText.SkipTrailing` | App.tsx:72 | the result is one past the last non-whitespace position of the range, with only whitespace skipped |
| `JsText.Trim` | App.tsx:72 | `trim()` is no longer than the input and neither starts nor ends with whitespace |
| `JsText.TrimIsCut` | App.tsx:72 | `trim()` is one contiguous slice of the input with only whitespace on either side of it |
| `JsText.OutsideAllRanges` | App.tsx:72 | a character outside every whitespace range is not whitespace |
| `JsText.BlankIffAllWhitespace` | App.tsx:72 | `note.trim()` is falsy exactly when every character of `note` is whitespace |
| `JsText.BlankExamples` | App.tsx:72 | `""` and `"   "` are blank |
| `JsText.PaddedWordIsNotBlank` | App.tsx:72 | `" Go "` is not blank |
| `Notebook.SuggestionFor` | App.tsx:93-95 | the displayed text is never empty: it is the response text when non-empty, the first fallback when the text is missing or empty, and the second fallback when the call throws |
| `Notebook.FailureIsDistinguishable` | App.tsx:93-95 | a failure shows a different text from an empty answer, and from any answer that is not the failure fallback itself |
| `Notebook.VisitorNotebook.OverlayVisible` | App.tsx:178 | given the invariant, while the notebook is open the overlay is shown exactly when loading or a suggestion is present |
| `Notebook.VisitorNotebook.constructor` | App.tsx:53-68 | the write tab, an empty input, the seven seed notes, nothing sent, selected, suggested or loading |
| `Notebook.VisitorNotebook.EditNote` | App.tsx:147 | only the input changes |
| `Notebook.VisitorNotebook.SelectTab` | App.tsx:123-130 | only the active tab changes |
| `Notebook.VisitorNotebook.Submit` | App.tsx:70-81 | a blank input changes nothing; otherwise the untrimmed input is prepended with the old list as the tail, the input becomes `""`, `isSent` becomes true, one callback is scheduled, and the tab and the suggestion state are kept |
| `Notebook.VisitorNotebook.SentTimerFires` | App.tsx:76-79 | `isSent` becomes false and the tab becomes the archive; nothing else changes |
| `Notebook.VisitorNotebook.BeginFetch` | App.tsx:83-86 | the topic is selected, loading is on, the suggestion is cleared, the overlay is shown, and the notes are kept |
| `Notebook.VisitorNotebook.ResolveFetch` | App.tsx:88-98 | loading is off and the suggestion is the non-empty text of the outcome; the selection and the notes are kept |
| `Notebook.VisitorNotebook.Dismiss` | App.tsx:186 | the suggestion is cleared, loading is off and the overlay is hidden; the notes and the selection are kept |
| `Notebook.SubmitScenario` | App.tsx:70-80 | after a non-blank submit and the timer, the text heads an archive of eight notes, the input is empty and the archive tab is shown |
| `Notebook.FailureScenario` | App.tsx:83-98 | clicking the Go note when the call fails shows the failure fallback, not the empty-answer fallback |
| `Notebook.StaleResponseScenario` | App.tsx:83-99 | when the first of two calls resolves last, its text is shown next to the second selection |
| `LearningMap.FindFirst` | App.tsx:220 | the result is the first position whose id equals the selection, or none exactly when no id matches |
| `LearningMap.ActiveOption` | App.tsx:214-220 | a shown option is one of the four and has the selected id; none is shown exactly when no id matches |
| `LearningMap.SelectingShowsThatOption` | App.tsx:214-231 | clicking an option shows that option's own message |
| `LearningMap.NothingSelectedShowsNothing` | App.tsx:213-220 | with no selection, no message is shown |
| `LearningMap.LearningMapState.constructor` | App.tsx:213 | nothing is selected and no message is shown |
| `LearningMap.LearningMapState.Active` | App.tsx:220 | a shown option has the selected id |
| `LearningMap.LearningMapState.Select` | App.tsx:231 | the id is selected, and a message is shown exactly when some option has that id |
| `AppSession.NextSentence` | App.tsx:355 | the next index is below the number of quotes, one more than the previous one, wrapping from the last quote to the first |
| `AppSession.AfterTicksIsModular` | App.tsx:353-355 | `n` ticks from a valid index give the index plus `n`, modulo three |
| `AppSession.RotationPeriod` | App.tsx:352-355 | every index returns after exactly three ticks, and not after one or two |
| `AppSession.App.constructor` | App.tsx:347-353 | the view is home, every flag is false and the quote index is 0 |
| `AppSession.App.AboutClick` | App.tsx:363 | the view becomes home and the story modal opens; nothing else changes |
| `AppSession.App.ProjectsClick` | App.tsx:364 | only the view changes, to projects-detail |
| `AppSession.App.ContactClick` | App.tsx:365 | only the view changes, to contact-detail |
| `AppSession.App.PersonalClick` | App.tsx:366 | only the view changes, to personal-space |
| `AppSession.App.Back` | App.tsx:497-501 | only the view changes, to home |
| `AppSession.App.OpenStory` | App.tsx:385 | only the story flag changes, to true |
| `AppSession.App.CloseStory` | App.tsx:370 | only the story flag changes, to false |
| `AppSession.App.OpenNotebook` | App.tsx:470 | only the notebook flag changes, to true |
| `AppSession.App.CloseNotebook` | App.tsx:371 | only the notebook flag changes, to false |
| `AppSession.App.OpenMap` | App.tsx:476 | only the map flag changes, to true |
| `AppSession.App.CloseMap` | App.tsx:372 | only the map flag changes, to false |
| `AppSession.App.SetFocusMode` | App.tsx:503 | only focus mode changes; the navbar, the footer and the particles are shown exactly when it is off |
| `AppSession.App.Tick` | App.tsx:355 | only the quote index changes, to the next one |
| `AppSession.NavigateAndBack` | App.tsx:497-501 | from a fresh session, going to a detail view by its own link (for home, `Back` itself; not About) and then back leaves the initial state |
| `AppSession.AboutThenBack` | App.tsx:363 | from a fresh session, About and then back is home with the story modal still open and every other flag as it started |
| `AppSession.ThreeTicks` | App.tsx:353-355 | from a fresh session the indices are 0, 1, 2 and then 0 again |
| `Personal.WithField` | PersonalSpace.tsx:48 | the named field becomes the value and the other two fields are copied |
| `Personal.WithFieldIdempotent` | PersonalSpace.tsx:48 | writing the same value to the same field twice is the same as writing it once |
| `Personal.KeysDistinct` | PersonalSpace.tsx:39-43 | the roadmap key and the journal key differ |
| `Personal.LoadedRoadmap` | PersonalSpace.tsx:39-40 | a stored roadmap replaces the current one; an absent or empty value keeps it |
| `Personal.LoadedJournal` | PersonalSpace.tsx:43-44 | a stored journal replaces the current one; an absent or empty value keeps it |
| `Personal.ReadAfterWrite` | PersonalSpace.tsx:39-50 | after the roadmap is written, loading returns exactly it, the journal loads as before, and the store's shape is kept |
| `Personal.LocalStore.constructor` | PersonalSpace.tsx:39 | the store holds whatever the browser had saved before the page loaded |
| `Personal.LocalStore.GetItem` | PersonalSpace.tsx:39 | the stored value, or none when the key is absent |
| `Personal.LocalStore.SetItem` | PersonalSpace.tsx:50 | only the value under the key changes |
| `Personal.PersonalSpace.constructor` | PersonalSpace.tsx:20-35 | no timer, no checked items, an all-empty roadmap, an empty journal and an empty current note |
| `Personal.PersonalSpace.Load` | PersonalSpace.tsx:37-45 | the roadmap and the journal become what the store yields for their keys; the rest is kept |
| `Personal.PersonalSpace.SaveRoadmap` | PersonalSpace.tsx:47-50 | the roadmap gets the one field, the store gets the whole new roadmap under the roadmap key, and nothing else changes |
| `Personal.EditThenRemount` | PersonalSpace.tsx:37-50 | after an edit and a remount, the view loads the edited roadmap and the journal it had |

## Left out

- ProjectsDetail.tsx and ContactDetail.tsx: static markup and external links. Their only logic is the `onBack` callback, which is `AppSession.App.Back`.
- The text-completion client and its prompt (App.tsx:32, 89-92) are a foreign network call. The model has only their outcome, as the parameter of `ResolveFetch`.
- Real time. `setTimeout` and `setInterval` are the step methods `SentTimerFires` and `Tick`. `window.scrollTo` on view change and the navbar's scroll listener are presentation side effects.
- `location.reload` (the logo, App.tsx:271) restarts the page: every modelled object starts again from its constructor and only `LocalStore` keeps its items. The model has no reload step.
- Randomness and floating point: the particle positions and the sphere's trigonometry.
- JSON: storage holds decoded documents. Text that does not parse, or a document of the wrong shape under a key, is not modelled, because the code does not guard `JSON.parse`.
- Personal.PersonalSpace.Load: requires each storage key to hold a document of its own shape. The code would store a mistyped value, or throw on text that does not parse.
- Personal.PersonalSpace.SaveRoadmap: the key is one of the three roadmap fields. The code accepts any string and would add an extra property for any other key.
- Notebook.VisitorNotebook.BeginFetch: the topic can be any string. In the code it is always a note of the archive (App.tsx:163).
- Notebook.VisitorNotebook.OverlayVisible: is only the condition at App.tsx:178. The overlay is also inside the notebook's `isOpen` gate (App.tsx:103), and that flag is `AppSession.App.isNotebookOpen`, which is not part of `VisitorNotebook`.
- Which handlers can be reached at a given moment is not modelled. For example, the navbar is hidden in focus mode, and each back button exists only on its own detail view.
- Ownership of components: the notebook component stays mounted while closed, so its state survives a close and a reopen. The personal space remounts, and so reloads from storage, every time its view is entered. The session class does not own either object; `EditThenRemount` models the remount.
- Hover and scroll state (`isHovered`, App.tsx:289-296; `scrolled`, App.tsx:262-266) is presentation and is not modelled.
- The personal space's timer and checklist handlers and journal add and delete do not exist in PersonalSpace.tsx beyond their initial values, which `Personal.PersonalSpace`'s constructor models.
- All animation, styling, icons and copy text.
