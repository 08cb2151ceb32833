/** The visitor notebook (App.tsx, `VisitorNotebook`): a write tab that
    prepends notes to an in-memory archive, a short-lived "sent"
    acknowledgement, and an archive tab whose notes request an encouragement
    text from a text-completion collaborator. The collaborator's answer and the
    2000 ms timer are explicit steps. */
module Notebook {
  import opened Optional
  import opened JsText

  datatype Tab = Write | Archive

  /** What the text-completion call produced: a response whose `text` field
      may be missing, or a thrown error. */
  datatype FetchOutcome = Responded(text: Option<string>) | Failed

  /** The archive the notebook starts with. */
  const SeedNotes: seq<string> := [
    "React'te state yönetimini derinlemesine öğreniyorum.",
    "Arapça gramerine giriş yaptım.",
    "Figma'da auto-layout mantığını çözmeye çalışıyorum.",
    "Python ile veri analizi yapıyorum.",
    "Üç boyutlu modelleme dünyasına yeni bir adım attım.",
    "Algoritmaların çalışma mantığı üzerine kafa yoruyorum.",
    "Go dilinin eşzamanlılık yapısını inceliyorum."
  ]

  /** Shown when the collaborator answers without text. */
  const EmptyResponseFallback: string := "Şu an bağlantı kuramadım ama denemeye devam etmelisin!"
  /** Shown when the collaborator call throws. */
  const FailureFallback: string := "Öğrenme rehberine şu an ulaşılamıyor, ama yolundan şaşma!"

  /** The text the notebook displays for an outcome: `response.text || fallback`
      on success, the other fallback on failure; never empty, never the error. */
  function SuggestionFor(outcome: FetchOutcome): (r: string)
    ensures r != []
    ensures outcome.Responded? && outcome.text.Some? && outcome.text.value != [] ==> r == outcome.text.value
    ensures outcome.Responded? && (outcome.text.None? || outcome.text.value == []) ==> r == EmptyResponseFallback
    ensures outcome.Failed? ==> r == FailureFallback
  {
    match outcome
    case Responded(Some(text)) => if text != [] then text else EmptyResponseFallback
    case Responded(None) => EmptyResponseFallback
    case Failed => FailureFallback
  }

  /** A failure can be told apart from an empty answer: the two fallbacks differ. */
  lemma FailureIsDistinguishable(text: Option<string>)
    requires text.None? || text.value == [] || text.value != FailureFallback
    ensures SuggestionFor(Failed) != SuggestionFor(Responded(text))
  {
  }

  class VisitorNotebook {
    var activeTab: Tab
    var note: string
    var notes: seq<string>
    var isSent: bool
    var selectedNote: Option<string>
    var suggestion: Option<string>
    var isLoadingSuggestion: bool
    /** The notes this visitor submitted, most recent first. */
    ghost var submitted: seq<string>
    /** 2000 ms callbacks scheduled by a submit that have not fired yet. */
    ghost var pendingSentTimers: nat
    /** Collaborator calls issued that have not resolved yet. */
    ghost var pendingFetches: nat

    /** The archive is the visitor's own notes, none of them blank, above the
        seed notes; a shown suggestion is never empty, and the "sent" flag and
        the spinner are each backed by a step that will clear them. */
    ghost predicate Valid()
      reads this
    {
      && notes == submitted + SeedNotes
      && (forall k :: 0 <= k < |submitted| ==> !IsBlank(submitted[k]))
      && (suggestion.Some? ==> suggestion.value != [])
      && (isSent ==> pendingSentTimers > 0)
      && (isLoadingSuggestion ==> pendingFetches > 0)
    }

    /** While the notebook is open, the suggestion overlay is rendered when
        `isLoadingSuggestion || suggestion` is truthy in JavaScript (an empty
        string is falsy). The open flag belongs to the session. */
    predicate OverlayVisible()
      reads this
      ensures Valid() ==> (OverlayVisible() <==> isLoadingSuggestion || suggestion.Some?)
    {
      isLoadingSuggestion || (suggestion.Some? && suggestion.value != [])
    }

    constructor ()
      ensures Valid()
      ensures activeTab == Write && note == [] && notes == SeedNotes && !isSent
      ensures selectedNote == None && suggestion == None && !isLoadingSuggestion
      ensures pendingSentTimers == 0 && pendingFetches == 0
    {
      activeTab := Write;
      note := [];
      notes := SeedNotes;
      submitted := [];
      isSent := false;
      selectedNote := None;
      suggestion := None;
      isLoadingSuggestion := false;
      pendingSentTimers := 0;
      pendingFetches := 0;
    }

    /** The input's `onChange`. */
    method EditNote(text: string)
      requires Valid()
      modifies this
      ensures Valid()
      ensures note == text
      ensures activeTab == old(activeTab) && notes == old(notes) && isSent == old(isSent)
      ensures selectedNote == old(selectedNote) && suggestion == old(suggestion)
      ensures isLoadingSuggestion == old(isLoadingSuggestion)
      ensures pendingSentTimers == old(pendingSentTimers) && pendingFetches == old(pendingFetches)
    {
      note := text;
    }

    /** The two tab buttons. */
    method SelectTab(tab: Tab)
      requires Valid()
      modifies this
      ensures Valid()
      ensures activeTab == tab
      ensures note == old(note) && notes == old(notes) && isSent == old(isSent)
      ensures selectedNote == old(selectedNote) && suggestion == old(suggestion)
      ensures isLoadingSuggestion == old(isLoadingSuggestion)
      ensures pendingSentTimers == old(pendingSentTimers) && pendingFetches == old(pendingFetches)
    {
      activeTab := tab;
    }

    /** `handleSubmit`: a blank input changes nothing; otherwise the untrimmed
        input becomes the head of the archive, the input clears, the
        acknowledgement shows and one 2000 ms callback is scheduled. */
    method Submit()
      requires Valid()
      modifies this
      ensures Valid()
      ensures IsBlank(old(note)) ==> unchanged(this)
      ensures !IsBlank(old(note)) ==>
        && notes == [old(note)] + old(notes)
        && note == [] && isSent
        && submitted == [old(note)] + old(submitted)
        && pendingSentTimers == old(pendingSentTimers) + 1
      ensures !IsBlank(old(note)) ==>
        && activeTab == old(activeTab) && selectedNote == old(selectedNote)
        && suggestion == old(suggestion) && isLoadingSuggestion == old(isLoadingSuggestion)
        && pendingFetches == old(pendingFetches)
    {
      if !IsBlank(note) {
        notes := [note] + notes;
        submitted := [note] + submitted;
        note := [];
        isSent := true;
        pendingSentTimers := pendingSentTimers + 1;
      }
    }

    /** The callback scheduled by a submit, 2000 ms later: hides the
        acknowledgement and switches to the archive, whatever happened since. */
    method SentTimerFires()
      requires Valid()
      requires pendingSentTimers > 0
      modifies this
      ensures Valid()
      ensures !isSent && activeTab == Archive
      ensures pendingSentTimers == old(pendingSentTimers) - 1
      ensures note == old(note) && notes == old(notes)
      ensures selectedNote == old(selectedNote) && suggestion == old(suggestion)
      ensures isLoadingSuggestion == old(isLoadingSuggestion) && pendingFetches == old(pendingFetches)
    {
      isSent := false;
      activeTab := Archive;
      pendingSentTimers := pendingSentTimers - 1;
    }

    /** The synchronous part of `fetchLearningSuggestion(topic)`, run when an
        archived note is clicked. */
    method BeginFetch(topic: string)
      requires Valid()
      modifies this
      ensures Valid()
      ensures selectedNote == Some(topic) && isLoadingSuggestion && suggestion == None
      ensures pendingFetches == old(pendingFetches) + 1
      ensures OverlayVisible()
      ensures activeTab == old(activeTab) && note == old(note) && notes == old(notes)
      ensures isSent == old(isSent) && pendingSentTimers == old(pendingSentTimers)
    {
      selectedNote := Some(topic);
      isLoadingSuggestion := true;
      suggestion := None;
      pendingFetches := pendingFetches + 1;
    }

    /** The continuation of some pending `fetchLearningSuggestion` call. There
        is no generation token: whichever call resolves writes its text, even
        when a newer note has been selected since, or the overlay dismissed. */
    method ResolveFetch(outcome: FetchOutcome)
      requires Valid()
      requires pendingFetches > 0
      modifies this
      ensures Valid()
      ensures suggestion == Some(SuggestionFor(outcome)) && !isLoadingSuggestion
      ensures pendingFetches == old(pendingFetches) - 1
      ensures OverlayVisible()
      ensures selectedNote == old(selectedNote)
      ensures activeTab == old(activeTab) && note == old(note) && notes == old(notes)
      ensures isSent == old(isSent) && pendingSentTimers == old(pendingSentTimers)
    {
      suggestion := Some(SuggestionFor(outcome));
      isLoadingSuggestion := false;
      pendingFetches := pendingFetches - 1;
    }

    /** The overlay's close button. */
    method Dismiss()
      requires Valid()
      modifies this
      ensures Valid()
      ensures suggestion == None && !isLoadingSuggestion && !OverlayVisible()
      ensures selectedNote == old(selectedNote) && notes == old(notes)
      ensures activeTab == old(activeTab) && note == old(note) && isSent == old(isSent)
      ensures pendingSentTimers == old(pendingSentTimers) && pendingFetches == old(pendingFetches)
    {
      suggestion := None;
      isLoadingSuggestion := false;
    }
  }

  /** A visitor submits `text`, then the acknowledgement timer fires: the text
      heads the archive, the input is empty and the archive tab is shown. */
  method SubmitScenario(text: string) returns (head: string, input: string, tab: Tab, sent: bool, count: nat)
    requires !IsBlank(text)
    ensures head == text && input == [] && tab == Archive && !sent
    ensures count == |SeedNotes| + 1
  {
    var n := new VisitorNotebook();
    n.EditNote(text);
    n.Submit();
    assert n.isSent && n.pendingSentTimers == 1;
    n.SentTimerFires();
    head, input, tab, sent, count := n.notes[0], n.note, n.activeTab, n.isSent, |n.notes|;
  }

  /** A visitor opens the archive, clicks the Go note and the collaborator
      fails: the failure fallback is shown, not the empty-answer one, and the
      overlay condition holds (it is drawn while the notebook is open). */
  method FailureScenario() returns (selected: Option<string>, shown: Option<string>, visible: bool)
    ensures selected == Some("Go dilinin eşzamanlılık yapısını inceliyorum.")
    ensures shown == Some(FailureFallback) && shown != Some(EmptyResponseFallback)
    ensures visible
  {
    var n := new VisitorNotebook();
    n.SelectTab(Archive);
    n.BeginFetch(n.notes[6]);
    n.ResolveFetch(Failed);
    selected, shown, visible := n.selectedNote, n.suggestion, n.OverlayVisible();
  }

  /** Two notes are clicked before either answer arrives and the answer to
      the first click arrives last: its text is what stays on screen, next to
      the second note's selection. The notebook is last-response-wins. */
  method StaleResponseScenario(first: string, second: string, firstText: string, secondText: string)
    returns (selected: Option<string>, shown: Option<string>)
    requires firstText != []
    ensures selected == Some(second) && shown == Some(firstText)
  {
    var n := new VisitorNotebook();
    n.BeginFetch(first);
    n.BeginFetch(second);
    n.ResolveFetch(Responded(Some(secondText)));
    n.ResolveFetch(Responded(Some(firstText)));
    selected, shown := n.selectedNote, n.suggestion;
  }
}
