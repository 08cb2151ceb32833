/** The top-level session state of the portfolio (App.tsx, `App`): the
    current view, three overlay flags, the focus mode that the personal space
    can switch on, and the index of the rotating quote. */
module AppSession {

  /** The closed set of screens; the app starts on `Home`. */
  datatype View = Home | ProjectsDetail | ContactDetail | PersonalSpace

  /** The rotating quotes of the hero section. */
  const Sentences: seq<string> := [
    "Hızdan ziyade doğru yöne gitmeye inanıyorum.",
    "Bugün sadece tek bir satır kod yazdım ama o satırı anladım.",
    "Hata yapmak, yolda olduğumun en dürüst kanıtı."
  ]

  /** The interval callback's `(prev + 1) % sentences.length`: the next quote,
      wrapping from the last back to the first. */
  function NextSentence(prev: nat): (r: nat)
    ensures r < |Sentences|
    ensures prev < |Sentences| - 1 ==> r == prev + 1
    ensures prev == |Sentences| - 1 ==> r == 0
  {
    (prev + 1) % |Sentences|
  }

  /** The quote index after `n` interval ticks from `start`. */
  function AfterTicks(start: nat, n: nat): nat
  {
    if n == 0 then start else NextSentence(AfterTicks(start, n - 1))
  }

  /** `n` ticks advance a valid index by `n` modulo the number of quotes. */
  lemma {:induction false} AfterTicksIsModular(start: nat, n: nat)
    requires start < |Sentences|
    ensures AfterTicks(start, n) == (start + n) % |Sentences|
  {
    if n > 0 {
      AfterTicksIsModular(start, n - 1);
    }
  }

  /** The rotation has period three: every index comes back after three ticks. */
  lemma RotationPeriod(start: nat, n: nat)
    requires start < |Sentences|
    ensures AfterTicks(start, 3 * n) == start
    ensures AfterTicks(start, 3 * n + 1) != start && AfterTicks(start, 3 * n + 2) != start
  {
    AfterTicksIsModular(start, 3 * n);
    AfterTicksIsModular(start, 3 * n + 1);
    AfterTicksIsModular(start, 3 * n + 2);
  }

  /** A snapshot of the session's hook-held state. */
  datatype Session = Session(
    view: View,
    isStoryOpen: bool,
    isNotebookOpen: bool,
    isMapOpen: bool,
    isFocusMode: bool,
    sentenceIndex: nat)

  class App {
    var view: View
    var isStoryOpen: bool
    var isNotebookOpen: bool
    var isMapOpen: bool
    var isFocusMode: bool
    var sentenceIndex: nat

    ghost predicate Valid()
      reads this
    {
      sentenceIndex < |Sentences|
    }

    ghost function State(): Session
      reads this
    {
      Session(view, isStoryOpen, isNotebookOpen, isMapOpen, isFocusMode, sentenceIndex)
    }

    /** The navbar, the footer and the background particles are rendered only
        outside focus mode. */
    predicate ChromeVisible()
      reads this
    {
      !isFocusMode
    }

    constructor ()
      ensures Valid()
      ensures State() == Session(Home, false, false, false, false, 0)
    {
      view := Home;
      isStoryOpen, isNotebookOpen, isMapOpen := false, false, false;
      isFocusMode := false;
      sentenceIndex := 0;
    }

    /** The navbar's About link: back home with the story modal open. */
    method AboutClick()
      requires Valid()
      modifies this
      ensures Valid()
      ensures State() == old(State()).(view := Home, isStoryOpen := true)
    {
      view := Home;
      isStoryOpen := true;
    }

    /** The navbar's Projects link, the hero's Projects button and the
        project cards' detail buttons. */
    method ProjectsClick()
      requires Valid()
      modifies this
      ensures Valid()
      ensures State() == old(State()).(view := ProjectsDetail)
    {
      view := ProjectsDetail;
    }

    /** The navbar's Contact link and the contact section's button. */
    method ContactClick()
      requires Valid()
      modifies this
      ensures Valid()
      ensures State() == old(State()).(view := ContactDetail)
    {
      view := ContactDetail;
    }

    /** The navbar's personal-space button and the home page's portal card. */
    method PersonalClick()
      requires Valid()
      modifies this
      ensures Valid()
      ensures State() == old(State()).(view := PersonalSpace)
    {
      view := PersonalSpace;
    }

    /** The `onBack` handed to each of the three detail views. */
    method Back()
      requires Valid()
      modifies this
      ensures Valid()
      ensures State() == old(State()).(view := Home)
    {
      view := Home;
    }

    /** The hero's "read my story" button. */
    method OpenStory()
      requires Valid()
      modifies this
      ensures Valid()
      ensures State() == old(State()).(isStoryOpen := true)
    {
      isStoryOpen := true;
    }

    method CloseStory()
      requires Valid()
      modifies this
      ensures Valid()
      ensures State() == old(State()).(isStoryOpen := false)
    {
      isStoryOpen := false;
    }

    /** The notebook card of the home page. */
    method OpenNotebook()
      requires Valid()
      modifies this
      ensures Valid()
      ensures State() == old(State()).(isNotebookOpen := true)
    {
      isNotebookOpen := true;
    }

    method CloseNotebook()
      requires Valid()
      modifies this
      ensures Valid()
      ensures State() == old(State()).(isNotebookOpen := false)
    {
      isNotebookOpen := false;
    }

    /** The learning-map card of the home page. */
    method OpenMap()
      requires Valid()
      modifies this
      ensures Valid()
      ensures State() == old(State()).(isMapOpen := true)
    {
      isMapOpen := true;
    }

    method CloseMap()
      requires Valid()
      modifies this
      ensures Valid()
      ensures State() == old(State()).(isMapOpen := false)
    {
      isMapOpen := false;
    }

    /** `setIsFocusMode`, handed to the personal space; leaving the personal
        space does not reset it. */
    method SetFocusMode(on: bool)
      requires Valid()
      modifies this
      ensures Valid()
      ensures State() == old(State()).(isFocusMode := on)
      ensures ChromeVisible() <==> !on
    {
      isFocusMode := on;
    }

    /** One firing of the 8000 ms quote interval. */
    method Tick()
      requires Valid()
      modifies this
      ensures Valid()
      ensures State() == old(State()).(sentenceIndex := NextSentence(old(sentenceIndex)))
    {
      sentenceIndex := NextSentence(sentenceIndex);
    }
  }

  /** From a fresh session, going to a view by its own link (or pressing back
      on home) and then back is home again, with every flag as it started and
      focus mode untouched. The About link is the exception: see
      `AboutThenBack`. */
  method NavigateAndBack(target: View) returns (s: Session)
    ensures s == Session(Home, false, false, false, false, 0)
  {
    var app := new App();
    match target {
      case Home => app.Back();
      case ProjectsDetail => app.ProjectsClick();
      case ContactDetail => app.ContactClick();
      case PersonalSpace => app.PersonalClick();
    }
    app.Back();
    s := Session(app.view, app.isStoryOpen, app.isNotebookOpen, app.isMapOpen, app.isFocusMode, app.sentenceIndex);
  }

  /** About opens the story modal on top of home; going back afterwards does
      not close it. */
  method AboutThenBack() returns (s: Session)
    ensures s == Session(Home, true, false, false, false, 0)
  {
    var app := new App();
    app.AboutClick();
    app.Back();
    s := Session(app.view, app.isStoryOpen, app.isNotebookOpen, app.isMapOpen, app.isFocusMode, app.sentenceIndex);
  }

  /** Three interval ticks from a fresh session show the first quote again. */
  method ThreeTicks() returns (indices: seq<nat>)
    ensures indices == [0, 1, 2, 0]
  {
    var app := new App();
    indices := [app.sentenceIndex];
    app.Tick();
    indices := indices + [app.sentenceIndex];
    app.Tick();
    indices := indices + [app.sentenceIndex];
    app.Tick();
    indices := indices + [app.sentenceIndex];
  }
}
