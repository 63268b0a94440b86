/**
 * The application shell: which page is shown, the id of the last completed
 * survey, whether the header is drawn and which page view is rendered. The
 * page is kept as a string, because the header's navigation callback stores
 * whatever page name it is given.
 */
module App {

  /** The seven page names the shell knows. */
  predicate KnownPage(page: string)
  {
    page in {"home", "survey", "situation", "result", "about", "contact", "reviews"}
  }

  /** The page names the header's menu and logo navigate to. */
  predicate HeaderTarget(page: string)
  {
    page in {"home", "about", "reviews", "contact"}
  }

  /** The page views of the shell, one per known page name. */
  datatype View = HomeView | SurveyView | SituationView | ResultView | AboutView | ContactView | ReviewsView
  {
    /** The page name under which the view is rendered. */
    function PageName(): string
    {
      match this
      case HomeView => "home"
      case SurveyView => "survey"
      case SituationView => "situation"
      case ResultView => "result"
      case AboutView => "about"
      case ContactView => "contact"
      case ReviewsView => "reviews"
    }
  }

  /**
   * Whether the header is drawn: among the seven pages exactly on home, the
   * situation exercise, about, contact and reviews, and on any page name the
   * shell does not know.
   */
  function HeaderVisible(page: string): (visible: bool)
    ensures KnownPage(page) ==> (visible <==> page in {"home", "situation", "about", "contact", "reviews"})
    ensures !KnownPage(page) ==> visible
  {
    page != "survey" && page != "result"
  }

  /**
   * The views rendered for a page name: the shell tests the name against
   * each of the seven pages in turn and renders the view of every test that
   * holds.
   */
  function RenderedViews(page: string): (views: seq<View>)
    ensures |views| <= 1
    ensures |views| == 1 <==> KnownPage(page)
    ensures forall v: View :: v in views <==> v.PageName() == page
  {
    (if page == "home" then [HomeView] else [])
    + (if page == "survey" then [SurveyView] else [])
    + (if page == "situation" then [SituationView] else [])
    + (if page == "result" then [ResultView] else [])
    + (if page == "about" then [AboutView] else [])
    + (if page == "contact" then [ContactView] else [])
    + (if page == "reviews" then [ReviewsView] else [])
  }

  /** Each view is rendered, alone, exactly on its own page. */
  lemma ViewRoundTrip(v: View)
    ensures RenderedViews(v.PageName()) == [v]
  {
    var views := RenderedViews(v.PageName());
    assert v in views;
  }

  /** The header is drawn above every rendered view except the survey and the result. */
  lemma HeaderMatchesView(page: string)
    ensures forall v: View :: RenderedViews(page) == [v] ==> (HeaderVisible(page) <==> v != SurveyView && v != ResultView)
  {
    forall v: View | RenderedViews(page) == [v]
      ensures HeaderVisible(page) <==> v != SurveyView && v != ResultView
    {
      assert v in RenderedViews(page);
    }
  }

  /** The handlers of the shell, as events. */
  datatype Event =
    | StartSurvey
    | SurveyComplete(id: string)
    | SituationComplete
    | BackHome
    | Navigate(page: string)

  /** The shell's state: the current page name and the stored survey id. */
  datatype Shell = Shell(page: string, surveyId: string)

  /** The state on mount: the home page and no survey id. */
  function Initial(): Shell
  {
    Shell("home", "")
  }

  /** The effect of one handler. */
  function Step(s: Shell, e: Event): (t: Shell)
    ensures e.SurveyComplete? ==> t.surveyId == e.id
    ensures !e.SurveyComplete? ==> t.surveyId == s.surveyId
  {
    match e
    case StartSurvey => Shell("survey", s.surveyId)
    case SurveyComplete(id) => Shell("situation", id)
    case SituationComplete => Shell("result", s.surveyId)
    case BackHome => Shell("home", s.surveyId)
    case Navigate(page) => Shell(page, s.surveyId)
  }

  /** The state after the handlers of `events` ran in order from `s`. */
  function Run(s: Shell, events: seq<Event>): Shell
  {
    if events == [] then s else Step(Run(s, events[..|events| - 1]), events[|events| - 1])
  }

  /** The id of the last survey completion in `events`, or `none` if there is none. */
  function LastCompletedId(events: seq<Event>, none: string): string
  {
    if events == [] then none
    else if events[|events| - 1].SurveyComplete? then events[|events| - 1].id
    else LastCompletedId(events[..|events| - 1], none)
  }

  /** The stored survey id is always the id of the last completion, and the initial one before any. */
  lemma {:induction false} SurveyIdIsLastCompletion(s: Shell, events: seq<Event>)
    ensures Run(s, events).surveyId == LastCompletedId(events, s.surveyId)
  {
    if events != [] {
      SurveyIdIsLastCompletion(s, events[..|events| - 1]);
    }
  }

  /**
   * The handlers the rendered page can call: the start button is on the home
   * view, completion and back on the survey view, completion on the
   * situation view, back and home on the survey, situation and result
   * views, and navigation on the header, to one of its targets.
   */
  predicate Enabled(s: Shell, e: Event)
  {
    match e
    case StartSurvey => s.page == "home"
    case SurveyComplete(_) => s.page == "survey"
    case SituationComplete => s.page == "situation"
    case BackHome => s.page in {"survey", "situation", "result"}
    case Navigate(page) => HeaderVisible(s.page) && HeaderTarget(page)
  }

  /** Every event of `events` is one the page rendered before it can call. */
  predicate Feasible(s: Shell, events: seq<Event>)
  {
    events == []
    || (Feasible(s, events[..|events| - 1]) && Enabled(Run(s, events[..|events| - 1]), events[|events| - 1]))
  }

  /**
   * From the initial state, along any feasible sequence of handlers, the
   * page is always one of the seven, so exactly one view is rendered, and the
   * situation and result pages are reached only after a survey completion,
   * showing the id of the last completion.
   */
  lemma FeasibleRunsStayKnown(events: seq<Event>)
    requires Feasible(Initial(), events)
    ensures KnownPage(Run(Initial(), events).page)
    ensures |RenderedViews(Run(Initial(), events).page)| == 1
    ensures Run(Initial(), events).page in {"situation", "result"} ==>
      exists i :: 0 <= i < |events| && events[i] == SurveyComplete(Run(Initial(), events).surveyId)
    ensures Run(Initial(), events).page in {"situation", "result"} ==>
      Run(Initial(), events).surveyId == LastCompletedId(events, "")
  {
    SurveyIdIsLastCompletion(Initial(), events);
  }

  /** The shell as the page holds it: the two state fields the handlers set. */
  class AppShell {
    var currentPage: string
    var surveyId: string

    /** The state as a value. */
    function State(): Shell
      reads this
    {
      Shell(currentPage, surveyId)
    }

    constructor ()
      ensures State() == Initial()
    {
      currentPage := "home";
      surveyId := "";
    }

    /** The home page's start button opens the survey. */
    method HandleStartSurvey()
      modifies this
      ensures State() == Step(old(State()), StartSurvey)
      ensures currentPage == "survey" && surveyId == old(surveyId)
    {
      currentPage := "survey";
    }

    /** A finished survey stores its id and opens the situation exercise. */
    method HandleSurveyComplete(id: string)
      modifies this
      ensures State() == Step(old(State()), SurveyComplete(id))
      ensures currentPage == "situation" && surveyId == id
    {
      surveyId := id;
      currentPage := "situation";
    }

    /** A finished situation exercise opens the result of the stored survey. */
    method HandleSituationComplete()
      modifies this
      ensures State() == Step(old(State()), SituationComplete)
      ensures currentPage == "result" && surveyId == old(surveyId)
    {
      currentPage := "result";
    }

    /** Every back and home handler (from the survey, the situation exercise and the result) opens home. */
    method HandleBackHome()
      modifies this
      ensures State() == Step(old(State()), BackHome)
      ensures currentPage == "home" && surveyId == old(surveyId)
    {
      currentPage := "home";
    }

    /** The header's navigation stores the page name it is given, unchecked. */
    method HandleNavigate(page: string)
      modifies this
      ensures State() == Step(old(State()), Navigate(page))
      ensures currentPage == page && surveyId == old(surveyId)
    {
      currentPage := page;
    }
  }
}
