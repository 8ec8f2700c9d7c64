/** The page's state and the handlers that change it: running a dashboard template,
    running a typed or remembered question, leaving a result, and switching source. */
module App {
  import opened Domain
  import opened Text
  import opened Templates
  import opened Executor
  import opened Intent
  import opened Pipeline
  import History

  datatype AppState = AppState(
    dataSource: DataSource,
    query: string,
    isLoading: bool,
    activeResult: Option<QueryResult>,
    history: seq<string>)

  /** The page as it first renders. */
  const Initial := AppState(SageIntacct7, "", false, None, [])

  /** The history is duplicate-free and at most ten long, and a shown result is well shaped. */
  predicate Valid(s: AppState)
  {
    && Distinct(s.history)
    && |s.history| <= History.Limit
    && (s.activeResult.Some? ==> WellShaped(s.activeResult.value))
  }

  lemma InitialValid()
    ensures Valid(Initial)
  {
  }

  /** What a run does before it waits for the answer: the spinner is on, the question is
      in the input and at the head of the history, and the old result is gone. */
  function Begin(s: AppState, text: string): (s': AppState)
    ensures s'.isLoading && s'.activeResult.None? && s'.query == text
    ensures s'.history == History.Add(s.history, text) && s'.history[0] == text
    ensures s'.dataSource == s.dataSource
    ensures Valid(s) ==> Valid(s')
  {
    s.(isLoading := true, query := text, history := History.Add(s.history, text), activeResult := None)
  }

  /** What a run does once the answer arrives. */
  function Finish(s: AppState, r: QueryResult): (s': AppState)
    requires WellShaped(r)
    ensures !s'.isLoading && s'.activeResult == Some(r)
    ensures s'.query == s.query && s'.history == s.history && s'.dataSource == s.dataSource
    ensures Valid(s) ==> Valid(s')
  {
    s.(isLoading := false, activeResult := Some(r))
  }

  /** What a run does when its handler throws: the spinner stops and the cleared
      result stays cleared. */
  function Fail(s: AppState): (s': AppState)
    ensures !s'.isLoading && s'.activeResult == s.activeResult
    ensures s'.query == s.query && s'.history == s.history && s'.dataSource == s.dataSource
    ensures Valid(s) ==> Valid(s')
  {
    s.(isLoading := false)
  }

  /** A run that throws ends with no result shown, yet its question is recorded. */
  lemma FailedRunShowsNothing(s: AppState, text: string)
    ensures var s' := Fail(Begin(s, text));
      !s'.isLoading && s'.activeResult.None? && s'.query == text && s'.history[0] == text
  {
  }

  /** Clicking a dashboard tile. An unknown id leaves the page alone; otherwise the
      tile's description becomes the question and its SQL for the current source is
      executed. `fault` stands for the request failing. */
  function RunTemplate(s: AppState, id: string, fault: bool): (s': AppState)
    ensures Find(id).None? ==> s' == s
    ensures Find(id).Some? ==>
      var t := Find(id).value;
      && !s'.isLoading && s'.query == t.Description()
      && s'.history == History.Add(s.history, t.Description())
      && s'.activeResult.Some?
      && s'.activeResult == Some(Execute(Sql(t, s.dataSource), fault))
    ensures s'.dataSource == s.dataSource
    ensures Valid(s) ==> Valid(s')
  {
    match Find(id)
    case None => s
    case Some(t) => Finish(Begin(s, t.Description()), Execute(Sql(t, s.dataSource), fault))
  }

  /** A tile's result shows the columns of the answer its template is meant to reach. */
  lemma TemplateRunShows(s: AppState, t: Template, fault: bool)
    ensures RunTemplate(s, t.Id(), fault).activeResult.Some?
    ensures RunTemplate(s, t.Id(), fault).activeResult.value.columns
      == ColumnsOf(ExpectedOutcome(t, s.dataSource, fault))
  {
    FindRoundTrip(t);
    TemplateRouting(t, s.dataSource, fault);
  }

  /** Running a question typed into the search bar or picked from the history. */
  function RunQuery(s: AppState, text: string, fault: bool): (s': AppState)
    ensures !s'.isLoading && s'.query == text
    ensures s'.history == History.Add(s.history, text) && s'.history[0] == text
    ensures s'.activeResult.Some? && s'.activeResult.value.sql == QuestionSql(text, s.dataSource)
    ensures s'.activeResult.value.columns == ColumnsOf(Classify(QuestionSql(text, s.dataSource), fault))
    ensures Resolve(text).None? ==> s'.activeResult.value.columns == ["Message"]
    ensures s'.dataSource == s.dataSource
    ensures Valid(s) ==> Valid(s')
  {
    assert Resolve(text).None? ==> Classify(QuestionSql(text, s.dataSource), fault) == Stub by {
      if Resolve(text).None? {
        UnresolvedQuestionRouting(text, s.dataSource, fault);
      }
    }
    Finish(Begin(s, text), Execute(QuestionSql(text, s.dataSource), fault))
  }

  /** Submitting the search form: a blank question is ignored. */
  function Search(s: AppState, fault: bool): (s': AppState)
    ensures Trim(s.query) == [] ==> s' == s
    ensures Trim(s.query) != [] ==> s' == RunQuery(s, s.query, fault)
    ensures Valid(s) ==> Valid(s')
  {
    if Trim(s.query) == [] then s else RunQuery(s, s.query, fault)
  }

  /** The user's actions. */
  datatype Event =
    | Type(text: string)
    | SelectSource(source: DataSource)
    | ClickTemplate(id: string, fault: bool)
    | Submit(fault: bool)
    | ClickHistory(index: nat, fault: bool)
    | ClickFollowUp(index: nat, fault: bool)
    | Back

  /** The dashboard, with its template tiles, fills the page: no run is waiting and
      no result is shown. */
  predicate OnDashboard(s: AppState)
  {
    !s.isLoading && s.activeResult.None?
  }

  /** The full result view, with its back button and suggested follow-ups, is on
      screen: a result with rows and no run waiting. */
  predicate OnFullResult(s: AppState)
  {
    !s.isLoading && s.activeResult.Some? && s.activeResult.value.data != []
  }

  /** The page after an action. Each control acts only while it is on screen: a tile
      on the dashboard, a history entry while no result is shown, the back button and
      a follow-up in the full result view. Every action keeps the page valid. A run
      starts and finishes within one action, so no action leaves the spinner on. An
      action that touches the history puts the question now in the input at its head. */
  function Step(s: AppState, e: Event): (s': AppState)
    ensures Valid(s) ==> Valid(s')
    ensures !s.isLoading ==> !s'.isLoading
    ensures s'.history == s.history || (s'.history != [] && s'.history[0] == s'.query)
    ensures s'.dataSource == s.dataSource || e.SelectSource?
  {
    match e
    case Type(text) => s.(query := text)
    case SelectSource(source) => s.(dataSource := source)
    case ClickTemplate(id, fault) => if OnDashboard(s) then RunTemplate(s, id, fault) else s
    case Submit(fault) => Search(s, fault)
    case ClickHistory(i, fault) =>
      if s.activeResult.None? && i < |s.history| then RunQuery(s, s.history[i], fault) else s
    case ClickFollowUp(i, fault) =>
      if OnFullResult(s) && s.activeResult.value.followUps.Some?
         && i < |s.activeResult.value.followUps.value|
      then RunQuery(s, s.activeResult.value.followUps.value[i], fault)
      else s
    case Back => if OnFullResult(s) then s.(activeResult := None) else s
  }

  function Replay(s: AppState, events: seq<Event>): AppState
    decreases |events|
  {
    if events == [] then s else Replay(Step(s, events[0]), events[1..])
  }

  /** Any session from a valid, settled page ends valid and settled. Each run of the
      model starts and finishes within one action, so no spinner is left between
      actions. */
  lemma {:induction false} ReplayValid(s: AppState, events: seq<Event>)
    requires Valid(s) && !s.isLoading
    ensures Valid(Replay(s, events)) && !Replay(s, events).isLoading
    decreases |events|
  {
    if events != [] {
      ReplayValid(Step(s, events[0]), events[1..]);
    }
  }

  /** Re-running a question from the history does not grow the history. */
  lemma HistoryClickKeepsLength(s: AppState, i: nat, fault: bool)
    requires Valid(s) && s.activeResult.None? && i < |s.history|
    ensures Step(s, ClickHistory(i, fault)).history
      == [s.history[i]] + s.history[..i] + s.history[i + 1..]
  {
    History.AddExisting(s.history, s.history[i], i);
  }

  /** The back button clears the shown result and keeps everything else; where the
      button is not on screen nothing happens. */
  lemma BackKeepsQuestion(s: AppState)
    ensures OnFullResult(s) ==> Step(s, Back).activeResult.None?
    ensures !OnFullResult(s) ==> Step(s, Back) == s
    ensures Step(s, Back).(activeResult := s.activeResult) == s
  {
  }
}
