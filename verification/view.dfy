/** The decisions the results panel and the page make about what to show: which
    screen, whether the metric row and trend badges appear, how each table cell is
    formatted, and whether the results panel or the dashboard fills the page. */
module View {
  import opened Domain
  import opened Text
  import opened Executor
  import Intent
  import App

  /** The three states of the results panel, plus rendering nothing. */
  datatype Screen = Loading | SummaryOnly(summary: string) | Blank | Full

  /** The panel's state. `result` is `None` while the first answer of a run is awaited.
      A summary counts only when it is a non-empty string. */
  function ScreenFor(result: Option<QueryResult>, isLoading: bool): (v: Screen)
    ensures v == Loading <==> isLoading
    ensures v == Full <==> !isLoading && result.Some? && result.value.data != []
    ensures v.SummaryOnly? <==>
      && !isLoading && result.Some? && result.value.data == []
      && result.value.summary.Some? && result.value.summary.value != []
    ensures v.SummaryOnly? ==> v.summary == result.value.summary.value
  {
    if isLoading then Loading
    else if result.None? || result.value.data == [] then
      if result.Some? && result.value.summary.Some? && result.value.summary.value != []
      then SummaryOnly(result.value.summary.value)
      else Blank
    else Full
  }

  /** An executor answer is never shown as a blank panel: only the error answer has
      no rows, and it is shown by its summary. */
  lemma AnswersAreNeverBlank(sql: string, fault: bool)
    ensures var v := ScreenFor(Some(Execute(sql, fault)), false);
      && v != Blank
      && (v.SummaryOnly? <==> Classify(sql, fault) == Failure)
  {
  }

  /** The headline-metric row is part of the full view and appears only for a
      non-empty metric list: it is never shown beside the spinner or a lone summary. */
  predicate ShowsKpiRow(result: Option<QueryResult>, isLoading: bool)
    ensures ShowsKpiRow(result, isLoading) ==>
      !isLoading && result.Some? && result.value.data != [] && result.value.kpi.Some?
  {
    && ScreenFor(result, isLoading) == Full
    && result.value.kpi.Some? && |result.value.kpi.value| > 0
  }

  /** Of the executor's answers, exactly the three canned data sets show metrics. */
  lemma KpiRowOnlyForCannedData(sql: string, fault: bool)
    ensures ShowsKpiRow(Some(Execute(sql, fault)), false) <==> Classify(sql, fault).Canned?
  {
  }

  datatype Arrow = ArrowUp | ArrowDown
  datatype Tone = Emerald | Rose | Muted

  /** A trend badge: its colour, its arrow and the trend description it carries. */
  datatype Badge = Badge(tone: Tone, arrow: Arrow, text: Option<string>)

  /** The badge of a metric. Any trend, neutral included, shows a badge; only an upward
      trend points up. */
  function BadgeFor(k: Kpi): (b: Option<Badge>)
    ensures b.Some? <==> k.trend.Some?
    ensures b.Some? ==> b.value.text == k.trendValue
    ensures b.Some? ==> (b.value.arrow == ArrowUp <==> k.trend == Some(Up))
  {
    match k.trend
    case None => None
    case Some(t) =>
      var tone := match t
        case Up => Emerald
        case Down => Rose
        case Neutral => Muted;
      Some(Badge(tone, if t == Up then ArrowUp else ArrowDown, k.trendValue))
  }

  /** A neutral trend has the downward arrow; only the colour tells it from a fall. */
  lemma NeutralBadgeDiffersOnlyInTone(k: Kpi, k': Kpi)
    requires k.trend == Some(Neutral) && k'.trend == Some(Down)
    ensures BadgeFor(k).value.arrow == BadgeFor(k').value.arrow
    ensures BadgeFor(k).value.tone != BadgeFor(k').value.tone
  {
  }

  /** The colour alone identifies the trend. */
  lemma ToneIdentifiesTrend(k: Kpi, k': Kpi)
    requires BadgeFor(k).Some? && BadgeFor(k').Some?
    requires BadgeFor(k).value.tone == BadgeFor(k').value.tone
    ensures k.trend == k'.trend
  {
  }

  /** A table cell: passed to the currency formatter, or shown as text. The value is
      `None` when the row has no entry for the column. */
  datatype Cell = CurrencyCell(value: Option<Value>) | TextCell(value: Option<Value>)

  predicate IsNumber(v: Option<Value>)
  {
    v.Some? && v.value.Num?
  }

  /** The column name mentions spend, revenue or money due. */
  predicate MoneyWord(c: string)
  {
    Contains(c, "spend") || Contains(c, "revenue") || Contains(c, "due")
  }

  /** The currency test as the table writes it: `&&` binds tighter than `||`, so the
      number check guards only the "amount" test. */
  predicate CurrencyRule(col: string, v: Option<Value>)
    ensures IsNumber(v) ==> (CurrencyRule(col, v) <==> Contains(ToLower(col), "amount") || MoneyWord(ToLower(col)))
    ensures !IsNumber(v) ==> (CurrencyRule(col, v) <==> MoneyWord(ToLower(col)))
  {
    var c := ToLower(col);
    (IsNumber(v) && Contains(c, "amount")) || MoneyWord(c)
  }

  /** The reading in which the number check guards every keyword. */
  predicate NumericCurrencyRule(col: string, v: Option<Value>)
  {
    var c := ToLower(col);
    IsNumber(v) && (Contains(c, "amount") || MoneyWord(c))
  }

  /** The two readings part exactly on a non-number in a spend, revenue or due column. */
  lemma ReadingsDiffer(col: string, v: Option<Value>)
    ensures CurrencyRule(col, v) != NumericCurrencyRule(col, v) <==> !IsNumber(v) && MoneyWord(ToLower(col))
  {
  }

  lemma NoMoneyWord(c: string)
    requires 'p' !in c && 'v' !in c && 'd' !in c
    ensures !MoneyWord(c)
  {
    MissingCharExcludes(c, "spend", 'p');
    MissingCharExcludes(c, "revenue", 'v');
    MissingCharExcludes(c, "due", 'd');
  }

  lemma CustomernamePlain() ensures !MoneyWord(ToLower("Customername"))
  {
    assert ToLower("Customername") == "customername";
    NoMoneyWord("customername");
  }

  lemma VendornamePlain() ensures !MoneyWord(ToLower("Vendorname"))
  {
    var c := ToLower("Vendorname");
    assert c == "vendorname";
    MissingCharExcludes(c, "spend", 'p');
    MissingCharExcludes(c, "revenue", 'u');
    MissingCharExcludes(c, "due", 'u');
  }

  lemma TypePlain() ensures !MoneyWord(ToLower("Type"))
  {
    var c := ToLower("Type");
    assert c == "type";
    MissingCharExcludes(c, "spend", 's');
    MissingCharExcludes(c, "revenue", 'v');
    MissingCharExcludes(c, "due", 'd');
  }

  lemma MessagePlain() ensures !MoneyWord(ToLower("Message"))
  {
    assert ToLower("Message") == "message";
    NoMoneyWord("message");
  }

  lemma ResultPlain() ensures !MoneyWord(ToLower("Result"))
  {
    assert ToLower("Result") == "result";
    NoMoneyWord("result");
  }

  /** The executor's text values sit in the name and message columns, which mention no
      money word, so on its answers the two readings agree. */
  lemma NameColumnsAgree(col: string, v: Option<Value>)
    requires col in ["Customername", "Vendorname", "Type", "Message", "Result"]
    ensures CurrencyRule(col, v) == NumericCurrencyRule(col, v)
  {
    if col == "Customername" {
      CustomernamePlain();
    } else if col == "Vendorname" {
      VendornamePlain();
    } else if col == "Type" {
      TypePlain();
    } else if col == "Message" {
      MessagePlain();
    } else {
      ResultPlain();
    }
  }

  function Lookup(row: Row, col: string): Option<Value>
  {
    if col in row then Some(row[col]) else None
  }

  function RenderCell(row: Row, col: string): (c: Cell)
    ensures c.value == Lookup(row, col)
  {
    var v := Lookup(row, col);
    if CurrencyRule(col, v) then CurrencyCell(v) else TextCell(v)
  }

  /** A column named for spend, revenue or money due is formatted as currency whatever
      its value holds, text included. */
  lemma MoneyColumnsFormatAnyValue(row: Row, col: string)
    requires MoneyWord(ToLower(col))
    ensures RenderCell(row, col).CurrencyCell?
  {
  }

  /** A column named only for an amount is formatted as currency exactly when it holds
      a number. */
  lemma AmountColumnsNeedNumbers(row: Row, col: string)
    requires var c := ToLower(col); Contains(c, "amount") && !MoneyWord(c)
    ensures RenderCell(row, col).CurrencyCell? <==> IsNumber(Lookup(row, col))
  {
  }

  /** A column that names no money keyword is always text. */
  lemma OtherColumnsAreText(row: Row, col: string)
    requires var c := ToLower(col); !Contains(c, "amount") && !MoneyWord(c)
    ensures RenderCell(row, col).TextCell?
  {
  }

  /** The table body: one line per row, one cell per column, in column order. */
  function Table(r: QueryResult): (t: seq<seq<Cell>>)
    ensures |t| == |r.data|
    ensures forall i | 0 <= i < |t| :: |t[i]| == |r.columns|
    ensures forall i, j | 0 <= i < |t| && 0 <= j < |r.columns| :: t[i][j].value == Lookup(r.data[i], r.columns[j])
  {
    seq(|r.data|, i requires 0 <= i < |r.data| =>
      seq(|r.columns|, j requires 0 <= j < |r.columns| => RenderCell(r.data[i], r.columns[j])))
  }

  /** The "N rows" label counts the table's lines. */
  function RowCount(r: QueryResult): (n: nat)
    ensures n == |Table(r)|
  {
    |r.data|
  }

  /** In a well-shaped result no cell is missing its value. */
  lemma WellShapedTableIsFull(r: QueryResult)
    requires WellShaped(r)
    ensures forall i, j | 0 <= i < |r.data| && 0 <= j < |r.columns| :: Table(r)[i][j].value.Some?
  {
    forall i, j | 0 <= i < |r.data| && 0 <= j < |r.columns|
      ensures Table(r)[i][j].value.Some?
    {
      assert r.columns[j] in ColumnSet(r.columns);
    }
  }

  // What the page puts in its main area, and when the recent questions are listed.

  datatype Panel = ResultsPanel | DashboardPanel

  /** The dashboard, and with it the template tiles, is shown exactly when the page is
      on the dashboard, and only when the results panel would render nothing. */
  function MainPanel(s: App.AppState): (p: Panel)
    ensures p == DashboardPanel <==> App.OnDashboard(s)
    ensures p == DashboardPanel ==> ScreenFor(s.activeResult, s.isLoading) == Blank
  {
    if s.activeResult.Some? || s.isLoading then ResultsPanel else DashboardPanel
  }

  /** The recent questions are listed while no result is shown: above the dashboard
      or the spinner, never beside an answer. */
  predicate ShowsHistory(s: App.AppState)
    ensures ShowsHistory(s) ==> MainPanel(s) == DashboardPanel || s.isLoading
    ensures ShowsHistory(s) ==>
      ScreenFor(s.activeResult, s.isLoading) == Loading || ScreenFor(s.activeResult, s.isLoading) == Blank
  {
    s.activeResult.None? && |s.history| > 0
  }

  /** While a run waits for its answer the results panel shows the spinner, and the
      question just asked is listed first. */
  lemma RunningShowsSpinner(s: App.AppState, text: string)
    ensures var s' := App.Begin(s, text);
      && MainPanel(s') == ResultsPanel
      && ScreenFor(s'.activeResult, s'.isLoading) == Loading
      && ShowsHistory(s') && s'.history[0] == text
  {
  }

  /** After a question is answered the results panel shows its rows or its summary,
      and the history list is hidden. */
  lemma AnsweredShowsResult(s: App.AppState, text: string, fault: bool)
    ensures var s' := App.RunQuery(s, text, fault);
      && MainPanel(s') == ResultsPanel
      && ScreenFor(s'.activeResult, s'.isLoading) != Blank
      && !ShowsHistory(s')
  {
    AnswersAreNeverBlank(Intent.QuestionSql(text, s.dataSource), fault);
  }

  /** Going back from the full result view returns to the dashboard with the history
      listed; on the dashboard there is no back button and nothing changes. */
  lemma BackShowsDashboard(s: App.AppState)
    requires App.OnFullResult(s) || App.OnDashboard(s)
    requires s.history != []
    ensures MainPanel(App.Step(s, App.Back)) == DashboardPanel
    ensures ShowsHistory(App.Step(s, App.Back))
  {
  }
}
