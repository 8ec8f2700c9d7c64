/** The shared domain types of the copilot: who is asking, which accounting
    backend answers, and the shape of a query result. */
module Domain {

  datatype Option<+T> = None | Some(value: T)

  /** The user roles offered by the persona selector. */
  datatype Persona = CFO | Controller | APClerk | ARClerk
  {
    /** The string the front end stores for the persona. */
    function Name(): string
    {
      match this
      case CFO => "CFO"
      case Controller => "Controller"
      case APClerk => "AP Clerk"
      case ARClerk => "AR Clerk"
    }
  }

  /** Reads a stored persona string back; only the four persona names are accepted. */
  function ParsePersona(s: string): (r: Option<Persona>)
    ensures r.Some? ==> r.value.Name() == s
    ensures r.None? ==> forall p: Persona :: p.Name() != s
  {
    if s == "CFO" then Some(CFO)
    else if s == "Controller" then Some(Controller)
    else if s == "AP Clerk" then Some(APClerk)
    else if s == "AR Clerk" then Some(ARClerk)
    else None
  }

  /** The persona type is closed: every stored name reads back as the persona it names. */
  lemma PersonaRoundTrip(p: Persona)
    ensures ParsePersona(p.Name()) == Some(p)
  {
  }

  /** The accounting backends a query can be addressed to. */
  datatype DataSource = SageIntacct7 | NetSuite7 | QuickBooks | DynamicsGP | SQLServer
  {
    /** The string the front end stores for the data source. */
    function Id(): string
    {
      match this
      case SageIntacct7 => "SageIntacct7"
      case NetSuite7 => "NetSuite7"
      case QuickBooks => "QuickBooks"
      case DynamicsGP => "DynamicsGP"
      case SQLServer => "SQLServer"
    }

    /** The label shown for the data source by the header selector and the
        dashboard; a source without a dedicated label shows its identifier. */
    function DisplayName(): string
    {
      if this == SageIntacct7 then "Sage Intacct"
      else if this == NetSuite7 then "NetSuite"
      else if this == DynamicsGP then "Dynamics GP"
      else if this == SQLServer then "SQL Server"
      else Id()
    }
  }

  /** Reads a stored data-source string back; only the five identifiers are accepted. */
  function ParseDataSource(s: string): (r: Option<DataSource>)
    ensures r.Some? ==> r.value.Id() == s
    ensures r.None? ==> forall d: DataSource :: d.Id() != s
  {
    if s == "SageIntacct7" then Some(SageIntacct7)
    else if s == "NetSuite7" then Some(NetSuite7)
    else if s == "QuickBooks" then Some(QuickBooks)
    else if s == "DynamicsGP" then Some(DynamicsGP)
    else if s == "SQLServer" then Some(SQLServer)
    else None
  }

  lemma DataSourceRoundTrip(d: DataSource)
    ensures ParseDataSource(d.Id()) == Some(d)
  {
  }

  /** No two data sources share a label, so the selector never shows two equal options. */
  lemma DisplayNamesDistinct(d: DataSource, e: DataSource)
    requires d != e
    ensures d.DisplayName() != e.DisplayName()
  {
  }

  datatype Trend = Up | Down | Neutral

  /** A headline metric: its label (`name`) and value are always present, the trend and its
      description are optional. */
  datatype Kpi = Kpi(name: string, value: string, trend: Option<Trend>, trendValue: Option<string>)

  /** A table cell value: the rows only ever hold numbers and strings. */
  datatype Value = Num(x: real) | Str(s: string)

  /** A table row, keyed by column name. */
  type Row = map<string, Value>

  /** What the executor hands back: the query it ran, the rows and their column
      order, and the optional narrative parts. */
  datatype QueryResult = QueryResult(
    sql: string,
    data: seq<Row>,
    columns: seq<string>,
    summary: Option<string>,
    insights: Option<seq<string>>,
    followUps: Option<seq<string>>,
    kpi: Option<seq<Kpi>>)

  /** The position of the first element of `s` that satisfies `f`, the way
      `Array.prototype.find` scans. */
  function FirstIndex<T>(s: seq<T>, f: T -> bool): (r: Option<nat>)
    ensures r.Some? ==> r.value < |s| && f(s[r.value])
    ensures r.Some? ==> forall j :: 0 <= j < r.value ==> !f(s[j])
    ensures r.None? <==> forall i :: 0 <= i < |s| ==> !f(s[i])
  {
    if s == [] then None
    else if f(s[0]) then Some(0)
    else
      match FirstIndex(s[1..], f)
      case None => None
      case Some(i) =>
        assert forall j :: 1 <= j <= i ==> s[j] == s[1..][j - 1];
        Some(i + 1)
  }

  /** The first element of `s` that satisfies `f`. */
  function FirstWhere<T>(s: seq<T>, f: T -> bool): (r: Option<T>)
    ensures r.Some? ==> r.value in s && f(r.value)
    ensures r.None? <==> forall i :: 0 <= i < |s| ==> !f(s[i])
  {
    match FirstIndex(s, f)
    case None => None
    case Some(i) => Some(s[i])
  }

  predicate Distinct<T(==)>(s: seq<T>)
  {
    forall i, j | 0 <= i < j < |s| :: s[i] != s[j]
  }

  function ColumnSet(columns: seq<string>): set<string>
  {
    set c | c in columns
  }

  /** The columns are listed once each, and every row has exactly those keys. */
  predicate WellShaped(r: QueryResult)
  {
    && Distinct(r.columns)
    && forall k | 0 <= k < |r.data| :: r.data[k].Keys == ColumnSet(r.columns)
  }

  datatype Role = User | Assistant

  /** A chat transcript entry; declared by the front end but not used by any of its logic. */
  datatype ChatMessage = ChatMessage(id: string, role: Role, content: string, result: Option<QueryResult>, timestamp: int)
}
