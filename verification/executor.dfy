/** The query executor of the demo: a statement that is a comment gets the stub
    answer, a transport failure gets the error answer, and anything else is matched
    against three substring patterns to pick a canned result. */
module Executor {
  import opened Domain
  import opened Text

  /** The executor answers with the stub when the trimmed statement starts with "--":
      exactly when "--" follows the leading whitespace, and then "--" occurs in it. */
  predicate IsComment(sql: string)
    ensures IsComment(sql) <==> StartsWith(TrimStart(sql), "--")
    ensures IsComment(sql) ==> Contains(sql, "--")
  {
    TrimStartsWithDashes(sql);
    var k := |sql| - |TrimStart(sql)|;
    assert StartsWith(TrimStart(sql), "--") ==> OccursAt(sql, "--", k) by {
      if StartsWith(TrimStart(sql), "--") {
        assert sql[k..k + 2] == TrimStart(sql)[..2];
      }
    }
    StartsWith(Trim(sql), "--")
  }

  lemma IsCommentUnpadded(sql: string)
    requires sql != [] && !IsWhitespace(sql[0])
    ensures IsComment(sql) <==> StartsWith(sql, "--")
  {
    TrimStartUnpadded(sql);
    TrimStartsWithDashes(sql);
  }

  /** A statement that starts with a known non-blank prefix is a comment exactly when
      it starts with "--". */
  lemma IsCommentAfterPrefix(sql: string, p: string)
    requires StartsWith(sql, p) && p != [] && !IsWhitespace(p[0])
    ensures IsComment(sql) <==> StartsWith(sql, "--")
  {
    assert sql[0] == sql[..|p|][0];
    IsCommentUnpadded(sql);
  }

  /** The canned data sets, in the order the executor tries them. */
  datatype Pattern = ArAgingData | VendorSpendData | CashFlowData

  const Patterns: seq<Pattern> := [ArAgingData, VendorSpendData, CashFlowData]

  /** The substrings that select each data set. Every pattern needs the receivables
      or payables table name, or the "Cash Flow" label. */
  predicate Matches(p: Pattern, sql: string)
    ensures Matches(p, sql) ==>
      Contains(sql, "Arinvoice") || Contains(sql, "Apbill") || Contains(sql, "Cash Flow")
  {
    match p
    case ArAgingData => Contains(sql, "Arinvoice") && Contains(sql, "Whendue <")
    case VendorSpendData => Contains(sql, "Apbill") && Contains(sql, "TotalSpend")
    case CashFlowData => Contains(sql, "Cash Flow") || (Contains(sql, "Arinvoice") && Contains(sql, "Inflow"))
  }

  /** The first pattern the statement matches; an earlier pattern always wins. */
  function MatchPattern(sql: string): (r: Option<Pattern>)
    ensures r.Some? ==> Matches(r.value, sql)
    ensures r.None? <==> forall p: Pattern :: !Matches(p, sql)
    ensures r == Some(VendorSpendData) ==> !Matches(ArAgingData, sql)
    ensures r == Some(CashFlowData) ==> !Matches(ArAgingData, sql) && !Matches(VendorSpendData, sql)
  {
    var found := FirstIndex(Patterns, (p: Pattern) => Matches(p, sql));
    assert found.None? ==> forall p: Pattern :: !Matches(p, sql) by {
      if found.None? {
        assert !Matches(Patterns[0], sql) && !Matches(Patterns[1], sql) && !Matches(Patterns[2], sql);
      }
    }
    match found
    case None => None
    case Some(i) => Some(Patterns[i])
  }

  /** Which of the executor's answers a statement gets. */
  datatype Outcome = Stub | Failure | Canned(pattern: Pattern) | Fallback

  /** The stub check comes before the (simulated) request; `fault` stands for the
      request failing, which sends control to the error answer. */
  function Classify(sql: string, fault: bool): (o: Outcome)
    ensures o == Stub <==> IsComment(sql)
    ensures o == Failure <==> !IsComment(sql) && fault
    ensures o.Canned? <==> !IsComment(sql) && !fault && MatchPattern(sql).Some?
    ensures o.Canned? ==> Matches(o.pattern, sql)
    ensures o == Fallback <==> !IsComment(sql) && !fault && forall p: Pattern :: !Matches(p, sql)
  {
    if IsComment(sql) then Stub
    else if fault then Failure
    else match MatchPattern(sql)
      case Some(p) => Canned(p)
      case None => Fallback
  }

  // The canned answers. Their texts are written as concatenations of short pieces, as
  // the SQL texts are: the verifier's cost of a string literal grows with its length.

  /** The column list of each answer. */
  function ColumnsOf(o: Outcome): seq<string>
  {
    match o
    case Stub => ["Message"]
    case Failure => ["Error"]
    case Canned(ArAgingData) => ["Customername", "AmountDue", "InvoiceCount"]
    case Canned(VendorSpendData) => ["Vendorname", "TotalSpend"]
    case Canned(CashFlowData) => ["Type", "Amount"]
    case Fallback => ["Result"]
  }

  function StubResult(sql: string): (r: QueryResult)
    ensures r.sql == sql && WellShaped(r) && r.columns == ColumnsOf(Stub) && |r.data| == 1
    ensures r.summary.Some? && r.insights == Some([]) && r.followUps == Some([]) && r.kpi.None?
  {
    QueryResult(
      sql,
      [map["Message" := Str("Feature not " + "configured " + "or table " + "missing in " + "this " + "environment.")]],
      ColumnsOf(Stub),
      Some("This " + "feature is " + "not " + "available " + "in the " + "current " + "demo " + "configuration."),
      Some([]), Some([]), None)
  }

  function FailureResult(sql: string): (r: QueryResult)
    ensures r.sql == sql && WellShaped(r) && r.columns == ColumnsOf(Failure) && r.data == []
    ensures r.summary.Some? && r.summary.value != [] && r.insights == Some([]) && r.followUps == Some([]) && r.kpi.None?
  {
    QueryResult(sql, [], ColumnsOf(Failure), Some("Error " + "connecting " + "to CData " + "MCP source."), Some([]), Some([]), None)
  }

  function CustomerDue(name: string, amountDue: real, invoiceCount: real): (r: Row)
    ensures r.Keys == ColumnSet(ColumnsOf(Canned(ArAgingData)))
  {
    map["Customername" := Str(name), "AmountDue" := Num(amountDue), "InvoiceCount" := Num(invoiceCount)]
  }

  function ArAgingResult(sql: string): (r: QueryResult)
    ensures r.sql == sql && WellShaped(r) && r.columns == ColumnsOf(Canned(ArAgingData))
    ensures |r.data| == 5 && r.summary.Some? && r.insights.Some? && r.followUps.Some?
    ensures r.kpi.Some? && |r.kpi.value| == 2
  {
    QueryResult(
      sql,
      [ CustomerDue("Acme Corp", 45000.00, 3.0),
        CustomerDue("Globex Inc", 28500.50, 2.0),
        CustomerDue("Soylent Corp", 12000.00, 1.0),
        CustomerDue("Initech", 8500.00, 4.0),
        CustomerDue("Umbrella Corp", 5000.00, 1.0) ],
      ColumnsOf(Canned(ArAgingData)),
      Some("Total " + "overdue AR " + "is $99,000. " + "Acme Corp " + "is the " + "largest " + "outstanding " + "balance."),
      Some([ "Acme Corp " + "accounts " + "for 45% of " + "overdue " + "receivables.",
             "3 customers " + "have " + "invoices " + "older than " + "90 days.",
             "Collection " + "efforts " + "should " + "prioritize " + "the top 2 " + "accounts." ]),
      Some([ "Draft a " + "dunning " + "email to " + "Acme Corp",
             "Show me " + "payment " + "history for " + "Globex",
             "What is our " + "current " + "cash " + "collection " + "rate?" ]),
      Some([ Kpi("Total " + "Overdue", "$99,000", Some(Down), Some("5% vs last " + "month")),
             Kpi("Avg Days " + "Overdue", "72", Some(Up), Some("2 days")) ]))
  }

  function VendorTotal(name: string, totalSpend: real): (r: Row)
    ensures r.Keys == ColumnSet(ColumnsOf(Canned(VendorSpendData)))
  {
    map["Vendorname" := Str(name), "TotalSpend" := Num(totalSpend)]
  }

  function VendorSpendResult(sql: string): (r: QueryResult)
    ensures r.sql == sql && WellShaped(r) && r.columns == ColumnsOf(Canned(VendorSpendData))
    ensures |r.data| == 5 && r.summary.Some? && r.insights.Some? && r.followUps.Some?
    ensures r.kpi.Some? && |r.kpi.value| == 1
  {
    QueryResult(
      sql,
      [ VendorTotal("AWS", 120000.00),
        VendorTotal("WeWork", 45000.00),
        VendorTotal("Salesforce", 38000.00),
        VendorTotal("Google Ads", 25000.00),
        VendorTotal("LinkedIn", 15000.00) ],
      ColumnsOf(Canned(VendorSpendData)),
      Some("Top vendor " + "spend is " + "driven by " + "Infrastructure " + "(AWS) and " + "Rent " + "(WeWork)."),
      Some([ "AWS spend " + "increased " + "10% QoQ.",
             "Software " + "licensing " + "costs are " + "30% of " + "total opex.",
             "Marketing " + "spend is " + "within " + "budget." ]),
      Some([ "Break down " + "AWS spend " + "by service",
             "Show me " + "contract " + "renewal " + "dates",
             "Compare Q4 " + "marketing " + "spend to Q3" ]),
      Some([ Kpi("Total " + "Vendor Spend", "$243,000", Some(Up), Some("12%")) ]))
  }

  function CashMovement(kind: string, amount: real): (r: Row)
    ensures r.Keys == ColumnSet(ColumnsOf(Canned(CashFlowData)))
  {
    map["Type" := Str(kind), "Amount" := Num(amount)]
  }

  function CashFlowResult(sql: string): (r: QueryResult)
    ensures r.sql == sql && WellShaped(r) && r.columns == ColumnsOf(Canned(CashFlowData))
    ensures |r.data| == 2 && r.summary.Some? && r.insights.Some? && r.followUps.Some?
    ensures r.kpi.Some? && |r.kpi.value| == 1
  {
    QueryResult(
      sql,
      [ CashMovement("Inflow (AR)", 154000.00), CashMovement("Outflow (AP)", -89000.00) ],
      ColumnsOf(Canned(CashFlowData)),
      Some("Net " + "positive " + "cash flow " + "projected " + "for the " + "next 30 " + "days."),
      Some([ "Projected " + "Net Cash: " + "+$65,000",
             "AP " + "obligations " + "are heavy " + "in week 3",
             "AR " + "collections " + "are " + "trending " + "positively" ]),
      Some([ "What is our " + "current " + "cash " + "balance?",
             "Show me AP " + "due next " + "week",
             "Simulate a " + "10% drop in " + "collections" ]),
      Some([ Kpi("Net Cash " + "Flow", "+$65,000", Some(Up), None) ]))
  }

  function FallbackResult(sql: string): (r: QueryResult)
    ensures r.sql == sql && WellShaped(r) && r.columns == ColumnsOf(Fallback) && |r.data| == 1
    ensures r.summary.Some? && r.insights == Some([]) && r.followUps == Some([]) && r.kpi.None?
  {
    QueryResult(
      sql,
      [map["Result" := Str("No mock " + "data " + "configured " + "for this " + "specific " + "query.")]],
      ColumnsOf(Fallback),
      Some("Query " + "executed " + "successfully " + "but no " + "specific " + "mock data " + "pattern " + "matched."),
      Some([]), Some([]), None)
  }

  /** The answer for an outcome: always well shaped, with the outcome's columns. */
  function ResultFor(o: Outcome, sql: string): (r: QueryResult)
    ensures r.sql == sql && WellShaped(r) && r.columns == ColumnsOf(o)
  {
    match o
    case Stub => StubResult(sql)
    case Failure => FailureResult(sql)
    case Canned(ArAgingData) => ArAgingResult(sql)
    case Canned(VendorSpendData) => VendorSpendResult(sql)
    case Canned(CashFlowData) => CashFlowResult(sql)
    case Fallback => FallbackResult(sql)
  }

  /** Only the error answer has no rows. */
  lemma OnlyFailureIsEmpty(o: Outcome, sql: string)
    ensures ResultFor(o, sql).data == [] <==> o == Failure
  {
  }

  /** Only the canned data sets carry headline metrics; every answer has a summary. */
  lemma KpisOnlyForCannedData(o: Outcome, sql: string)
    ensures ResultFor(o, sql).kpi.Some? <==> o.Canned?
    ensures ResultFor(o, sql).kpi.Some? ==> |ResultFor(o, sql).kpi.value| > 0
    ensures ResultFor(o, sql).summary.Some?
  {
  }

  /** Runs a statement: the stub for a comment, the error answer when the request
      fails, otherwise the first canned data set whose pattern matches. */
  function Execute(sql: string, fault: bool): (r: QueryResult)
    ensures r.sql == sql && WellShaped(r)
    ensures r.columns == ColumnsOf(Classify(sql, fault))
    ensures r.data == [] <==> !IsComment(sql) && fault
    ensures r.kpi.Some? <==> !IsComment(sql) && !fault && MatchPattern(sql).Some?
    ensures r.kpi.Some? ==> |r.kpi.value| > 0
    ensures r.data == [] ==> r.summary.Some? && r.summary.value != []
  {
    var o := Classify(sql, fault);
    OnlyFailureIsEmpty(o, sql);
    KpisOnlyForCannedData(o, sql);
    ResultFor(o, sql)
  }

  /** Each outcome has its own column list, so the answer shows which branch ran. */
  lemma ColumnsIdentifyOutcome(o: Outcome, o': Outcome)
    requires ColumnsOf(o) == ColumnsOf(o')
    ensures o == o'
  {
  }

  /** A comment never reaches the request, so a transport failure cannot affect it. */
  lemma CommentIgnoresFault(sql: string)
    requires IsComment(sql)
    ensures Execute(sql, true) == Execute(sql, false) == StubResult(sql)
  {
  }
}
