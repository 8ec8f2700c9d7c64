/** The fixed catalogue of ten query templates and the SQL each one produces for
    a data source. Five templates have a real query for SageIntacct7 only; the
    other five are comments that ignore the source. Long SQL literals are written
    as concatenations of short pieces, each piece ending at a space, newline or
    punctuation character. */
module Templates {
  import opened Domain
  import opened Text

  datatype Template =
    | ArAging | VendorSpend | CustomerProfitability | BudgetVsActuals | CashFlow
    | TopExpenses | RevenueRec | MarginAnalysis | PayrollAnalysis | MonthEndClose
  {
    function Id(): string
    {
      match this
      case ArAging => "ar_aging"
      case VendorSpend => "vendor_spend"
      case CustomerProfitability => "customer_profitability"
      case BudgetVsActuals => "budget_vs_actuals"
      case CashFlow => "cash_flow"
      case TopExpenses => "top_expenses"
      case RevenueRec => "revenue_rec"
      case MarginAnalysis => "margin_analysis"
      case PayrollAnalysis => "payroll_analysis"
      case MonthEndClose => "month_end_close"
    }

    function Label(): string
    {
      match this
      case ArAging => "AR Aging"
      case VendorSpend => "Vendor Spend"
      case CustomerProfitability => "Customer Profitability"
      case BudgetVsActuals => "Budget vs Actuals"
      case CashFlow => "Cash Flow Projection"
      case TopExpenses => "Top Expenses"
      case RevenueRec => "Revenue Recognition"
      case MarginAnalysis => "Margin Analysis"
      case PayrollAnalysis => "Payroll Analysis"
      case MonthEndClose => "Month-End Close"
    }

    function Description(): string
    {
      match this
      case ArAging => "Invoices over 60 days grouped by customer"
      case VendorSpend => "Top vendors by spend this year"
      case CustomerProfitability => "Customers generating most revenue"
      case BudgetVsActuals => "Q4 spend vs budget by department"
      case CashFlow => "Projected cash position next 30 days"
      case TopExpenses => "Top 10 expenses this quarter"
      case RevenueRec => "Deferred revenue by product line"
      case MarginAnalysis => "Products with margins below 30%"
      case PayrollAnalysis => "Headcount + payroll by dept"
      case MonthEndClose => "Accounts pending reconciliation"
    }

    /** The templates whose generator has a real query for SageIntacct7. */
    predicate HasSageQuery()
    {
      ArAging? || VendorSpend? || CustomerProfitability? || CashFlow? || TopExpenses?
    }
  }

  /** The catalogue, in display order. */
  const Registry: seq<Template> := [
    ArAging, VendorSpend, CustomerProfitability, BudgetVsActuals, CashFlow,
    TopExpenses, RevenueRec, MarginAnalysis, PayrollAnalysis, MonthEndClose
  ]

  /** What every source other than SageIntacct7 gets from a Sage-only template. */
  const NotAvailable := Comment("NetSuite " + "implementation " + "not available")

  /** A one-line SQL comment. */
  function Comment(text: string): (r: string)
    ensures StartsWith(r, "-- ") && r[3..] == text
  {
    assert StartsWith("-- ", "-- ");
    StartsWithAppend("-- ", text, "-- ");
    "-- " + text
  }

  /** Ids never clash, so an id names at most one template. */
  lemma IdsDistinct(t: Template, u: Template)
    requires t != u
    ensures t.Id() != u.Id()
  {
  }

  /** Every template sits in the catalogue, at its display position. */
  function Position(t: Template): (i: nat)
    ensures i < |Registry| && Registry[i] == t
  {
    match t
    case ArAging => 0
    case VendorSpend => 1
    case CustomerProfitability => 2
    case BudgetVsActuals => 3
    case CashFlow => 4
    case TopExpenses => 5
    case RevenueRec => 6
    case MarginAnalysis => 7
    case PayrollAnalysis => 8
    case MonthEndClose => 9
  }

  lemma RegistryComplete()
    ensures forall t: Template :: t in Registry
  {
    forall t: Template
      ensures t in Registry
    {
      assert Registry[Position(t)] == t;
    }
  }

  /** Looks a template up by id in the catalogue. */
  function Find(id: string): (r: Option<Template>)
    ensures r.Some? ==> r.value.Id() == id
    ensures r.None? <==> forall t: Template :: t.Id() != id
  {
    var r := FirstWhere(Registry, (t: Template) => t.Id() == id);
    assert r.None? ==> forall t: Template :: t.Id() != id by {
      if r.None? {
        forall t: Template
          ensures t.Id() != id
        {
          var i := Position(t);
          assert Registry[i].Id() != id;
        }
      }
    }
    r
  }

  /** Looking a template up by its own id gives that template back. */
  lemma FindRoundTrip(t: Template)
    ensures Find(t.Id()) == Some(t)
  {
    var r := Find(t.Id());
    if r.value != t {
      IdsDistinct(r.value, t);
    }
  }

  // The SQL texts. Every literal is a short piece (a word or two): the verifier's cost of
  // reasoning about a literal grows quickly with its length. Fragments are functions
  // rather than constants so that a proof about one fragment never sees the others.

  function FromSage(): string { "FROM " + "[SageIntacct7]." + "[SageIntacct]." }
  function FromArinvoice(): string { FromSage() + "[Arinvoice] \n" }
  function FromApbill(): string { FromSage() + "[Apbill] \n" }
  function CreatedThisYear(): string
  {
    "WHERE " + "Whencreated >= " + "DATE_TRUNC(" + "'year', " + "CURRENT_DATE())\n"
  }
  function DueInThirtyDays(): string
  {
    "WHERE " + "Whendue " + "BETWEEN " + "CURRENT_DATE() " + "AND " + "DATEADD(day, " + "30, " + "CURRENT_DATE())"
  }

  function ArAgingSelect(): string
  {
    "SELECT " + "Customername, " + "SUM(Totaldue) " + "as AmountDue, " + "COUNT(*) " + "as InvoiceCount \n"
  }
  function ArAgingWhere(): string
  {
    "WHERE " + "Whendue < " + "DATEADD(day, " + "-60, " + "CURRENT_DATE()) \n" + "AND " + "Totaldue > 0 \n"
  }
  function ArAgingOrder(): string
  {
    "GROUP BY " + "Customername \n" + "ORDER BY " + "AmountDue DESC \n" + "LIMIT 10"
  }
  function ArAgingSql(): string
  {
    ArAgingSelect() + FromArinvoice() + ArAgingWhere() + ArAgingOrder()
  }

  function VendorSpendSelect(): string
  {
    "SELECT " + "Vendorname, " + "SUM(Totalentered) " + "as TotalSpend \n"
  }
  function VendorSpendOrder(): string
  {
    "GROUP BY " + "Vendorname \n" + "ORDER BY " + "TotalSpend DESC \n" + "LIMIT 10"
  }
  function VendorSpendSql(): string
  {
    VendorSpendSelect() + FromApbill() + CreatedThisYear() + VendorSpendOrder()
  }

  function CustomerProfitabilitySelect(): string
  {
    "SELECT " + "Customername, " + "SUM(Totalentered) " + "as TotalRevenue \n"
  }
  function CustomerProfitabilityOrder(): string
  {
    "GROUP BY " + "Customername \n" + "ORDER BY " + "TotalRevenue DESC \n" + "LIMIT 10"
  }
  function CustomerProfitabilitySql(): string
  {
    CustomerProfitabilitySelect() + FromArinvoice() + CreatedThisYear() + CustomerProfitabilityOrder()
  }

  function InflowLabel(): string { "SELECT " + "'Inflow (AR)' " + "as Type, " }
  function InflowAmount(): string { "SUM(Totaldue) " + "as Amount \n" }
  function CashInflow(): string { InflowLabel() + InflowAmount() + FromArinvoice() + DueInThirtyDays() + "\n" }
  function OutflowLabel(): string { "SELECT " + "'Outflow (AP)' " + "as Type, " }
  function OutflowAmount(): string { "SUM(Totaldue) " + "* -1 " + "as Amount \n" }
  function CashOutflow(): string { OutflowLabel() + OutflowAmount() + FromApbill() + DueInThirtyDays() }
  function CashFlowSql(): string { CashInflow() + "UNION ALL\n" + CashOutflow() }

  function TopExpensesColumns(): string { "SELECT " + "Vendorname, " + "SUM(Totalentered) " + "as " }
  function TopExpensesSelect(): string { TopExpensesColumns() + "ExpenseAmount\n" }
  function TopExpensesFrom(): string { FromSage() + "[Apbill]\n" }
  function TopExpensesWhere(): string
  {
    "WHERE " + "Whencreated >= " + "DATE_TRUNC(" + "'quarter', " + "CURRENT_DATE())\n"
  }
  function TopExpensesOrder(): string
  {
    "GROUP BY " + "Vendorname\n" + "ORDER BY " + "ExpenseAmount DESC\n" + "LIMIT 10"
  }
  function TopExpensesSql(): string
  {
    TopExpensesSelect() + TopExpensesFrom() + TopExpensesWhere() + TopExpensesOrder()
  }

  // The comment-only templates.

  function BudgetVsActualsSql(): string
  {
    Comment("Table " + "[SageIntacct7]." + "[SageIntacct]." + "[Budget] " + "not found " + "in verification. \n")
    + Comment("Please " + "configure " + "Budget module.")
  }
  function RevenueRecSql(): string { Comment("Deferred " + "Revenue module " + "not detected.") }
  function MarginAnalysisSql(): string
  {
    Comment("Product/COGS " + "data not available " + "in simplified " + "Arinvoice table.")
  }
  function PayrollAnalysisSql(): string { Comment("HRIS module " + "not connected.") }
  function MonthEndCloseSql(): string { Comment("GL Reconciliation " + "data not available.") }

  /** The query of a template that has one for SageIntacct7. */
  function SageQuery(t: Template): string
    requires t.HasSageQuery()
  {
    match t
    case ArAging => ArAgingSql()
    case VendorSpend => VendorSpendSql()
    case CustomerProfitability => CustomerProfitabilitySql()
    case CashFlow => CashFlowSql()
    case TopExpenses => TopExpensesSql()
  }

  /** The fixed text of a comment-only template. */
  function CommentSql(t: Template): string
    requires !t.HasSageQuery()
  {
    match t
    case BudgetVsActuals => BudgetVsActualsSql()
    case RevenueRec => RevenueRecSql()
    case MarginAnalysis => MarginAnalysisSql()
    case PayrollAnalysis => PayrollAnalysisSql()
    case MonthEndClose => MonthEndCloseSql()
  }

  /** The template's SQL generator applied to a data source: a query only where the
      template has one for the source, a "-- " comment everywhere else. */
  function Sql(t: Template, source: DataSource): (r: string)
    ensures t.HasSageQuery() && source == SageIntacct7 ==> StartsWith(r, Select)
    ensures !(t.HasSageQuery() && source == SageIntacct7) ==> StartsWith(r, "-- ")
  {
    if !t.HasSageQuery() then
      CommentSqlIsComment(t);
      CommentSql(t)
    else if source == SageIntacct7 then
      SageQueryIsQuery(t);
      SageQuery(t)
    else NotAvailable
  }

  /** The registry lists the ten templates once each. */
  lemma RegistryIdsDistinct()
    ensures |Registry| == 10
    ensures forall i, j :: 0 <= i < j < |Registry| ==> Registry[i].Id() != Registry[j].Id()
  {
    forall i, j | 0 <= i < j < |Registry|
      ensures Registry[i].Id() != Registry[j].Id()
    {
      IdsDistinct(Registry[i], Registry[j]);
    }
  }

  // Which generated texts are queries and which are comments.

  const Select := "SELECT "

  lemma ArAgingSqlIsQuery()
    ensures StartsWith(ArAgingSql(), Select)
  {
    assert StartsWith(ArAgingSelect(), Select);
    StartsWithAppend(ArAgingSelect(), FromArinvoice(), Select);
    StartsWithAppend(ArAgingSelect() + FromArinvoice(), ArAgingWhere(), Select);
    StartsWithAppend(ArAgingSelect() + FromArinvoice() + ArAgingWhere(), ArAgingOrder(), Select);
  }

  lemma VendorSpendSqlIsQuery()
    ensures StartsWith(VendorSpendSql(), Select)
  {
    assert StartsWith(VendorSpendSelect(), Select);
    StartsWithAppend(VendorSpendSelect(), FromApbill(), Select);
    StartsWithAppend(VendorSpendSelect() + FromApbill(), CreatedThisYear(), Select);
    StartsWithAppend(VendorSpendSelect() + FromApbill() + CreatedThisYear(), VendorSpendOrder(), Select);
  }

  lemma CustomerProfitabilitySqlIsQuery()
    ensures StartsWith(CustomerProfitabilitySql(), Select)
  {
    assert StartsWith(CustomerProfitabilitySelect(), Select);
    StartsWithAppend(CustomerProfitabilitySelect(), FromArinvoice(), Select);
    StartsWithAppend(CustomerProfitabilitySelect() + FromArinvoice(), CreatedThisYear(), Select);
    StartsWithAppend(CustomerProfitabilitySelect() + FromArinvoice() + CreatedThisYear(), CustomerProfitabilityOrder(), Select);
  }

  lemma CashFlowSqlIsQuery()
    ensures StartsWith(CashFlowSql(), Select)
  {
    assert StartsWith(InflowLabel(), Select);
    StartsWithAppend(InflowLabel(), InflowAmount(), Select);
    StartsWithAppend(InflowLabel() + InflowAmount(), FromArinvoice(), Select);
    StartsWithAppend(InflowLabel() + InflowAmount() + FromArinvoice(), DueInThirtyDays(), Select);
    StartsWithAppend(InflowLabel() + InflowAmount() + FromArinvoice() + DueInThirtyDays(), "\n", Select);
    StartsWithAppend(CashInflow(), "UNION ALL\n", Select);
    StartsWithAppend(CashInflow() + "UNION ALL\n", CashOutflow(), Select);
  }

  lemma TopExpensesSqlIsQuery()
    ensures StartsWith(TopExpensesSql(), Select)
  {
    assert StartsWith(TopExpensesColumns(), Select);
    StartsWithAppend(TopExpensesColumns(), "ExpenseAmount\n", Select);
    StartsWithAppend(TopExpensesSelect(), TopExpensesFrom(), Select);
    StartsWithAppend(TopExpensesSelect() + TopExpensesFrom(), TopExpensesWhere(), Select);
    StartsWithAppend(TopExpensesSelect() + TopExpensesFrom() + TopExpensesWhere(), TopExpensesOrder(), Select);
  }

  lemma SageQueryIsQuery(t: Template)
    requires t.HasSageQuery()
    ensures StartsWith(SageQuery(t), Select)
  {
    match t
    case ArAging => ArAgingSqlIsQuery();
    case VendorSpend => VendorSpendSqlIsQuery();
    case CustomerProfitability => CustomerProfitabilitySqlIsQuery();
    case CashFlow => CashFlowSqlIsQuery();
    case TopExpenses => TopExpensesSqlIsQuery();
  }

  lemma CommentSqlIsComment(t: Template)
    requires !t.HasSageQuery()
    ensures StartsWith(CommentSql(t), "-- ")
  {
    if t.BudgetVsActuals? {
      var first := "Table " + "[SageIntacct7]." + "[SageIntacct]." + "[Budget] " + "not found " + "in verification. \n";
      StartsWithAppend(Comment(first), Comment("Please " + "configure " + "Budget module."), "-- ");
    }
  }

  /** A Sage-only template runs a real query on SageIntacct7 and gives every other
      source the "not available" comment. */
  lemma SageOnlyFallback(t: Template, source: DataSource)
    requires t.HasSageQuery()
    ensures source != SageIntacct7 ==> Sql(t, source) == NotAvailable
    ensures source == SageIntacct7 ==> StartsWith(Sql(t, source), Select)
  {
    SageQueryIsQuery(t);
  }

  /** A comment-only template ignores the source. */
  lemma CommentTemplateIgnoresSource(t: Template, a: DataSource, b: DataSource)
    requires !t.HasSageQuery()
    ensures Sql(t, a) == Sql(t, b)
    ensures StartsWith(Sql(t, a), "-- ")
  {
    CommentSqlIsComment(t);
  }

  /** The generated SQL is a comment exactly when the template has no query for the
      source; in particular it is never empty. */
  lemma SqlIsCommentIff(t: Template, source: DataSource)
    ensures StartsWith(Sql(t, source), "--") <==> !(t.HasSageQuery() && source == SageIntacct7)
    ensures Sql(t, source) != []
  {
    var sql := Sql(t, source);
    if !t.HasSageQuery() {
      CommentSqlIsComment(t);
      StartsWithPrefix(sql, "-- ", "--");
    } else if source == SageIntacct7 {
      SageQueryIsQuery(t);
      StartsWithDiffer(sql, Select, "--");
    } else {
      StartsWithPrefix(sql, "-- ", "--");
    }
  }

  // Facts about the Sage queries that decide how the executor routes them. A missing
  // character rules a pattern out (MissingCharExcludes); each fact about a fragment is
  // proved on its own, so that the verifier unfolds one fragment at a time.

  lemma FromArinvoiceMentionsArinvoice()
    ensures Contains(FromArinvoice(), "Arinvoice")
  {
    assert OccursAt(FromArinvoice(), "Arinvoice", 35);
  }

  lemma FromApbillMentionsApbill()
    ensures Contains(FromApbill(), "Apbill")
  {
    assert OccursAt(FromApbill(), "Apbill", 35);
  }

  lemma ArAgingWhereMentionsWhendue()
    ensures Contains(ArAgingWhere(), "Whendue <")
  {
    assert OccursAt(ArAgingWhere(), "Whendue <", 6);
  }

  lemma VendorSpendSelectMentionsTotalSpend()
    ensures Contains(VendorSpendSelect(), "TotalSpend")
  {
    assert OccursAt(VendorSpendSelect(), "TotalSpend", 40);
  }

  lemma CashInflowMentionsInflow()
    ensures Contains(CashInflow(), "Inflow")
  {
    assert OccursAt(InflowLabel(), "Inflow", 8);
    ContainsAppend(InflowLabel(), InflowAmount(), "Inflow");
    ContainsAppend(InflowLabel() + InflowAmount(), FromArinvoice(), "Inflow");
    ContainsAppend(InflowLabel() + InflowAmount() + FromArinvoice(), DueInThirtyDays(), "Inflow");
    ContainsAppend(InflowLabel() + InflowAmount() + FromArinvoice() + DueInThirtyDays(), "\n", "Inflow");
  }

  lemma FromArinvoiceLacksLt() ensures '<' !in FromArinvoice() {}
  lemma FromArinvoiceLacksP() ensures 'p' !in FromArinvoice() {}
  lemma FromArinvoiceLacksW() ensures 'w' !in FromArinvoice() {}
  lemma FromApbillLacksLt() ensures '<' !in FromApbill() {}
  lemma FromApbillLacksV() ensures 'v' !in FromApbill() {}
  lemma FromApbillLacksT() ensures 'T' !in FromApbill() {}
  lemma CreatedThisYearLacksLt() ensures '<' !in CreatedThisYear() {}
  lemma CreatedThisYearLacksP() ensures 'p' !in CreatedThisYear() {}
  lemma CreatedThisYearLacksV() ensures 'v' !in CreatedThisYear() {}
  lemma CreatedThisYearLacksW() ensures 'w' !in CreatedThisYear() {}
  lemma DueInThirtyDaysLacksLt() ensures '<' !in DueInThirtyDays() {}
  lemma DueInThirtyDaysLacksP() ensures 'p' !in DueInThirtyDays() {}
  lemma VendorSpendSelectLacksV() ensures 'v' !in VendorSpendSelect() {}
  lemma VendorSpendOrderLacksV() ensures 'v' !in VendorSpendOrder() {}
  lemma CustomerProfitabilitySelectLacksLt() ensures '<' !in CustomerProfitabilitySelect() {}
  lemma CustomerProfitabilitySelectLacksP() ensures 'p' !in CustomerProfitabilitySelect() {}
  lemma CustomerProfitabilitySelectLacksW() ensures 'w' !in CustomerProfitabilitySelect() {}
  lemma CustomerProfitabilityOrderLacksLt() ensures '<' !in CustomerProfitabilityOrder() {}
  lemma CustomerProfitabilityOrderLacksP() ensures 'p' !in CustomerProfitabilityOrder() {}
  lemma CustomerProfitabilityOrderLacksW() ensures 'w' !in CustomerProfitabilityOrder() {}
  lemma InflowLabelLacksLt() ensures '<' !in InflowLabel() {}
  lemma InflowLabelLacksD() ensures 'd' !in InflowLabel() {}
  lemma InflowAmountLacksLt() ensures '<' !in InflowAmount() {}
  lemma InflowAmountLacksP() ensures 'p' !in InflowAmount() {}
  lemma OutflowLabelLacksLt() ensures '<' !in OutflowLabel() {}
  lemma OutflowLabelLacksD() ensures 'd' !in OutflowLabel() {}
  lemma OutflowAmountLacksLt() ensures '<' !in OutflowAmount() {}
  lemma OutflowAmountLacksP() ensures 'p' !in OutflowAmount() {}
  lemma TopExpensesColumnsLacksP() ensures 'p' !in TopExpensesColumns() {}
  lemma TopExpensesSelectLacksV() ensures 'v' !in TopExpensesSelect() {}
  lemma TopExpensesSelectLacksW() ensures 'w' !in TopExpensesSelect() {}
  lemma TopExpensesFromLacksV() ensures 'v' !in TopExpensesFrom() {}
  lemma TopExpensesFromLacksW() ensures 'w' !in TopExpensesFrom() {}
  lemma TopExpensesFromLacksT() ensures 'T' !in TopExpensesFrom() {}
  lemma TopExpensesWhereLacksV() ensures 'v' !in TopExpensesWhere() {}
  lemma TopExpensesWhereLacksW() ensures 'w' !in TopExpensesWhere() {}
  lemma TopExpensesWhereLacksP() ensures 'p' !in TopExpensesWhere() {}
  lemma TopExpensesOrderLacksV() ensures 'v' !in TopExpensesOrder() {}
  lemma TopExpensesOrderLacksW() ensures 'w' !in TopExpensesOrder() {}
  lemma TopExpensesOrderLacksL() ensures 'l' !in TopExpensesOrder() {}

  lemma CashInflowLacksLt()
    ensures '<' !in CashInflow()
  {
    InflowLabelLacksLt();
    InflowAmountLacksLt();
    FromArinvoiceLacksLt();
    DueInThirtyDaysLacksLt();
  }

  lemma CashOutflowLacksLt()
    ensures '<' !in CashOutflow()
  {
    OutflowLabelLacksLt();
    OutflowAmountLacksLt();
    FromApbillLacksLt();
    DueInThirtyDaysLacksLt();
  }

  // "TotalSpend" cannot straddle two fragments of the cash-flow or top-expenses query:
  // every fragment lacks one of its letters and every seam is a character outside it.

  const TotalSpend := "TotalSpend"

  lemma InflowSelectLacksTotalSpend()
    ensures !Contains(InflowLabel() + InflowAmount(), TotalSpend)
  {
    InflowLabelLacksD();
    MissingCharExcludes(InflowLabel(), TotalSpend, 'd');
    InflowAmountLacksP();
    MissingCharExcludes(InflowAmount(), TotalSpend, 'p');
    NotContainsAppend(InflowLabel(), InflowAmount(), TotalSpend);
  }

  lemma InflowFromLacksTotalSpend()
    ensures !Contains(InflowLabel() + InflowAmount() + FromArinvoice(), TotalSpend)
  {
    InflowSelectLacksTotalSpend();
    FromArinvoiceLacksP();
    MissingCharExcludes(FromArinvoice(), TotalSpend, 'p');
    NotContainsAppend(InflowLabel() + InflowAmount(), FromArinvoice(), TotalSpend);
  }

  lemma CashInflowLacksTotalSpend()
    ensures !Contains(CashInflow(), TotalSpend)
  {
    var from := InflowLabel() + InflowAmount() + FromArinvoice();
    InflowFromLacksTotalSpend();
    DueInThirtyDaysLacksP();
    MissingCharExcludes(DueInThirtyDays(), TotalSpend, 'p');
    NotContainsAppend(from, DueInThirtyDays(), TotalSpend);
    MissingCharExcludes("\n", TotalSpend, 'p');
    NotContainsAppend(from + DueInThirtyDays(), "\n", TotalSpend);
  }

  lemma OutflowFromLacksTotalSpend()
    ensures !Contains(OutflowLabel() + OutflowAmount() + FromApbill(), TotalSpend)
  {
    OutflowLabelLacksD();
    MissingCharExcludes(OutflowLabel(), TotalSpend, 'd');
    OutflowAmountLacksP();
    MissingCharExcludes(OutflowAmount(), TotalSpend, 'p');
    NotContainsAppend(OutflowLabel(), OutflowAmount(), TotalSpend);
    FromApbillLacksT();
    MissingCharExcludes(FromApbill(), TotalSpend, 'T');
    NotContainsAppend(OutflowLabel() + OutflowAmount(), FromApbill(), TotalSpend);
  }

  lemma CashOutflowLacksTotalSpend()
    ensures !Contains(CashOutflow(), TotalSpend)
  {
    OutflowFromLacksTotalSpend();
    DueInThirtyDaysLacksP();
    MissingCharExcludes(DueInThirtyDays(), TotalSpend, 'p');
    NotContainsAppend(OutflowLabel() + OutflowAmount() + FromApbill(), DueInThirtyDays(), TotalSpend);
  }

  lemma CashFlowSqlLacksTotalSpend()
    ensures !Contains(CashFlowSql(), TotalSpend)
  {
    CashInflowLacksTotalSpend();
    CashOutflowLacksTotalSpend();
    MissingCharExcludes("UNION ALL\n", TotalSpend, 'p');
    NotContainsAppend(CashInflow(), "UNION ALL\n", TotalSpend);
    NotContainsAppend(CashInflow() + "UNION ALL\n", CashOutflow(), TotalSpend);
  }

  lemma ExpensesFromLacksTotalSpend()
    ensures !Contains(TopExpensesSelect() + TopExpensesFrom(), TotalSpend)
  {
    TopExpensesColumnsLacksP();
    MissingCharExcludes(TopExpensesColumns(), TotalSpend, 'p');
    MissingCharExcludes("ExpenseAmount\n", TotalSpend, 'T');
    NotContainsAppend(TopExpensesColumns(), "ExpenseAmount\n", TotalSpend);
    TopExpensesFromLacksT();
    MissingCharExcludes(TopExpensesFrom(), TotalSpend, 'T');
    NotContainsAppend(TopExpensesSelect(), TopExpensesFrom(), TotalSpend);
  }

  lemma TopExpensesSqlLacksTotalSpend()
    ensures !Contains(TopExpensesSql(), TotalSpend)
  {
    var from := TopExpensesSelect() + TopExpensesFrom();
    ExpensesFromLacksTotalSpend();
    TopExpensesWhereLacksP();
    MissingCharExcludes(TopExpensesWhere(), TotalSpend, 'p');
    NotContainsAppend(from, TopExpensesWhere(), TotalSpend);
    TopExpensesOrderLacksL();
    MissingCharExcludes(TopExpensesOrder(), TotalSpend, 'l');
    NotContainsAppend(from + TopExpensesWhere(), TopExpensesOrder(), TotalSpend);
  }

  // Which of the executor's marker substrings each Sage query contains.

  lemma ArAgingSqlMarkers()
    ensures Contains(ArAgingSql(), "Arinvoice") && Contains(ArAgingSql(), "Whendue <")
  {
    FromArinvoiceMentionsArinvoice();
    ContainsAppend(ArAgingSelect(), FromArinvoice(), "Arinvoice");
    ContainsAppend(ArAgingSelect() + FromArinvoice(), ArAgingWhere(), "Arinvoice");
    ContainsAppend(ArAgingSelect() + FromArinvoice() + ArAgingWhere(), ArAgingOrder(), "Arinvoice");
    ArAgingWhereMentionsWhendue();
    ContainsAppend(ArAgingSelect() + FromArinvoice(), ArAgingWhere(), "Whendue <");
    ContainsAppend(ArAgingSelect() + FromArinvoice() + ArAgingWhere(), ArAgingOrder(), "Whendue <");
  }

  lemma VendorSpendSqlLacksV()
    ensures 'v' !in VendorSpendSql()
  {
    VendorSpendSelectLacksV();
    FromApbillLacksV();
    CreatedThisYearLacksV();
    VendorSpendOrderLacksV();
  }

  lemma VendorSpendSqlMarkers()
    ensures Contains(VendorSpendSql(), "Apbill") && Contains(VendorSpendSql(), "TotalSpend")
    ensures !Contains(VendorSpendSql(), "Arinvoice")
  {
    VendorSpendSelectMentionsTotalSpend();
    FromApbillMentionsApbill();
    ContainsAppend(VendorSpendSelect(), FromApbill(), "Apbill");
    ContainsAppend(VendorSpendSelect(), FromApbill(), "TotalSpend");
    ContainsAppend(VendorSpendSelect() + FromApbill(), CreatedThisYear(), "Apbill");
    ContainsAppend(VendorSpendSelect() + FromApbill(), CreatedThisYear(), "TotalSpend");
    ContainsAppend(VendorSpendSelect() + FromApbill() + CreatedThisYear(), VendorSpendOrder(), "Apbill");
    ContainsAppend(VendorSpendSelect() + FromApbill() + CreatedThisYear(), VendorSpendOrder(), "TotalSpend");
    VendorSpendSqlLacksV();
    MissingCharExcludes(VendorSpendSql(), "Arinvoice", 'v');
  }

  lemma CustomerProfitabilitySqlLacks()
    ensures '<' !in CustomerProfitabilitySql()
    ensures 'p' !in CustomerProfitabilitySql()
    ensures 'w' !in CustomerProfitabilitySql()
  {
    CustomerProfitabilitySelectLacksLt();
    CustomerProfitabilitySelectLacksP();
    CustomerProfitabilitySelectLacksW();
    FromArinvoiceLacksLt();
    FromArinvoiceLacksP();
    FromArinvoiceLacksW();
    CreatedThisYearLacksLt();
    CreatedThisYearLacksP();
    CreatedThisYearLacksW();
    CustomerProfitabilityOrderLacksLt();
    CustomerProfitabilityOrderLacksP();
    CustomerProfitabilityOrderLacksW();
  }

  lemma CustomerProfitabilitySqlMarkers()
    ensures !Contains(CustomerProfitabilitySql(), "Whendue <")
    ensures !Contains(CustomerProfitabilitySql(), "Apbill")
    ensures !Contains(CustomerProfitabilitySql(), "TotalSpend")
    ensures !Contains(CustomerProfitabilitySql(), "Cash Flow")
    ensures !Contains(CustomerProfitabilitySql(), "Inflow")
  {
    CustomerProfitabilitySqlLacks();
    MissingCharExcludes(CustomerProfitabilitySql(), "Whendue <", '<');
    MissingCharExcludes(CustomerProfitabilitySql(), "Apbill", 'p');
    MissingCharExcludes(CustomerProfitabilitySql(), "TotalSpend", 'p');
    MissingCharExcludes(CustomerProfitabilitySql(), "Cash Flow", 'w');
    MissingCharExcludes(CustomerProfitabilitySql(), "Inflow", 'w');
  }

  lemma CashFlowSqlMarkers()
    ensures Contains(CashFlowSql(), "Arinvoice") && Contains(CashFlowSql(), "Inflow")
    ensures !Contains(CashFlowSql(), "Whendue <") && !Contains(CashFlowSql(), "TotalSpend")
  {
    var from := InflowLabel() + InflowAmount() + FromArinvoice();
    FromArinvoiceMentionsArinvoice();
    ContainsAppend(InflowLabel() + InflowAmount(), FromArinvoice(), "Arinvoice");
    ContainsAppend(from, DueInThirtyDays(), "Arinvoice");
    ContainsAppend(from + DueInThirtyDays(), "\n", "Arinvoice");
    CashInflowMentionsInflow();
    ContainsAppend(CashInflow(), "UNION ALL\n", "Arinvoice");
    ContainsAppend(CashInflow(), "UNION ALL\n", "Inflow");
    ContainsAppend(CashInflow() + "UNION ALL\n", CashOutflow(), "Arinvoice");
    ContainsAppend(CashInflow() + "UNION ALL\n", CashOutflow(), "Inflow");
    CashInflowLacksLt();
    CashOutflowLacksLt();
    MissingCharExcludes(CashFlowSql(), "Whendue <", '<');
    CashFlowSqlLacksTotalSpend();
  }

  lemma TopExpensesSqlLacks()
    ensures 'v' !in TopExpensesSql() && 'w' !in TopExpensesSql()
  {
    TopExpensesSelectLacksV();
    TopExpensesSelectLacksW();
    TopExpensesFromLacksV();
    TopExpensesFromLacksW();
    TopExpensesWhereLacksV();
    TopExpensesWhereLacksW();
    TopExpensesOrderLacksV();
    TopExpensesOrderLacksW();
  }

  lemma TopExpensesSqlMarkers()
    ensures !Contains(TopExpensesSql(), "Arinvoice")
    ensures !Contains(TopExpensesSql(), "Cash Flow")
    ensures !Contains(TopExpensesSql(), "TotalSpend")
  {
    TopExpensesSqlLacks();
    MissingCharExcludes(TopExpensesSql(), "Arinvoice", 'v');
    MissingCharExcludes(TopExpensesSql(), "Cash Flow", 'w');
    TopExpensesSqlLacksTotalSpend();
  }
}
