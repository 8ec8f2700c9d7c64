/** The path from a dashboard tile or a typed question to the executor's answer: which
    canned answer each template's SQL reaches, and what an unrecognised question gets. */
module Pipeline {
  import opened Domain
  import opened Text
  import opened Templates
  import opened Executor
  import opened Intent

  /** The answer each template is meant to produce, written as a table over the
      templates rather than over the substrings the executor looks for. Only the
      receivables, vendor and cash-flow tiles have canned data; the other two Sage
      queries reach the generic answer. */
  function ExpectedOutcome(t: Template, source: DataSource, fault: bool): Outcome
  {
    if !(t.HasSageQuery() && source == SageIntacct7) then Stub
    else if fault then Failure
    else match CannedData(t)
      case Some(p) => Canned(p)
      case None => Fallback
  }

  /** The canned data set a template's Sage query is meant to reach. */
  function CannedData(t: Template): Option<Pattern>
  {
    match t
    case ArAging => Some(ArAgingData)
    case VendorSpend => Some(VendorSpendData)
    case CashFlow => Some(CashFlowData)
    case _ => None
  }

  /** The executor treats generated SQL as a comment exactly when the template has no
      query for the source: generated text never starts with whitespace. */
  lemma GeneratedCommentIff(t: Template, source: DataSource)
    ensures IsComment(Sql(t, source)) <==> !(t.HasSageQuery() && source == SageIntacct7)
  {
    SqlIsCommentIff(t, source);
    if t.HasSageQuery() && source == SageIntacct7 {
      SageOnlyFallback(t, source);
      IsCommentAfterPrefix(Sql(t, source), Select);
    } else {
      IsCommentAfterPrefix(Sql(t, source), "--");
    }
  }

  lemma ArAgingSqlRoute()
    ensures MatchPattern(ArAgingSql()) == Some(ArAgingData)
  {
    ArAgingSqlMarkers();
    assert Matches(ArAgingData, ArAgingSql());
  }

  lemma VendorSpendSqlRoute()
    ensures MatchPattern(VendorSpendSql()) == Some(VendorSpendData)
  {
    VendorSpendSqlMarkers();
    assert Matches(VendorSpendData, VendorSpendSql());
    assert !Matches(ArAgingData, VendorSpendSql());
  }

  lemma CashFlowSqlRoute()
    ensures MatchPattern(CashFlowSql()) == Some(CashFlowData)
  {
    CashFlowSqlMarkers();
    assert Matches(CashFlowData, CashFlowSql());
    assert !Matches(ArAgingData, CashFlowSql());
    assert !Matches(VendorSpendData, CashFlowSql());
  }

  lemma CustomerProfitabilitySqlRoute()
    ensures MatchPattern(CustomerProfitabilitySql()).None?
  {
    CustomerProfitabilitySqlMarkers();
    forall p: Pattern
      ensures !Matches(p, CustomerProfitabilitySql())
    {
    }
  }

  lemma TopExpensesSqlRoute()
    ensures MatchPattern(TopExpensesSql()).None?
  {
    TopExpensesSqlMarkers();
    forall p: Pattern
      ensures !Matches(p, TopExpensesSql())
    {
    }
  }

  /** The canned data each Sage query selects, as the table above assigns it. */
  lemma SageQueryPattern(t: Template)
    requires t.HasSageQuery()
    ensures MatchPattern(SageQuery(t)) == CannedData(t)
  {
    match t
    case ArAging => ArAgingSqlRoute();
    case VendorSpend => VendorSpendSqlRoute();
    case CashFlow => CashFlowSqlRoute();
    case CustomerProfitability => CustomerProfitabilitySqlRoute();
    case TopExpenses => TopExpensesSqlRoute();
  }

  /** The executor's substring matching sends every template's SQL, on every source,
      to the answer the table above assigns it. */
  lemma TemplateRouting(t: Template, source: DataSource, fault: bool)
    ensures Classify(Sql(t, source), fault) == ExpectedOutcome(t, source, fault)
  {
    GeneratedCommentIff(t, source);
    if t.HasSageQuery() && source == SageIntacct7 {
      SageQueryPattern(t);
    }
  }

  /** Every template can be run: its SQL is never empty, and the answer it gets has
      the columns the table above promises. */
  lemma TemplateAnswer(t: Template, source: DataSource, fault: bool)
    ensures Sql(t, source) != []
    ensures Execute(Sql(t, source), fault).columns == ColumnsOf(ExpectedOutcome(t, source, fault))
  {
    SqlIsCommentIff(t, source);
    TemplateRouting(t, source, fault);
  }

  /** A question no rule recognises is answered with the stub, whatever the source
      and the transport. */
  lemma UnresolvedQuestionRouting(text: string, source: DataSource, fault: bool)
    requires Resolve(text).None?
    ensures Classify(QuestionSql(text, source), fault) == Stub
  {
    QuestionSqlCases(text, source);
    IsCommentAfterPrefix(UnresolvedNote(text), "--");
  }

  /** A typed question goes to the template its keywords pick: spend words to vendor
      spend, otherwise receivable words to receivables aging. */
  lemma QuestionRouting(text: string, source: DataSource, fault: bool)
    ensures var l := ToLower(text);
      (Contains(l, "spend") || Contains(l, "vendor"))
      ==> Classify(QuestionSql(text, source), fault) == ExpectedOutcome(VendorSpend, source, fault)
    ensures var l := ToLower(text);
      !(Contains(l, "spend") || Contains(l, "vendor"))
      && (Contains(l, "due") || Contains(l, "ar") || Contains(l, "aging"))
      ==> Classify(QuestionSql(text, source), fault) == ExpectedOutcome(ArAging, source, fault)
  {
    QuestionSqlCases(text, source);
    TemplateRouting(VendorSpend, source, fault);
    TemplateRouting(ArAging, source, fault);
  }
}
