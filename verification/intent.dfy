/** The keyword classifier that turns a typed question into SQL: the first rule with a
    keyword in the lower-cased question picks a template, and a question no rule
    recognises becomes a comment that explains itself. */
module Intent {
  import opened Domain
  import opened Text
  import opened Templates

  /** A rule fires when the lower-cased question contains any of its keywords. */
  datatype Rule = Rule(keywords: seq<string>, templateId: string)

  function SpendRule(): Rule { Rule(["spend", "vendor"], "vendor_spend") }
  function ReceivablesRule(): Rule { Rule(["due", "ar", "aging"], "ar_aging") }

  /** The rules in the order they are tried: spend questions first, then receivables. */
  const Rules: seq<Rule> := [SpendRule(), ReceivablesRule()]

  /** Some keyword occurs in the lower-cased question. */
  predicate AnyKeyword(lowered: string, keywords: seq<string>)
  {
    keywords != [] && (Contains(lowered, keywords[0]) || AnyKeyword(lowered, keywords[1..]))
  }

  predicate Fires(r: Rule, lowered: string)
  {
    AnyKeyword(lowered, r.keywords)
  }

  /** The first rule that fires on the question. */
  function Resolve(text: string): (r: Option<Rule>)
    ensures r.Some? ==> r.value in Rules && Fires(r.value, ToLower(text))
    ensures r.None? <==> forall i | 0 <= i < |Rules| :: !Fires(Rules[i], ToLower(text))
  {
    FirstWhere(Rules, (r: Rule) => Fires(r, ToLower(text)))
  }

  /** The comment a question no rule recognises turns into. */
  function UnresolvedNote(text: string): (sql: string)
    ensures StartsWith(sql, "--")
    ensures Contains(sql, text)
  {
    var head := "-- Could " + "not " + "interpret " + "intent " + "from: \"";
    assert |head| == 37;
    assert StartsWith(head, "--");
    var sql := head + text + "\". \n" + "-- Showing " + "generic " + "mock data.";
    assert StartsWith(sql, "--") by {
      assert sql[..2] == head[..2];
    }
    assert OccursAt(sql, text, 37) by {
      assert sql[37..37 + |text|] == text;
    }
    OccursAtContains(sql, text, 37);
    sql
  }

  /** The SQL a typed question runs: the resolved template's SQL for the source, or
      the explanatory comment. A rule whose id names no template would give the empty
      string. */
  function QuestionSql(text: string, source: DataSource): (sql: string)
    ensures sql != []
    ensures StartsWith(sql, "--") <==> Resolve(text).None? || source != SageIntacct7
    ensures Resolve(text).None? ==> Contains(sql, text)
  {
    match Resolve(text)
    case None => UnresolvedNote(text)
    case Some(rule) =>
      assert rule == SpendRule() || rule == ReceivablesRule();
      RuleTargetsRegistered();
      match Find(rule.templateId)
      case Some(t) =>
        assert t.HasSageQuery();
        SqlIsCommentIff(t, source);
        Sql(t, source)
      case None => ""
  }

  /** Both rules name a registered template, so the empty-string fallback of
      `QuestionSql` is never taken. */
  lemma RuleTargetsRegistered()
    ensures Find(SpendRule().templateId) == Some(VendorSpend)
    ensures Find(ReceivablesRule().templateId) == Some(ArAging)
  {
    FindRoundTrip(VendorSpend);
    FindRoundTrip(ArAging);
  }

  /** `Resolve` is the if/else chain over the five keywords: spend words win over
      receivable words, and a question with none of them is unresolved. */
  lemma ResolveCases(text: string)
    ensures var l := ToLower(text);
      (Contains(l, "spend") || Contains(l, "vendor")) ==> Resolve(text) == Some(SpendRule())
    ensures var l := ToLower(text);
      !(Contains(l, "spend") || Contains(l, "vendor"))
      && (Contains(l, "due") || Contains(l, "ar") || Contains(l, "aging"))
      ==> Resolve(text) == Some(ReceivablesRule())
    ensures var l := ToLower(text);
      Resolve(text).None?
      <==> !(Contains(l, "spend") || Contains(l, "vendor") || Contains(l, "due")
             || Contains(l, "ar") || Contains(l, "aging"))
  {
    var l := ToLower(text);
    assert Fires(SpendRule(), l) <==> Contains(l, "spend") || Contains(l, "vendor") by {
      assert ["spend", "vendor"][1..] == ["vendor"];
      assert ["vendor"][1..] == [];
      assert AnyKeyword(l, ["vendor"]) <==> Contains(l, "vendor");
      assert AnyKeyword(l, ["spend", "vendor"]) <==> Contains(l, "spend") || AnyKeyword(l, ["vendor"]);
    }
    assert Fires(ReceivablesRule(), l) <==> Contains(l, "due") || Contains(l, "ar") || Contains(l, "aging") by {
      assert ["due", "ar", "aging"][1..] == ["ar", "aging"];
      assert ["ar", "aging"][1..] == ["aging"];
      assert ["aging"][1..] == [];
      assert AnyKeyword(l, ["aging"]) <==> Contains(l, "aging");
      assert AnyKeyword(l, ["ar", "aging"]) <==> Contains(l, "ar") || AnyKeyword(l, ["aging"]);
      assert AnyKeyword(l, ["due", "ar", "aging"]) <==> Contains(l, "due") || AnyKeyword(l, ["ar", "aging"]);
    }
  }

  /** The SQL a question runs, by cases on its keywords. */
  lemma QuestionSqlCases(text: string, source: DataSource)
    ensures var l := ToLower(text);
      (Contains(l, "spend") || Contains(l, "vendor")) ==> QuestionSql(text, source) == Sql(VendorSpend, source)
    ensures var l := ToLower(text);
      !(Contains(l, "spend") || Contains(l, "vendor"))
      && (Contains(l, "due") || Contains(l, "ar") || Contains(l, "aging"))
      ==> QuestionSql(text, source) == Sql(ArAging, source)
    ensures Resolve(text).None? ==> QuestionSql(text, source) == UnresolvedNote(text)
  {
    ResolveCases(text);
    RuleTargetsRegistered();
  }

  /** Matching ignores ASCII case: a shouted vendor question still reaches vendor spend. */
  lemma ShoutedVendorQuestion()
    ensures Resolve("Top VENDORS") == Some(SpendRule())
  {
    var l := ToLower("Top VENDORS");
    assert l == "top vendors";
    assert OccursAt(l, "vendor", 4);
    OccursAtContains(l, "vendor", 4);
    ResolveCases("Top VENDORS");
  }

  /** Keywords match anywhere inside a word: "quarterly" contains "ar", so a question about the
      quarter is answered with receivables aging. */
  lemma QuarterlyMeansReceivables()
    ensures Resolve("Quarterly") == Some(ReceivablesRule())
  {
    var l := ToLower("Quarterly");
    assert l == "quarterly";
    MissingCharExcludes(l, "spend", 'p');
    MissingCharExcludes(l, "vendor", 'd');
    assert OccursAt(l, "ar", 2);
    OccursAtContains(l, "ar", 2);
    ResolveCases("Quarterly");
  }

  /** A question with none of the keywords is unresolved. */
  lemma UnrecognisedQuestion()
    ensures Resolve("Net income").None?
  {
    var l := ToLower("Net income");
    assert l == "net income";
    MissingCharExcludes(l, "spend", 'p');
    MissingCharExcludes(l, "vendor", 'v');
    MissingCharExcludes(l, "due", 'd');
    MissingCharExcludes(l, "ar", 'a');
    MissingCharExcludes(l, "aging", 'a');
    ResolveCases("Net income");
  }

  /** A vendor question that also contains "ar" (in "are") still goes to vendor spend:
      the spend rule is tried first. */
  lemma VendorWinsOverReceivables()
    ensures Resolve("Who are my " + "top vendors?") == Some(SpendRule())
  {
    var a, b := "Who are my ", "top vendors?";
    ToLowerAppend(a, b);
    var la, lb := ToLower(a), ToLower(b);
    assert la == "who are my ";
    assert lb == "top vendors?";
    assert OccursAt(la, "ar", 4);
    OccursAtContains(la, "ar", 4);
    assert OccursAt(lb, "vendor", 4);
    OccursAtContains(lb, "vendor", 4);
    ContainsAppend(la, lb, "ar");
    ContainsAppend(la, lb, "vendor");
    ResolveCases(a + b);
  }
}
