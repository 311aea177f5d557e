/**
 * The paths the financial dashboard binds to number editors
 * (src/components/Header.jsx, src/components/IncomeStatement.jsx and
 * src/components/FinancialRatios.jsx), checked against the default tree of
 * the financial store: each leads through objects to a number, which the
 * editor then shows.
 */
module FinancialPaths {
  import opened Optional
  import opened Text
  import opened JsValues
  import opened FinancialData
  import opened EditableNumberWidget

  /** `a` names a number field of `t`. */
  predicate Number1(t: Json, a: string) {
    Names1(t, a) && t.fields[a].JNum?
  }

  /** `a.b` leads through an object of `t` to a number. */
  predicate Number2(t: Json, a: string, b: string) {
    Names2(t, a, b) && t.fields[a].fields[b].JNum?
  }

  /** `topOffices.<i>.f` leads through the office array of `t` to a number. */
  predicate OfficeNumber(t: Json, i: nat, f: string) {
    && Names1(t, "topOffices") && t.fields["topOffices"].JArr?
    && i < |t.fields["topOffices"].items|
    && Names1(t.fields["topOffices"].items[i], f)
    && t.fields["topOffices"].items[i].fields[f].JNum?
  }

  /** An editor bound to a one-segment number path shows that number. */
  lemma ShowsNumber1(t: Json, a: string)
    requires Number1(t, a) && '.' !in a
    ensures Shown(t, a) == t.fields[a]
  {
    Names1Resolves(t, a);
    ShownValue(t, a);
  }

  /** An editor bound to `a.b` shows the number found there. */
  lemma ShowsNumber2(t: Json, a: string, b: string)
    requires Number2(t, a, b) && '.' !in a && '.' !in b
    ensures Shown(t, a + "." + b) == t.fields[a].fields[b]
  {
    Names2Resolves(t, a, b);
    ShownValue(t, a + "." + b);
  }

  /** The path the office table builds for row `i`. */
  function OfficePath(i: nat, f: string): string {
    "topOffices." + IndexKey(i) + "." + f
  }

  /** `topOffices.<i>.f` reads the array element's field: the decimal key
      of `i` denotes index `i`. */
  lemma OfficeResolves(t: Json, i: nat, f: string)
    requires OfficeNumber(t, i, f) && '.' !in f && i <= MaxArrayIndex
    ensures Resolve(Defined(t), Split(OfficePath(i, f), '.')) ==
      Some(Defined(t.fields["topOffices"].items[i].fields[f]))
  {
    var a, k := "topOffices", IndexKey(i);
    assert '.' !in a by { assert forall j | 0 <= j < |a| :: a[j] != '.'; }
    assert '.' !in k by { assert forall j | 0 <= j < |k| :: IsDigit(k[j]); }
    assert OfficePath(i, f) == a + "." + (k + "." + f);
    SplitPrefix(a, k + "." + f, '.');
    SplitPrefix(k, f, '.');
    SplitNoSeparator(f, '.');
    var keys := [a, k, f];
    calc {
      Split(OfficePath(i, f), '.');
      [a] + Split(k + "." + f, '.');
      [a] + ([k] + Split(f, '.'));
      keys;
    }
    IndexOfIndexKey(i);
    var arr, office := t.fields[a], t.fields[a].items[i];
    assert Resolve(Defined(t), keys) == Resolve(Defined(arr), [k, f]);
    assert Resolve(Defined(arr), [k, f]) == Resolve(Defined(office), [f]);
    assert Resolve(Defined(office), [f]) == Resolve(Defined(office.fields[f]), []);
  }

  /** An office cell shows the number stored for that office. */
  lemma ShowsOfficeNumber(t: Json, i: nat, f: string)
    requires OfficeNumber(t, i, f) && '.' !in f && i <= MaxArrayIndex
    ensures Shown(t, OfficePath(i, f)) == t.fields["topOffices"].items[i].fields[f]
  {
    OfficeResolves(t, i, f);
    ShownValue(t, OfficePath(i, f));
  }

  // ------------------------------------------------ the default tree

  /** Header.jsx binds four top-level numbers. */
  lemma HeaderPaths()
    ensures Number1(FinancialDefaults(), "grossRevenue")
    ensures Number1(FinancialDefaults(), "avgCommission")
    ensures Number1(FinancialDefaults(), "netProfit")
    ensures Number1(FinancialDefaults(), "netProfitMargin")
  {
  }

  /** IncomeStatement.jsx binds both quarters' four lines. */
  lemma QuarterPaths()
    ensures Number2(FinancialDefaults(), "currentQuarter", "revenue")
    ensures Number2(FinancialDefaults(), "currentQuarter", "cogs")
    ensures Number2(FinancialDefaults(), "currentQuarter", "operatingExpenses")
    ensures Number2(FinancialDefaults(), "currentQuarter", "netIncome")
    ensures Number2(FinancialDefaults(), "previousQuarter", "revenue")
    ensures Number2(FinancialDefaults(), "previousQuarter", "cogs")
    ensures Number2(FinancialDefaults(), "previousQuarter", "operatingExpenses")
    ensures Number2(FinancialDefaults(), "previousQuarter", "netIncome")
  {
  }

  /** IncomeStatement.jsx binds revenue and margin of offices 0 to 3. */
  lemma OfficePaths()
    ensures forall i | 0 <= i < 4 :: OfficeNumber(FinancialDefaults(), i, "revenue")
    ensures forall i | 0 <= i < 4 :: OfficeNumber(FinancialDefaults(), i, "margin")
  {
  }

  /** FinancialRatios.jsx binds eight market-analysis figures. */
  lemma MarketPaths()
    ensures Number2(FinancialDefaults(), "marketAnalysis", "averagePrice")
    ensures Number2(FinancialDefaults(), "marketAnalysis", "totalListings")
    ensures Number2(FinancialDefaults(), "marketAnalysis", "pricePerSqFt")
    ensures Number2(FinancialDefaults(), "marketAnalysis", "medianDaysOnMarket")
    ensures Number2(FinancialDefaults(), "marketAnalysis", "inventoryMonths")
    ensures Number2(FinancialDefaults(), "marketAnalysis", "soldProperties")
    ensures Number2(FinancialDefaults(), "marketAnalysis", "totalVolume")
    ensures Number2(FinancialDefaults(), "marketAnalysis", "avgDaysOnMarket")
  {
  }

  /** FinancialRatios.jsx binds the property distribution, the KPIs and the
      award count. */
  lemma RatioPaths()
    ensures Number2(FinancialDefaults(), "propertyDistribution", "active")
    ensures Number2(FinancialDefaults(), "propertyDistribution", "pending")
    ensures Number2(FinancialDefaults(), "propertyDistribution", "sold")
    ensures Number2(FinancialDefaults(), "propertyDistribution", "expired")
    ensures Number2(FinancialDefaults(), "kpi", "agentRetention")
    ensures Number2(FinancialDefaults(), "kpi", "clientSatisfaction")
    ensures Number2(FinancialDefaults(), "kpi", "marketShare")
    ensures Number2(FinancialDefaults(), "kpi", "referralRate")
    ensures Number2(FinancialDefaults(), "awards", "count")
  {
  }
}
