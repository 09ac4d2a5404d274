/** The dashboard view (src/features/dashboard/index.tsx): the four queries
    it issues, the reshaping of their rows, and its `loading` and tab state.
    The query engine is an oracle that maps query text to rows. */
module Dashboard {
  import opened Wrappers
  import opened Filters
  import opened SqlFilters
  import opened Reshape

  // ---------------------------------------------------------------------
  // Query texts (whitespace of the template literals is normalised)

  /** The columns the two rankings group by. They are not the columns the
      city and business-type filters restrict. */
  const CityGroupColumn: string := "地市"
  const CompanyGroupColumn: string := "保险"

  lemma RankingColumnsDifferFromFilterColumns()
    ensures CityGroupColumn != ClauseColumn(Cities)
    ensures CompanyGroupColumn != ClauseColumn(Companies)
    ensures CityGroupColumn != OptionColumn(Cities)
    ensures CompanyGroupColumn != OptionColumn(Companies)
  {
    assert CityGroupColumn[0] != ClauseColumn(Cities)[0];
    assert |CompanyGroupColumn| != |ClauseColumn(Companies)|;
  }

  const KpiSelect: string :=
    "SELECT COALESCE(SUM(\"标准保费\"), 0) as total_premium, COALESCE(SUM(\"标准件数\"), 0) as total_policies, "
    + "COUNT(DISTINCT \"保险\") as company_count, COUNT(DISTINCT \"地市\") as city_count FROM car_insurance "
  const TrendSelect: string :=
    "SELECT \"年月\" as year_month, SUM(\"标准保费\") as premium, SUM(\"标准件数\") as policies FROM car_insurance "
  const TrendTail: string := " GROUP BY \"年月\" ORDER BY \"年月\""
  const RankingFrom: string := "\" as name, SUM(\"标准保费\") as premium, SUM(\"标准件数\") as policies FROM car_insurance "
  const RankingTail: string := " ORDER BY premium DESC LIMIT 10"

  function KpiSql(where: string): string
  {
    KpiSelect + where
  }

  function TrendSql(where: string): string
  {
    TrendSelect + where + TrendTail
  }

  function RankingSql(groupColumn: string, where: string): string
  {
    "SELECT \"" + groupColumn + RankingFrom + where + " GROUP BY \"" + groupColumn + "\"" + RankingTail
  }

  // ---------------------------------------------------------------------
  // KPI

  /** A KPI result row; a field the engine leaves null or absent is `None`. */
  datatype KpiRow = KpiRow(
    totalPremium: Option<real>,
    totalPolicies: Option<real>,
    companyCount: Option<int>,
    cityCount: Option<int>)

  datatype KpiData = KpiData(totalPremium: real, totalPolicies: real, companyCount: int, cityCount: int)

  function OrZero(x: Option<real>): real { if x.Some? then x.value else 0.0 }
  function OrZeroInt(x: Option<int>): int { if x.Some? then x.value else 0 }

  /** `kpiResult[0]?.field ?? 0` for each field. */
  function KpiFrom(rows: seq<KpiRow>): (k: KpiData)
    ensures rows == [] ==> k == KpiData(0.0, 0.0, 0, 0)
    ensures rows != [] ==>
      && (rows[0].totalPremium.Some? ==> k.totalPremium == rows[0].totalPremium.value)
      && (rows[0].totalPremium.None? ==> k.totalPremium == 0.0)
      && (rows[0].totalPolicies.Some? ==> k.totalPolicies == rows[0].totalPolicies.value)
      && (rows[0].totalPolicies.None? ==> k.totalPolicies == 0.0)
      && (rows[0].companyCount.Some? ==> k.companyCount == rows[0].companyCount.value)
      && (rows[0].companyCount.None? ==> k.companyCount == 0)
      && (rows[0].cityCount.Some? ==> k.cityCount == rows[0].cityCount.value)
      && (rows[0].cityCount.None? ==> k.cityCount == 0)
  {
    if rows == [] then KpiData(0.0, 0.0, 0, 0)
    else
      var r := rows[0];
      KpiData(OrZero(r.totalPremium), OrZero(r.totalPolicies), OrZeroInt(r.companyCount), OrZeroInt(r.cityCount))
  }

  // ---------------------------------------------------------------------
  // Trend

  datatype TrendRow = TrendRow(yearMonth: string, premium: real, policies: real)
  datatype TrendData = TrendData(yearMonth: string, premium: real, policies: real)

  /** `trendResult.map(r => ({ yearMonth, premium, policies }))` */
  function MapTrend(rows: seq<TrendRow>): (r: seq<TrendData>)
    ensures |r| == |rows|
    ensures forall i :: 0 <= i < |rows| ==>
      r[i].yearMonth == rows[i].yearMonth && r[i].premium == rows[i].premium && r[i].policies == rows[i].policies
  {
    if rows == [] then [] else [TrendData(rows[0].yearMonth, rows[0].premium, rows[0].policies)] + MapTrend(rows[1..])
  }

  /** The query rows a list of trend points came from. */
  function UnmapTrend(ds: seq<TrendData>): seq<TrendRow>
  {
    if ds == [] then [] else [TrendRow(ds[0].yearMonth, ds[0].premium, ds[0].policies)] + UnmapTrend(ds[1..])
  }

  /** The trend mapping is a bijection between query rows and chart
      points: it loses nothing and each list of points has exactly one
      source. */
  lemma {:induction false} TrendMappingInvertible(rows: seq<TrendRow>, ds: seq<TrendData>)
    ensures UnmapTrend(MapTrend(rows)) == rows
    ensures MapTrend(UnmapTrend(ds)) == ds
    decreases |rows| + |ds|
  {
    if rows != [] {
      TrendMappingInvertible(rows[1..], []);
      assert MapTrend(rows)[1..] == MapTrend(rows[1..]);
    }
    if ds != [] {
      TrendMappingInvertible([], ds[1..]);
      assert UnmapTrend(ds)[1..] == UnmapTrend(ds[1..]);
    }
  }

  // ---------------------------------------------------------------------
  // Rankings

  datatype GroupRow = GroupRow(name: string, premium: real, policies: real)
  datatype RankingData = RankingData(name: string, premium: real, policies: real, share: real)

  function PremiumOf(r: GroupRow): real { r.premium }

  function ShareOf(d: RankingData): real { d.share }

  function RankWith(rows: seq<GroupRow>, total: real): (r: seq<RankingData>)
    ensures |r| == |rows|
    ensures forall i :: 0 <= i < |rows| ==>
      r[i] == RankingData(rows[i].name, rows[i].premium, rows[i].policies, Share(rows[i].premium, total))
  {
    if rows == [] then []
    else [RankingData(rows[0].name, rows[0].premium, rows[0].policies, Share(rows[0].premium, total))]
         + RankWith(rows[1..], total)
  }

  /** A ranking: each row keeps its name, premium and policies, in order, and
      gets its share of the premiums summed over the returned rows. */
  function Rank(rows: seq<GroupRow>): (r: seq<RankingData>)
  {
    RankWith(rows, Sum(Project(rows, PremiumOf)))
  }

  /** Rank keeps the rows' order and identity, and its shares are those of
      each premium in the premium total; when that total is positive they
      add up to 100, and when no premium is negative each lies in [0, 100]. */
  lemma RankProperties(rows: seq<GroupRow>)
    ensures |Rank(rows)| == |rows|
    ensures forall i :: 0 <= i < |rows| ==>
      Rank(rows)[i].name == rows[i].name && Rank(rows)[i].premium == rows[i].premium
      && Rank(rows)[i].policies == rows[i].policies
    ensures Project(Rank(rows), ShareOf) == Shares(Project(rows, PremiumOf), Sum(Project(rows, PremiumOf)))
    ensures Sum(Project(rows, PremiumOf)) > 0.0 ==> Sum(Project(Rank(rows), ShareOf)) == 100.0
    ensures Sum(Project(rows, PremiumOf)) <= 0.0 ==> forall i :: 0 <= i < |rows| ==> Rank(rows)[i].share == 0.0
    ensures (forall i :: 0 <= i < |rows| ==> rows[i].premium >= 0.0) ==>
      forall i :: 0 <= i < |rows| ==> 0.0 <= Rank(rows)[i].share <= 100.0
  {
    var ps := Project(rows, PremiumOf);
    var total := Sum(ps);
    assert Project(Rank(rows), ShareOf) == Shares(ps, total);
    if total > 0.0 {
      SharesOfOwnTotal(ps);
    }
    if forall i :: 0 <= i < |rows| ==> rows[i].premium >= 0.0 {
      SumNonNegative(ps);
      forall i | 0 <= i < |rows| ensures 0.0 <= Rank(rows)[i].share <= 100.0 {
        if total > 0.0 {
          ShareBounds(ps[i], total);
        }
      }
    }
  }

  // ---------------------------------------------------------------------
  // Tabs

  datatype Tab = Overview | CityTab | CompanyTab | InsuranceTab

  /** The panel groups below the tab bar. */
  datatype Panel = TrendAndRankings | CityAnalysisPanel | CompanyAnalysisPanel | InsuranceTypeAnalysisPanel

  /** The render conditions of the four panel groups. */
  predicate Rendered(tab: Tab, p: Panel)
  {
    || (tab == Overview && p == TrendAndRankings)
    || (tab == CityTab && p == CityAnalysisPanel)
    || (tab == CompanyTab && p == CompanyAnalysisPanel)
    || (tab == InsuranceTab && p == InsuranceTypeAnalysisPanel)
  }

  function PanelFor(tab: Tab): Panel
  {
    match tab
    case Overview => TrendAndRankings
    case CityTab => CityAnalysisPanel
    case CompanyTab => CompanyAnalysisPanel
    case InsuranceTab => InsuranceTypeAnalysisPanel
  }

  /** Every tab value renders exactly one panel group, and distinct tabs
      render distinct groups. */
  lemma ExactlyOnePanel(tab: Tab, p: Panel)
    ensures Rendered(tab, p) <==> p == PanelFor(tab)
    ensures forall t: Tab :: t != tab ==> PanelFor(t) != PanelFor(tab)
  {
  }

  // ---------------------------------------------------------------------
  // The component's state

  class DashboardView {
    var activeTab: Tab
    var kpiData: Option<KpiData>
    var trendData: seq<TrendData>
    var cityRanking: seq<RankingData>
    var companyRanking: seq<RankingData>
    var loading: bool

    constructor ()
      ensures activeTab == Overview && kpiData == None && trendData == []
      ensures cityRanking == [] && companyRanking == [] && loading
    {
      activeTab := Overview;
      kpiData := None;
      trendData := [];
      cityRanking := [];
      companyRanking := [];
      loading := true;
    }

    method SelectTab(t: Tab)
      modifies this
      ensures activeTab == t
      ensures kpiData == old(kpiData) && trendData == old(trendData) && loading == old(loading)
      ensures cityRanking == old(cityRanking) && companyRanking == old(companyRanking)
    {
      activeTab := t;
    }

    /** `fetchData`: the queries run one after another with the clause built
        from `filters`; each result is stored as soon as it arrives, the first
        failure skips the rest, and `loading` ends false in every case. */
    method FetchData(filters: FilterState,
                     kpiQuery: string -> Result<seq<KpiRow>>,
                     trendQuery: string -> Result<seq<TrendRow>>,
                     cityQuery: string -> Result<seq<GroupRow>>,
                     companyQuery: string -> Result<seq<GroupRow>>)
      modifies this
      ensures !loading && activeTab == old(activeTab)
      ensures
        var w := WhereText(Conditions(filters));
        var k := kpiQuery(KpiSql(w));
        var t := trendQuery(TrendSql(w));
        var c := cityQuery(RankingSql(CityGroupColumn, w));
        var m := companyQuery(RankingSql(CompanyGroupColumn, w));
        && kpiData == (if k.Success? then Some(KpiFrom(k.value)) else old(kpiData))
        && trendData == (if k.Success? && t.Success? then MapTrend(t.value) else old(trendData))
        && cityRanking == (if k.Success? && t.Success? && c.Success? then Rank(c.value) else old(cityRanking))
        && companyRanking ==
             (if k.Success? && t.Success? && c.Success? && m.Success? then Rank(m.value) else old(companyRanking))
    {
      loading := true;
      var where := BuildWhereClause(filters);
      var kpi := kpiQuery(KpiSql(where));
      if kpi.Success? {
        kpiData := Some(KpiFrom(kpi.value));
        var trend := trendQuery(TrendSql(where));
        if trend.Success? {
          trendData := MapTrend(trend.value);
          var city := cityQuery(RankingSql(CityGroupColumn, where));
          if city.Success? {
            cityRanking := Rank(city.value);
            var company := companyQuery(RankingSql(CompanyGroupColumn, where));
            if company.Success? {
              companyRanking := Rank(company.value);
            }
          }
        }
      }
      loading := false;
    }
  }
}
