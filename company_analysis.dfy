/** The insurer market-share panel (src/features/analysis/CompanyAnalysis.tsx):
    shares are taken of the overall filtered premium total, not of the sum
    of the ten rows shown. */
module CompanyAnalysis {
  import opened Wrappers
  import opened Filters
  import opened SqlFilters
  import opened Reshape

  const TotalSelect: string := "SELECT SUM(\"标准保费\") as total FROM car_insurance "
  const CompanySelect: string := "SELECT \"保险\" as company, SUM(\"标准保费\") as premium FROM car_insurance "
  const CompanyTail: string := " GROUP BY \"保险\" ORDER BY premium DESC LIMIT 10"

  function TotalSql(where: string): string { TotalSelect + where }
  function CompanySql(where: string): string { CompanySelect + where + CompanyTail }

  /** A row of the total query; `SUM` over no rows is null. */
  datatype TotalRow = TotalRow(total: Option<real>)

  /** `totalResult[0]?.total ?? 0` */
  function TotalFrom(rows: seq<TotalRow>): (t: real)
    ensures rows == [] || rows[0].total.None? ==> t == 0.0
    ensures rows != [] && rows[0].total.Some? ==> t == rows[0].total.value
  {
    if rows != [] && rows[0].total.Some? then rows[0].total.value else 0.0
  }

  datatype CompanyRow = CompanyRow(company: string, premium: real)
  datatype CompanyData = CompanyData(company: string, premium: real, share: real)

  /** `result.map(r => ({ company, premium, share }))` with the overall total. */
  function CompanyShares(rows: seq<CompanyRow>, total: real): (r: seq<CompanyData>)
    ensures |r| == |rows|
    ensures forall i :: 0 <= i < |rows| ==>
      r[i] == CompanyData(rows[i].company, rows[i].premium, Share(rows[i].premium, total))
  {
    if rows == [] then []
    else [CompanyData(rows[0].company, rows[0].premium, Share(rows[0].premium, total))]
         + CompanyShares(rows[1..], total)
  }

  function CompanyPremium(r: CompanyRow): real { r.premium }

  function CompanyShare(d: CompanyData): real { d.share }

  /** Against the overall total, the shares of the rows shown add up to their
      own premiums' fraction of it: at most 100 when they are a part of the
      total, and exactly 100 only when they make up all of it. With a total
      that is not positive every share is 0. */
  lemma OverallTotalShares(rows: seq<CompanyRow>, total: real)
    ensures Project(CompanyShares(rows, total), CompanyShare) == Shares(Project(rows, CompanyPremium), total)
    ensures total > 0.0 ==>
      Sum(Project(CompanyShares(rows, total), CompanyShare)) == Sum(Project(rows, CompanyPremium)) / total * 100.0
    ensures total > 0.0 && Sum(Project(rows, CompanyPremium)) <= total ==>
      && Sum(Project(CompanyShares(rows, total), CompanyShare)) <= 100.0
      && (Sum(Project(CompanyShares(rows, total), CompanyShare)) == 100.0 <==> Sum(Project(rows, CompanyPremium)) == total)
    ensures total <= 0.0 ==> forall i :: 0 <= i < |rows| ==> CompanyShares(rows, total)[i].share == 0.0
  {
    var ps := Project(rows, CompanyPremium);
    assert Project(CompanyShares(rows, total), CompanyShare) == Shares(ps, total);
    if total > 0.0 {
      SumShares(ps, total);
      if Sum(ps) <= total {
        SharesOfLargerTotal(ps, total);
      }
    }
  }

  /** `data.map(d => ({ name: d.company, value: d.premium }))` */
  function ChartSeries(data: seq<CompanyData>): (s: seq<(string, real)>)
    ensures |s| == |data|
    ensures forall i :: 0 <= i < |data| ==> s[i] == (data[i].company, data[i].premium)
  {
    if data == [] then [] else [(data[0].company, data[0].premium)] + ChartSeries(data[1..])
  }

  class CompanyAnalysisView {
    var data: seq<CompanyData>
    var loading: bool

    constructor ()
      ensures data == [] && loading
    {
      data := [];
      loading := true;
    }

    /** `fetchData`: the total is fetched first, then the top rows; `data` is
        replaced only when both succeed, and `loading` ends false. */
    method FetchData(filters: FilterState,
                     totalQuery: string -> Result<seq<TotalRow>>,
                     companyQuery: string -> Result<seq<CompanyRow>>)
      modifies this
      ensures !loading
      ensures
        var w := WhereText(Conditions(filters));
        var t := totalQuery(TotalSql(w));
        var c := companyQuery(CompanySql(w));
        data == (if t.Success? && c.Success? then CompanyShares(c.value, TotalFrom(t.value)) else old(data))
    {
      loading := true;
      var where := BuildWhereClause(filters);
      var totalResult := totalQuery(TotalSql(where));
      if totalResult.Success? {
        var total := TotalFrom(totalResult.value);
        var result := companyQuery(CompanySql(where));
        if result.Success? {
          data := CompanyShares(result.value, total);
        }
      }
      loading := false;
    }
  }
}
