/** The WHERE-clause builder (src/shared/sql/filters.ts), with a small
    reader for the text it produces, so that the clause can be shown to
    denote exactly the selection it was built from. */
module SqlFilters {
  import opened Wrappers
  import opened Filters

  const Quote: char := '\''
  const DoubleQuote: char := '"'

  /** The column each dimension restricts. */
  function ClauseColumn(k: FilterKey): (c: string)
    ensures c != [] && DoubleQuote !in c
  {
    match k
    case YearMonths => "年月"
    case Cities => "城市"
    case InsuranceTypes => "险种"
    case Companies => "业务类型"
  }

  /** The selector options of each key are fetched from the very column its
      condition restricts. */
  lemma OptionsComeFromClauseColumns(k: FilterKey)
    ensures OptionColumn(k) == ClauseColumn(k)
  {
  }

  // ---------------------------------------------------------------------
  // escapeSQL

  function QuoteCount(s: string): nat
  {
    if s == [] then 0 else (if s[0] == Quote then 1 else 0) + QuoteCount(s[1..])
  }

  /** `escapeSQL`: every single quote is doubled. */
  function Escape(s: string): (r: string)
    ensures |r| == |s| + QuoteCount(s)
    ensures Quote !in s ==> r == s
  {
    if s == [] then []
    else (if s[0] == Quote then [Quote, Quote] else [s[0]]) + Escape(s[1..])
  }

  /** Collapses each pair of quotes back into one. */
  function Unescape(s: string): string
    decreases |s|
  {
    if s == [] then []
    else if |s| >= 2 && s[0] == Quote && s[1] == Quote then [Quote] + Unescape(s[2..])
    else [s[0]] + Unescape(s[1..])
  }

  lemma {:induction false} UnescapeEscape(s: string)
    ensures Unescape(Escape(s)) == s
    decreases |s|
  {
    if s != [] {
      var t := Escape(s[1..]);
      UnescapeEscape(s[1..]);
      if s[0] == Quote {
        assert Escape(s) == [Quote, Quote] + t;
        assert (Escape(s))[2..] == t;
      } else {
        assert Escape(s) == [s[0]] + t;
        assert (Escape(s))[1..] == t;
      }
    }
  }

  /** Every quote of `s` stands in an adjacent pair. */
  predicate QuotesPaired(s: string)
    decreases |s|
  {
    s == []
    || (s[0] != Quote && QuotesPaired(s[1..]))
    || (|s| >= 2 && s[0] == Quote && s[1] == Quote && QuotesPaired(s[2..]))
  }

  lemma {:induction false} EscapePairsQuotes(s: string)
    ensures QuotesPaired(Escape(s))
    decreases |s|
  {
    if s != [] {
      var t := Escape(s[1..]);
      EscapePairsQuotes(s[1..]);
      if s[0] == Quote {
        assert Escape(s) == [Quote, Quote] + t;
        assert (Escape(s))[2..] == t;
      } else {
        assert Escape(s) == [s[0]] + t;
        assert (Escape(s))[1..] == t;
      }
    }
  }

  // ---------------------------------------------------------------------
  // Reading the text back

  /** Reads the body of a quoted SQL string literal whose opening quote has
      already been consumed: a doubled quote stands for one quote, a lone
      quote ends the literal. Yields the value and what follows the closing
      quote, or `None` when the literal is never closed. */
  function ReadLiteral(s: string): (r: Option<(string, string)>)
    decreases |s|
    ensures r.Some? ==> |r.value.1| < |s|
  {
    if s == [] then None
    else if s[0] == Quote then
      if |s| >= 2 && s[1] == Quote then
        match ReadLiteral(s[2..])
        case None => None
        case Some(p) => Some(([Quote] + p.0, p.1))
      else Some(([], s[1..]))
    else
      match ReadLiteral(s[1..])
      case None => None
      case Some(p) => Some(([s[0]] + p.0, p.1))
  }

  /** An escaped value followed by a closing quote reads back as exactly that
      value: no quote inside the value can end the literal early. */
  lemma {:induction false} ReadEscapedLiteral(v: string, rest: string)
    requires rest == [] || rest[0] != Quote
    ensures ReadLiteral(Escape(v) + [Quote] + rest) == Some((v, rest))
    decreases |v|
  {
    var s := Escape(v) + [Quote] + rest;
    if v == [] {
      assert s == [Quote] + rest;
      assert s[1..] == rest;
    } else {
      var t := Escape(v[1..]) + [Quote] + rest;
      ReadEscapedLiteral(v[1..], rest);
      if v[0] == Quote {
        assert s == [Quote, Quote] + t;
        assert s[2..] == t;
        assert [Quote] + v[1..] == v;
      } else {
        assert s == [v[0]] + t;
        assert s[1..] == t;
        assert [v[0]] + v[1..] == v;
      }
    }
  }

  /** Reads a quoted identifier whose opening double quote has already been
      consumed. */
  function ReadIdent(s: string): (r: Option<(string, string)>)
    ensures r.Some? ==> |r.value.1| < |s|
  {
    if s == [] then None
    else if s[0] == DoubleQuote then Some(([], s[1..]))
    else
      match ReadIdent(s[1..])
      case None => None
      case Some(p) => Some(([s[0]] + p.0, p.1))
  }

  lemma {:induction false} ReadIdentBack(col: string, rest: string)
    requires DoubleQuote !in col
    ensures ReadIdent(col + [DoubleQuote] + rest) == Some((col, rest))
  {
    var s := col + [DoubleQuote] + rest;
    if col == [] {
      assert s == [DoubleQuote] + rest;
      assert s[1..] == rest;
    } else {
      ReadIdentBack(col[1..], rest);
      assert s[1..] == col[1..] + [DoubleQuote] + rest;
      assert [col[0]] + col[1..] == col;
    }
  }

  // ---------------------------------------------------------------------
  // Building the clause

  /** `'${escapeSQL(v)}'` */
  function Literal(v: string): string
  {
    [Quote] + Escape(v) + [Quote]
  }

  function Literals(vs: seq<string>): (r: seq<string>)
    ensures |r| == |vs|
    ensures forall i :: 0 <= i < |vs| ==> r[i] == Literal(vs[i])
  {
    if vs == [] then [] else [Literal(vs[0])] + Literals(vs[1..])
  }

  /** `parts.join(sep)` */
  function Join(parts: seq<string>, sep: string): string
  {
    if parts == [] then []
    else if |parts| == 1 then parts[0]
    else parts[0] + sep + Join(parts[1..], sep)
  }

  /** One membership condition of the clause. */
  datatype InClause = InClause(column: string, values: seq<string>)

  /** `"<column>" IN ('v1', 'v2', ...)` */
  function Render(c: InClause): string
  {
    [DoubleQuote] + c.column + [DoubleQuote] + " IN (" + Join(Literals(c.values), ", ") + ")"
  }

  function Renders(cs: seq<InClause>): (r: seq<string>)
    ensures |r| == |cs|
  {
    if cs == [] then [] else [Render(cs[0])] + Renders(cs[1..])
  }

  /** The text for a list of conditions: nothing at all, or `WHERE `
      followed by the conditions joined with ` AND `. */
  function WhereText(cs: seq<InClause>): string
  {
    if cs == [] then [] else "WHERE " + Join(Renders(cs), " AND ")
  }

  /** The order in which the dimensions are examined. */
  const DimensionOrder: seq<FilterKey> := [YearMonths, Cities, InsuranceTypes, Companies]

  /** One condition per dimension of `keys` with a non-empty selection, in
      the order of `keys`. */
  function ConditionsOver(keys: seq<FilterKey>, f: FilterState): seq<InClause>
  {
    if keys == [] then []
    else
      (if Get(f, keys[0]) != [] then [InClause(ClauseColumn(keys[0]), Get(f, keys[0]))] else [])
      + ConditionsOver(keys[1..], f)
  }

  function Conditions(f: FilterState): seq<InClause>
  {
    ConditionsOver(DimensionOrder, f)
  }

  /** `buildWhereClause`: the conditions are pushed one dimension at a time
      onto a local list, then joined. */
  method BuildWhereClause(f: FilterState) returns (r: string)
    ensures r == WhereText(Conditions(f))
    ensures r == [] <==> NoSelection(f)
    ensures r != [] ==> "WHERE " <= r
  {
    var conditions: seq<InClause> := [];
    if f.yearMonths != [] {
      conditions := conditions + [InClause("年月", f.yearMonths)];
    }
    if f.cities != [] {
      conditions := conditions + [InClause("城市", f.cities)];
    }
    if f.insuranceTypes != [] {
      conditions := conditions + [InClause("险种", f.insuranceTypes)];
    }
    if f.companies != [] {
      conditions := conditions + [InClause("业务类型", f.companies)];
    }
    ConditionsUnrolled(f);
    assert conditions == Conditions(f);
    ConditionsEmptyIff(f);
    if conditions == [] {
      return "";
    }
    r := "WHERE " + Join(Renders(conditions), " AND ");
  }

  lemma ConditionsUnrolled(f: FilterState)
    ensures Conditions(f) ==
      (if f.yearMonths != [] then [InClause("年月", f.yearMonths)] else [])
      + (if f.cities != [] then [InClause("城市", f.cities)] else [])
      + (if f.insuranceTypes != [] then [InClause("险种", f.insuranceTypes)] else [])
      + (if f.companies != [] then [InClause("业务类型", f.companies)] else [])
  {
    assert DimensionOrder[1..] == [Cities, InsuranceTypes, Companies];
    assert [Cities, InsuranceTypes, Companies][1..] == [InsuranceTypes, Companies];
    assert [InsuranceTypes, Companies][1..] == [Companies];
    assert [Companies][1..] == [];
    assert ConditionsOver([], f) == [];
    var c4 := ConditionsOver([Companies], f);
    assert c4 == (if Get(f, Companies) != [] then [InClause(ClauseColumn(Companies), Get(f, Companies))] else []) + ConditionsOver([], f);
    assert c4 == (if f.companies != [] then [InClause("业务类型", f.companies)] else []);
    var c3 := ConditionsOver([InsuranceTypes, Companies], f);
    assert c3 == (if f.insuranceTypes != [] then [InClause("险种", f.insuranceTypes)] else []) + c4;
    var c2 := ConditionsOver([Cities, InsuranceTypes, Companies], f);
    assert c2 == (if f.cities != [] then [InClause("城市", f.cities)] else []) + c3;
  }

  lemma ConditionsEmptyIff(f: FilterState)
    ensures Conditions(f) == [] <==> NoSelection(f)
  {
    ConditionsUnrolled(f);
    if NoSelection(f) {
      assert Get(f, YearMonths) == [] && Get(f, Cities) == [];
      assert Get(f, InsuranceTypes) == [] && Get(f, Companies) == [];
    }
  }

  // ---------------------------------------------------------------------
  // Reading a whole clause back

  /** Reads `'v1', 'v2', ...)` and yields the values and what follows the
      closing parenthesis. */
  function ParseValues(s: string): (r: Option<(seq<string>, string)>)
    decreases |s|
    ensures r.Some? ==> |r.value.1| < |s|
  {
    if s == [] || s[0] != Quote then None
    else
      match ReadLiteral(s[1..])
      case None => None
      case Some(p) =>
        if ", " <= p.1 then
          match ParseValues(p.1[2..])
          case None => None
          case Some(q) => Some(([p.0] + q.0, q.1))
        else if ")" <= p.1 then Some(([p.0], p.1[1..]))
        else None
  }

  /** One step of `ParseValues` over an escaped literal. */
  lemma ParseValuesUnfold(v: string, rest: string)
    requires rest == [] || rest[0] != Quote
    ensures ParseValues([Quote] + (Escape(v) + [Quote] + rest)) ==
      if ", " <= rest then
        match ParseValues(rest[2..])
        case None => None
        case Some(q) => Some(([v] + q.0, q.1))
      else if ")" <= rest then Some(([v], rest[1..]))
      else None
  {
    var s := [Quote] + (Escape(v) + [Quote] + rest);
    assert s[1..] == Escape(v) + [Quote] + rest;
    ReadEscapedLiteral(v, rest);
  }

  lemma JoinLiterals(vs: seq<string>)
    requires vs != []
    ensures Join(Literals(vs), ", ") ==
      if |vs| == 1 then Literal(vs[0])
      else Literal(vs[0]) + ", " + Join(Literals(vs[1..]), ", ")
  {
    assert Literals(vs)[0] == Literal(vs[0]);
    if |vs| > 1 {
      assert Literals(vs)[1..] == Literals(vs[1..]);
    }
  }

  lemma LiteralThen(v: string, rest: string)
    ensures Literal(v) + rest == [Quote] + (Escape(v) + [Quote] + rest)
  {
  }

  lemma {:induction false} ParseValuesBack(vs: seq<string>, tail: string)
    requires vs != []
    ensures ParseValues(Join(Literals(vs), ", ") + ")" + tail) == Some((vs, tail))
    decreases |vs|
  {
    var v := vs[0];
    JoinLiterals(vs);
    if |vs| == 1 {
      var rest := ")" + tail;
      assert Join(Literals(vs), ", ") + ")" + tail == Literal(v) + rest;
      LiteralThen(v, rest);
      ParseValuesUnfold(v, rest);
      assert !(", " <= rest);
      assert rest[1..] == tail;
      assert [v] == vs;
    } else {
      var list := Join(Literals(vs[1..]), ", ");
      var more := list + ")" + tail;
      var rest := ", " + more;
      assert Join(Literals(vs), ", ") + ")" + tail == Literal(v) + rest;
      LiteralThen(v, rest);
      ParseValuesUnfold(v, rest);
      assert rest[2..] == more;
      ParseValuesBack(vs[1..], tail);
      assert [v] + vs[1..] == vs;
    }
  }

  /** Reads one `"<column>" IN (...)` condition. */
  function ParseClause(s: string): (r: Option<(InClause, string)>)
    ensures r.Some? ==> |r.value.1| < |s|
  {
    if s == [] || s[0] != DoubleQuote then None
    else
      match ReadIdent(s[1..])
      case None => None
      case Some(p) =>
        if " IN (" <= p.1 then
          match ParseValues(p.1[5..])
          case None => None
          case Some(q) => Some((InClause(p.0, q.0), q.1))
        else None
  }

  /** A condition the builder can produce: a column without double quotes
      and at least one value. */
  predicate WellFormed(c: InClause)
  {
    DoubleQuote !in c.column && c.values != []
  }

  lemma ParseClauseBack(c: InClause, tail: string)
    requires WellFormed(c)
    ensures ParseClause(Render(c) + tail) == Some((c, tail))
  {
    var list := Join(Literals(c.values), ", ") + ")" + tail;
    var s := Render(c) + tail;
    assert s == [DoubleQuote] + (c.column + [DoubleQuote] + (" IN (" + list));
    ReadIdentBack(c.column, " IN (" + list);
    assert (" IN (" + list)[5..] == list;
    ParseValuesBack(c.values, tail);
  }

  /** Reads conditions separated by ` AND ` up to the end of the text. */
  function ParseConjunction(s: string): Option<seq<InClause>>
    decreases |s|
  {
    match ParseClause(s)
    case None => None
    case Some(p) =>
      if p.1 == [] then Some([p.0])
      else if " AND " <= p.1 then
        match ParseConjunction(p.1[5..])
        case None => None
        case Some(cs) => Some([p.0] + cs)
      else None
  }

  lemma {:induction false} ParseConjunctionBack(cs: seq<InClause>)
    requires cs != []
    requires forall i :: 0 <= i < |cs| ==> WellFormed(cs[i])
    ensures ParseConjunction(Join(Renders(cs), " AND ")) == Some(cs)
    decreases |cs|
  {
    if |cs| == 1 {
      assert Renders(cs) == [Render(cs[0])];
      assert Render(cs[0]) + [] == Render(cs[0]);
      ParseClauseBack(cs[0], []);
      assert cs == [cs[0]];
    } else {
      var more := Join(Renders(cs[1..]), " AND ");
      assert Renders(cs)[1..] == Renders(cs[1..]);
      assert Join(Renders(cs), " AND ") == Render(cs[0]) + (" AND " + more);
      ParseClauseBack(cs[0], " AND " + more);
      assert (" AND " + more)[5..] == more;
      ParseConjunctionBack(cs[1..]);
      assert [cs[0]] + cs[1..] == cs;
    }
  }

  /** Reads the text `buildWhereClause` produces: empty, or `WHERE ` and a
      conjunction of conditions. */
  function ParseWhere(s: string): Option<seq<InClause>>
  {
    if s == [] then Some([])
    else if "WHERE " <= s then ParseConjunction(s[6..])
    else None
  }

  lemma ParseWhereBack(cs: seq<InClause>)
    requires forall i :: 0 <= i < |cs| ==> WellFormed(cs[i])
    ensures ParseWhere(WhereText(cs)) == Some(cs)
  {
    if cs != [] {
      var body := Join(Renders(cs), " AND ");
      assert ("WHERE " + body)[6..] == body;
      ParseConjunctionBack(cs);
    }
  }

  /** The values a list of conditions selects for one column: those of the
      first condition on it, or none. */
  function ValuesFor(cs: seq<InClause>, column: string): seq<string>
  {
    if cs == [] then []
    else if cs[0].column == column then cs[0].values
    else ValuesFor(cs[1..], column)
  }

  /** The selection a list of conditions stands for. */
  function DecodeFilter(cs: seq<InClause>): FilterState
  {
    FilterState(
      ValuesFor(cs, ClauseColumn(YearMonths)),
      ValuesFor(cs, ClauseColumn(Cities)),
      ValuesFor(cs, ClauseColumn(InsuranceTypes)),
      ValuesFor(cs, ClauseColumn(Companies)))
  }

  lemma ConditionsWellFormed(f: FilterState)
    ensures forall i :: 0 <= i < |Conditions(f)| ==> WellFormed(Conditions(f)[i])
  {
    ConditionsUnrolled(f);
  }

  lemma DecodeConditions(f: FilterState)
    ensures DecodeFilter(Conditions(f)) == f
  {
    DecodeDimension(f, YearMonths);
    DecodeDimension(f, Cities);
    DecodeDimension(f, InsuranceTypes);
    DecodeDimension(f, Companies);
  }

  /** The four restricted columns are pairwise distinct. */
  lemma ClauseColumnsDistinct(k: FilterKey, j: FilterKey)
    requires k != j
    ensures ClauseColumn(k) != ClauseColumn(j)
  {
    assert ClauseColumn(k)[0] != ClauseColumn(j)[0];
  }

  /** Looking up a dimension's column in the conditions finds that
      dimension's selection. */
  lemma DecodeDimension(f: FilterState, k: FilterKey)
    ensures ValuesFor(Conditions(f), ClauseColumn(k)) == Get(f, k)
  {
    assert k in DimensionOrder by {
      match k
      case YearMonths => assert DimensionOrder[0] == k;
      case Cities => assert DimensionOrder[1] == k;
      case InsuranceTypes => assert DimensionOrder[2] == k;
      case Companies => assert DimensionOrder[3] == k;
    }
    ValuesForConditionsOver(DimensionOrder, f, k);
  }

  /** Over distinct keys, the conditions hold a dimension's selection under
      its column when the dimension is among the keys, and nothing
      otherwise. */
  lemma {:induction false} ValuesForConditionsOver(keys: seq<FilterKey>, f: FilterState, k: FilterKey)
    requires forall i, j :: 0 <= i < j < |keys| ==> keys[i] != keys[j]
    ensures ValuesFor(ConditionsOver(keys, f), ClauseColumn(k)) == (if k in keys then Get(f, k) else [])
  {
    if keys != [] {
      var head := if Get(f, keys[0]) != [] then [InClause(ClauseColumn(keys[0]), Get(f, keys[0]))] else [];
      var rest := ConditionsOver(keys[1..], f);
      assert ConditionsOver(keys, f) == head + rest;
      ValuesForConditionsOver(keys[1..], f, k);
      if keys[0] == k {
        assert k !in keys[1..] by {
          forall i | 0 <= i < |keys[1..]| ensures keys[1..][i] != k {
            assert keys[1..][i] == keys[i + 1];
          }
        }
        if head != [] {
          ValuesForFirst(head, rest, ClauseColumn(k));
        } else {
          ValuesForSkip(head, rest, ClauseColumn(k));
        }
      } else {
        ClauseColumnsDistinct(keys[0], k);
        ValuesForSkip(head, rest, ClauseColumn(k));
        assert k in keys <==> k in keys[1..] by {
          assert keys == [keys[0]] + keys[1..];
        }
      }
    }
  }

  lemma ValuesForSkip(xs: seq<InClause>, ys: seq<InClause>, column: string)
    requires forall i :: 0 <= i < |xs| ==> xs[i].column != column
    requires |xs| <= 1
    ensures ValuesFor(xs + ys, column) == ValuesFor(ys, column)
  {
    if xs != [] {
      assert (xs + ys)[0] == xs[0];
      assert (xs + ys)[1..] == ys;
    } else {
      assert xs + ys == ys;
    }
  }

  lemma ValuesForFirst(xs: seq<InClause>, ys: seq<InClause>, column: string)
    requires |xs| == 1 && xs[0].column == column
    ensures ValuesFor(xs + ys, column) == xs[0].values
  {
    assert (xs + ys)[0] == xs[0];
  }

  /** The WHERE clause denotes exactly the selection it was built from:
      reading it back yields one condition per non-empty dimension, in the
      fixed dimension order, whose literals are the selected values
      unescaped, and these conditions decode to the original selection. */
  lemma WhereClauseRoundTrip(f: FilterState)
    ensures ParseWhere(WhereText(Conditions(f))) == Some(Conditions(f))
    ensures DecodeFilter(Conditions(f)) == f
  {
    ConditionsWellFormed(f);
    ParseWhereBack(Conditions(f));
    DecodeConditions(f);
  }
}
