/** The arithmetic shared by the ranking views: totals and percentage
    shares. JavaScript numbers are idealised as exact reals; rounding is
    not modelled. */
module Reshape {

  /** `xs.reduce((sum, x) => sum + x, 0)` over exact reals. */
  function Sum(xs: seq<real>): real
  {
    if xs == [] then 0.0 else xs[0] + Sum(xs[1..])
  }

  /** `rows.map(field)` for a numeric field: one number per row, in order. */
  function Project<T>(rows: seq<T>, field: T -> real): (xs: seq<real>)
    ensures |xs| == |rows|
    ensures forall i :: 0 <= i < |rows| ==> xs[i] == field(rows[i])
  {
    if rows == [] then [] else [field(rows[0])] + Project(rows[1..], field)
  }

  /** `total > 0 ? (part / total) * 100 : 0` */
  function Share(part: real, total: real): real
  {
    if total > 0.0 then part / total * 100.0 else 0.0
  }

  /** The share of each part in `total`, in order. */
  function Shares(parts: seq<real>, total: real): (r: seq<real>)
    ensures |r| == |parts|
    ensures forall i :: 0 <= i < |parts| ==> r[i] == Share(parts[i], total)
  {
    if parts == [] then [] else [Share(parts[0], total)] + Shares(parts[1..], total)
  }

  lemma {:induction false} SumShares(parts: seq<real>, total: real)
    requires total > 0.0
    ensures Sum(Shares(parts, total)) == Sum(parts) / total * 100.0
  {
    if parts != [] {
      var rest := parts[1..];
      assert Shares(parts, total)[1..] == Shares(rest, total);
      SumShares(rest, total);
      var p, q := parts[0], Sum(rest);
      assert p / total * 100.0 + q / total * 100.0 == (p + q) / total * 100.0;
    }
  }

  /** Shares of a positive total computed from the parts themselves add up to
      exactly 100. */
  lemma SharesOfOwnTotal(parts: seq<real>)
    requires Sum(parts) > 0.0
    ensures Sum(Shares(parts, Sum(parts))) == 100.0
  {
    var s := Sum(parts);
    SumShares(parts, s);
    assert s / s == 1.0;
  }

  /** Shares of non-negative parts of a larger total add up to at most 100,
      and to exactly 100 only when the parts make up the whole total. */
  lemma SharesOfLargerTotal(parts: seq<real>, total: real)
    requires total > 0.0 && Sum(parts) <= total
    ensures Sum(Shares(parts, total)) <= 100.0
    ensures Sum(Shares(parts, total)) == 100.0 <==> Sum(parts) == total
  {
    SumShares(parts, total);
    var s := Sum(parts);
    QuotientAtMostOne(s, total);
    if s / total * 100.0 == 100.0 {
      assert s == s / total * total;
    }
  }

  /** A non-negative part of a positive total has a share between 0 and 100. */
  lemma ShareBounds(part: real, total: real)
    requires 0.0 <= part <= total && total > 0.0
    ensures 0.0 <= Share(part, total) <= 100.0
  {
    QuotientAtMostOne(part, total);
  }

  lemma QuotientAtMostOne(a: real, b: real)
    requires b > 0.0 && a <= b
    ensures a / b <= 1.0
  {
    var q := a / b;
    assert q * b == a;
  }

  lemma {:induction false} SumNonNegative(xs: seq<real>)
    requires forall i :: 0 <= i < |xs| ==> xs[i] >= 0.0
    ensures Sum(xs) >= 0.0
    ensures forall i :: 0 <= i < |xs| ==> xs[i] <= Sum(xs)
  {
    if xs != [] {
      SumNonNegative(xs[1..]);
      forall i | 0 <= i < |xs| ensures xs[i] <= Sum(xs) {
        if i > 0 { assert xs[i] == xs[1..][i - 1]; }
      }
    }
  }
}
