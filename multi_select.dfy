/** The multi-value selector (src/features/filters/MultiSelect.tsx): the
    new selection each control computes, the option search, the button
    text, and the open/closed flag. */
module MultiSelect {
  import opened Wrappers

  const DefaultPlaceholder: string := "全部"

  /** The `placeholder` prop, defaulting to `全部` when the caller passes
      none. */
  function PlaceholderOf(given: Option<string>): (p: string)
    ensures given.None? ==> p == DefaultPlaceholder
    ensures given.Some? ==> p == given.value
  {
    if given.Some? then given.value else DefaultPlaceholder
  }

  /** `a` is `b` with some elements left out, order kept. */
  predicate IsSubsequence<T(==,!new)>(a: seq<T>, b: seq<T>)
    decreases |b|
  {
    a == [] || (b != [] && ((a[0] == b[0] && IsSubsequence(a[1..], b[1..])) || IsSubsequence(a, b[1..])))
  }

  /** `s.filter(keep)`: the kept elements, each as often as in `s`, in order. */
  function Filter<T(==,!new)>(s: seq<T>, keep: T -> bool): (r: seq<T>)
    ensures IsSubsequence(r, s)
    ensures forall x :: x in r ==> keep(x)
    ensures forall x :: keep(x) ==> multiset(r)[x] == multiset(s)[x]
  {
    if s == [] then []
    else if keep(s[0]) then
      var rest := Filter(s[1..], keep);
      assert s == [s[0]] + s[1..];
      [s[0]] + rest
    else
      assert s == [s[0]] + s[1..];
      Filter(s[1..], keep)
  }

  lemma {:induction false} FilterKeepsAll<T(!new)>(s: seq<T>, keep: T -> bool)
    requires forall x :: x in s ==> keep(x)
    ensures Filter(s, keep) == s
  {
    if s != [] {
      FilterKeepsAll(s[1..], keep);
    }
  }

  lemma {:induction false} FilterDropsLast<T(!new)>(s: seq<T>, x: T, keep: T -> bool)
    requires forall y :: y in s ==> keep(y)
    requires !keep(x)
    ensures Filter(s + [x], keep) == s
  {
    if s == [] {
      assert [] + [x] == [x];
      assert [x][1..] == [];
    } else {
      assert (s + [x])[1..] == s[1..] + [x];
      FilterDropsLast(s[1..], x, keep);
    }
  }

  function Differs(option: string): string -> bool
  {
    v => v != option
  }

  /** `toggleOption`: a selected option is removed (every occurrence, the
      rest in order); an unselected one is appended. */
  function Toggle(value: seq<string>, option: string): (r: seq<string>)
    ensures option in value ==>
      && option !in r
      && IsSubsequence(r, value)
      && forall x :: x != option ==> multiset(r)[x] == multiset(value)[x]
    ensures option !in value ==> r == value + [option]
  {
    if option in value then Filter(value, Differs(option)) else value + [option]
  }

  /** Toggling flips the option's membership and no other. */
  lemma ToggleFlipsMembership(value: seq<string>, option: string)
    ensures option in Toggle(value, option) <==> option !in value
    ensures forall x :: x != option ==> (x in Toggle(value, option) <==> x in value)
  {
    var r := Toggle(value, option);
    forall x | x != option ensures x in r <==> x in value {
      if option in value {
        assert multiset(r)[x] == multiset(value)[x];
      }
    }
  }

  /** Toggling an unselected option twice restores the selection. */
  lemma ToggleTwiceRestores(value: seq<string>, option: string)
    requires option !in value
    ensures Toggle(Toggle(value, option), option) == value
  {
    FilterDropsLast(value, option, Differs(option));
  }

  /** `selectAll` yields a copy of the options: every option is then checked. */
  function SelectAll(options: seq<string>): (r: seq<string>)
    ensures forall o :: o in options ==> o in r
    ensures IsSubsequence(r, options) && IsSubsequence(options, r)
  {
    SubsequenceReflexive(options);
    options
  }

  /** `clearAll`: nothing is checked any more. */
  function ClearAll(): (r: seq<string>)
    ensures forall o :: o !in r
  {
    []
  }

  lemma {:induction false} SubsequenceReflexive<T(!new)>(s: seq<T>)
    ensures IsSubsequence(s, s)
  {
    if s != [] {
      SubsequenceReflexive(s[1..]);
    }
  }

  /** `hay.includes(needle)` */
  predicate Includes(hay: string, needle: string)
    decreases |hay|
  {
    needle <= hay || (hay != [] && Includes(hay[1..], needle))
  }

  function Matches(search: string, lower: string -> string): string -> bool
  {
    opt => Includes(lower(opt), lower(search))
  }

  /** `filteredOptions`; `lower` stands for `toLowerCase`. */
  function FilteredOptions(options: seq<string>, search: string, lower: string -> string): (r: seq<string>)
    ensures IsSubsequence(r, options)
    ensures forall o :: o in r ==> Includes(lower(o), lower(search))
    ensures forall o :: Includes(lower(o), lower(search)) ==> multiset(r)[o] == multiset(options)[o]
  {
    Filter(options, Matches(search, lower))
  }

  /** An empty search hides nothing. */
  lemma EmptySearchShowsAll(options: seq<string>, lower: string -> string)
    requires lower([]) == []
    ensures FilteredOptions(options, [], lower) == options
  {
    FilterKeepsAll(options, Matches([], lower));
  }

  // ---------------------------------------------------------------------
  // The button text

  function DigitChar(d: nat): char
    requires d < 10
  {
    (48 + d) as char
  }

  /** The decimal numeral of `n`. */
  function Decimal(n: nat): (s: string)
    ensures s != []
    ensures forall i :: 0 <= i < |s| ==> '0' <= s[i] <= '9'
  {
    if n < 10 then [DigitChar(n)] else Decimal(n / 10) + [DigitChar(n % 10)]
  }

  function DecimalValue(s: string): int
  {
    if s == [] then 0 else DecimalValue(s[..|s| - 1]) * 10 + (s[|s| - 1] as int - 48)
  }

  lemma {:induction false} DecimalRoundTrip(n: nat)
    ensures DecimalValue(Decimal(n)) == n
  {
    if n >= 10 {
      var s := Decimal(n);
      assert s[..|s| - 1] == Decimal(n / 10);
      DecimalRoundTrip(n / 10);
    }
  }

  function CountLabel(n: nat): string
  {
    "已选 " + Decimal(n) + " 项"
  }

  /** `displayText`; `placeholder` is the prop, absent when the caller
      passes none. */
  function DisplayText(value: seq<string>, placeholder: Option<string>): (r: string)
    ensures value == [] && placeholder.None? ==> r == DefaultPlaceholder
    ensures value == [] && placeholder.Some? ==> r == placeholder.value
    ensures |value| == 1 ==> r == value[0]
    ensures |value| >= 2 ==> r == CountLabel(|value|)
  {
    if |value| == 0 then PlaceholderOf(placeholder)
    else if |value| == 1 then value[0]
    else CountLabel(|value|)
  }

  /** The label for two or more selections names their number, which can be
      read back from it. */
  lemma CountLabelNamesCount(value: seq<string>, placeholder: Option<string>)
    requires |value| >= 2
    ensures var r := DisplayText(value, placeholder);
      |r| > 4 && DecimalValue(r[3..|r| - 2]) == |value|
  {
    var r := DisplayText(value, placeholder);
    var d := Decimal(|value|);
    assert r == "已选 " + d + " 项";
    assert r[3..|r| - 2] == d;
    DecimalRoundTrip(|value|);
  }

  // ---------------------------------------------------------------------
  // The open/closed flag

  class MultiSelectState {
    var isOpen: bool
    var search: string

    constructor ()
      ensures !isOpen && search == []
    {
      isOpen, search := false, [];
    }

    /** The button flips the dropdown. */
    method ClickButton()
      modifies this
      ensures isOpen == !old(isOpen) && search == old(search)
    {
      isOpen := !isOpen;
    }

    /** A mousedown anywhere: outside the container it closes the dropdown. */
    method MouseDown(insideContainer: bool)
      modifies this
      ensures isOpen == (old(isOpen) && insideContainer) && search == old(search)
    {
      if !insideContainer {
        isOpen := false;
      }
    }

    method SetSearch(text: string)
      modifies this
      ensures search == text && isOpen == old(isOpen)
    {
      search := text;
    }
  }
}
