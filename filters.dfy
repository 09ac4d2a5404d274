/** The filter bar: the selection record, its single-key update, the
    clear-button rule and the loading of selector options
    (src/features/filters/index.tsx). */
module Filters {
  import opened Wrappers

  /** The four selection lists; an empty list means "no restriction". */
  datatype FilterState = FilterState(
    yearMonths: seq<string>,
    cities: seq<string>,
    insuranceTypes: seq<string>,
    companies: seq<string>)

  /** The keys of `FilterState`, in declaration order. */
  datatype FilterKey = YearMonths | Cities | InsuranceTypes | Companies

  const DefaultFilterState: FilterState := FilterState([], [], [], [])

  function Get(f: FilterState, k: FilterKey): seq<string>
  {
    match k
    case YearMonths => f.yearMonths
    case Cities => f.cities
    case InsuranceTypes => f.insuranceTypes
    case Companies => f.companies
  }

  /** A selection that restricts nothing. */
  predicate NoSelection(f: FilterState)
  {
    forall k: FilterKey :: Get(f, k) == []
  }

  lemma DefaultSelectsNothing()
    ensures NoSelection(DefaultFilterState)
    ensures forall f :: NoSelection(f) ==> f == DefaultFilterState
  {
    forall f | NoSelection(f) ensures f == DefaultFilterState {
      assert Get(f, YearMonths) == [] && Get(f, Cities) == [];
      assert Get(f, InsuranceTypes) == [] && Get(f, Companies) == [];
    }
  }

  /** `handleChange(key)(values)`: `{ ...value, [key]: values }`. */
  function HandleChange(f: FilterState, key: FilterKey, values: seq<string>): (r: FilterState)
    ensures Get(r, key) == values
    ensures forall k :: k != key ==> Get(r, k) == Get(f, k)
  {
    match key
    case YearMonths => f.(yearMonths := values)
    case Cities => f.(cities := values)
    case InsuranceTypes => f.(insuranceTypes := values)
    case Companies => f.(companies := values)
  }

  /** Setting a key to what it already holds changes nothing, and a later
      change of the same key overrides an earlier one. */
  lemma HandleChangeLaws(f: FilterState, key: FilterKey, a: seq<string>, b: seq<string>)
    ensures HandleChange(f, key, Get(f, key)) == f
    ensures HandleChange(HandleChange(f, key, a), key, b) == HandleChange(f, key, b)
  {
  }

  /** The condition guarding the clear button. */
  predicate ShowClearButton(f: FilterState)
  {
    f.yearMonths != [] || f.cities != [] || f.insuranceTypes != [] || f.companies != []
  }

  /** The clear button is shown exactly when something is selected, and its
      click (which yields `DefaultFilterState`) hides it again. */
  lemma ClearButtonShownIffSelection(f: FilterState)
    ensures ShowClearButton(f) <==> !NoSelection(f)
    ensures ShowClearButton(f) <==> f != DefaultFilterState
    ensures !ShowClearButton(DefaultFilterState)
  {
    DefaultSelectsNothing();
    if !ShowClearButton(f) {
      assert forall k: FilterKey :: Get(f, k) == [] by {
        forall k: FilterKey ensures Get(f, k) == [] { }
      }
    }
  }

  /** The column whose distinct values populate each selector. */
  function OptionColumn(k: FilterKey): (c: string)
    ensures c != []
  {
    match k
    case YearMonths => "年月"
    case Cities => "城市"
    case InsuranceTypes => "险种"
    case Companies => "业务类型"
  }

  /** The selector state of the `Filters` component. `options` has the shape
      of a selection record, one option list per key. */
  class FiltersPanel {
    var options: FilterState
    var loading: bool

    constructor ()
      ensures options == DefaultFilterState && loading
    {
      options := DefaultFilterState;
      loading := true;
    }

    /** `loadOptions`. `distinct` answers `getDistinct(column)`. Before the
        data is loaded the effect returns before its `try`, so `loading`
        stays as it was; otherwise `loading` ends false, and the options are
        replaced only when all four fetches succeed. */
    method LoadOptions(isLoaded: bool, distinct: string -> Result<seq<string>>)
      modifies this
      ensures !isLoaded ==> options == old(options) && loading == old(loading)
      ensures isLoaded ==> !loading
      ensures isLoaded && (forall k: FilterKey :: distinct(OptionColumn(k)).Success?) ==>
        forall k: FilterKey :: Get(options, k) == distinct(OptionColumn(k)).value
      ensures isLoaded && (exists k: FilterKey :: distinct(OptionColumn(k)).Failed?) ==>
        options == old(options)
    {
      if !isLoaded {
        return;
      }
      var yearMonths := distinct(OptionColumn(YearMonths));
      var cities := distinct(OptionColumn(Cities));
      var insuranceTypes := distinct(OptionColumn(InsuranceTypes));
      var companies := distinct(OptionColumn(Companies));
      if yearMonths.Success? && cities.Success? && insuranceTypes.Success? && companies.Success? {
        options := FilterState(yearMonths.value, cities.value, insuranceTypes.value, companies.value);
      }
      loading := false;
    }
  }
}
