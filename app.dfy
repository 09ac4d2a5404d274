/** Page routing of src/app/App.tsx together with the navigation buttons of
    src/shared/ui/Header.tsx: which page is current, what the main area
    shows for it, and when the error banner is drawn. `isLoaded` and
    `error` are the data session's fields, passed in. */
module App {
  import opened Wrappers
  import opened Filters

  datatype Page = Home | DashboardPage

  /** The three mutually exclusive contents of the main area. */
  datatype MainView = HomeView | FiltersAndDashboard | LoadPrompt

  predicate ShowsHome(page: Page)
  {
    page == Home
  }

  predicate ShowsFiltersAndDashboard(page: Page, isLoaded: bool)
  {
    page == DashboardPage && isLoaded
  }

  predicate ShowsLoadPrompt(page: Page, isLoaded: bool)
  {
    page == DashboardPage && !isLoaded
  }

  /** The view the main area holds. */
  function MainViewOf(page: Page, isLoaded: bool): (v: MainView)
    ensures v == HomeView <==> ShowsHome(page)
    ensures v == FiltersAndDashboard <==> ShowsFiltersAndDashboard(page, isLoaded)
    ensures v == LoadPrompt <==> ShowsLoadPrompt(page, isLoaded)
  {
    if page == Home then HomeView
    else if isLoaded then FiltersAndDashboard
    else LoadPrompt
  }

  /** Exactly one of the three blocks is rendered, whatever the state. */
  lemma ExactlyOneView(page: Page, isLoaded: bool)
    ensures ShowsHome(page) || ShowsFiltersAndDashboard(page, isLoaded) || ShowsLoadPrompt(page, isLoaded)
    ensures !(ShowsHome(page) && ShowsFiltersAndDashboard(page, isLoaded))
    ensures !(ShowsHome(page) && ShowsLoadPrompt(page, isLoaded))
    ensures !(ShowsFiltersAndDashboard(page, isLoaded) && ShowsLoadPrompt(page, isLoaded))
  {
  }

  /** `{error && ...}`: JavaScript truthiness, so an empty message draws
      no banner. */
  predicate ShowsErrorBanner(error: Option<string>)
  {
    error.Some? && error.value != []
  }

  lemma ErrorBannerCases(message: string)
    ensures !ShowsErrorBanner(None)
    ensures ShowsErrorBanner(Some(message)) <==> message != []
  {
  }

  /** The "data" button of the header is disabled until data is loaded. */
  predicate NavigationEnabled(target: Page, isLoaded: bool)
  {
    target == Home || isLoaded
  }

  class AppContent {
    var currentPage: Page
    var filters: FilterState
    /** The `isLoaded` value the effect last ran with: React runs it on
        mount and again only when its dependency changes. */
    var seenLoaded: bool

    /** Mounting inside a fresh provider, whose `isLoaded` starts false, so
        the mount-time run of the effect does nothing. */
    constructor ()
      ensures currentPage == Home && filters == DefaultFilterState
      ensures !seenLoaded
    {
      currentPage := Home;
      filters := DefaultFilterState;
      seenLoaded := false;
    }

    /** A render with the session's current `isLoaded`. The effect fires
        only when the value differs from the one it last saw, and switches
        to the dashboard only on the change to true; the filters are left
        as they were. */
    method Rendered(isLoaded: bool)
      modifies this
      ensures seenLoaded == isLoaded
      ensures isLoaded && !old(seenLoaded) ==> currentPage == DashboardPage
      ensures !(isLoaded && !old(seenLoaded)) ==> currentPage == old(currentPage)
      ensures filters == old(filters)
    {
      if isLoaded != seenLoaded {
        seenLoaded := isLoaded;
        if isLoaded {
          currentPage := DashboardPage;
        }
      }
    }

    /** A click on a header button; a disabled button does nothing. */
    method HeaderClick(target: Page, isLoaded: bool)
      modifies this
      ensures currentPage == (if NavigationEnabled(target, isLoaded) then target else old(currentPage))
      ensures filters == old(filters) && seenLoaded == old(seenLoaded)
    {
      if NavigationEnabled(target, isLoaded) {
        currentPage := target;
      }
    }

    /** The "go to data import" button, which exists only on the load
        prompt. */
    method GoHome(isLoaded: bool)
      requires ShowsLoadPrompt(currentPage, isLoaded)
      modifies this
      ensures currentPage == Home && filters == old(filters) && seenLoaded == old(seenLoaded)
    {
      currentPage := Home;
    }

    /** The Filters panel's `onChange`, the only writer of `filters`; the
        panel exists only beside the dashboard. */
    method SetFilters(next: FilterState, isLoaded: bool)
      requires ShowsFiltersAndDashboard(currentPage, isLoaded)
      modifies this
      ensures filters == next && currentPage == old(currentPage) && seenLoaded == old(seenLoaded)
    {
      filters := next;
    }
  }

  /** A load brings the filters and dashboard on screen; after the user
      goes back to the home page, later renders with data still loaded do
      not switch pages again, and the chosen filters are kept. */
  method LoadThenBrowseHome(chosen: FilterState) returns (first: MainView, later: MainView, kept: FilterState)
    ensures first == FiltersAndDashboard
    ensures later == HomeView
    ensures kept == chosen
  {
    var app := new AppContent();
    app.Rendered(false);
    app.Rendered(true);
    first := MainViewOf(app.currentPage, true);
    app.SetFilters(chosen, true);
    app.HeaderClick(Home, true);
    app.Rendered(true);
    app.Rendered(true);
    later := MainViewOf(app.currentPage, true);
    kept := app.filters;
  }

  /** Without data the dashboard button cannot be used, so the page stays
      on the home view. */
  method DashboardUnreachableBeforeLoad() returns (view: MainView)
    ensures view == HomeView
  {
    var app := new AppContent();
    app.HeaderClick(DashboardPage, false);
    app.Rendered(false);
    view := MainViewOf(app.currentPage, false);
  }
}
