/**
 The application shell: authentication flag, selected screen, the shared sales
 list, the loading flag and the single notification slot, updated by explicit
 events standing in for the login form, the navigation bar, the bulk fetch, the
 fifteen-second poll, and the banner's close button and five-second timer.
 */
module App {
  import opened Types

  datatype View = DashboardView | LinksView | MaterialsView | ProfileView

  datatype AppState = AppState(
    authenticated: bool,
    view: View,
    sales: seq<Sale>,
    loading: bool,
    notification: Option<Notification>)

  /** Signed out, on the dashboard tab, no sales yet, loading, no banner. */
  const InitialState: AppState := AppState(false, DashboardView, [], true, None)

  datatype AppEvent =
    | Login
    | Logout
    | Navigate(target: View)
    | FetchStarted
    | FetchCompleted(data: seq<Sale>)
    /** A poll returned a sale; `noticeId` stands for the clock reading the
        app uses as the banner's id. */
    | SaleArrived(sale: Sale, noticeId: int)
    /** The banner's close button, or its five-second timer, which clears
        whatever banner is showing at that moment. */
    | NotificationCleared

  function Step(st: AppState, e: AppEvent): (r: AppState)
    ensures e == Login ==> r == st.(authenticated := true, view := DashboardView)
    ensures e == Logout ==> r == st.(authenticated := false)
    ensures e.Navigate? ==> r == st.(view := e.target)
    ensures e == FetchStarted ==> r == st.(loading := true)
    ensures e.FetchCompleted? ==> r == st.(sales := e.data, loading := false)
    ensures e.SaleArrived? ==>
      && r.sales == [e.sale] + st.sales
      && |r.sales| == |st.sales| + 1
      && r.notification == Some(Notification(e.noticeId, e.sale.commission))
      && r.authenticated == st.authenticated && r.view == st.view && r.loading == st.loading
    ensures e == NotificationCleared ==> r == st.(notification := None)
  {
    match e
    case Login => st.(authenticated := true, view := DashboardView)
    case Logout => st.(authenticated := false)
    case Navigate(v) => st.(view := v)
    case FetchStarted => st.(loading := true)
    case FetchCompleted(data) => st.(sales := data, loading := false)
    case SaleArrived(s, noticeId) =>
      st.(sales := [s] + st.sales, notification := Some(Notification(noticeId, s.commission)))
    case NotificationCleared => st.(notification := None)
  }

  function Run(st: AppState, events: seq<AppEvent>): AppState
    decreases |events|
  {
    if |events| == 0 then st else Run(Step(st, events[0]), events[1..])
  }

  // ---------------------------------------------------------------------------
  // Routing

  datatype Screen =
    | LoginScreen
    | DashboardScreen(sales: seq<Sale>, loading: bool)
    | LinkGeneratorScreen
    | MaterialsScreen
    | ProfileScreen

  /** The tab a signed-in screen belongs to; the login screen has none. */
  function ViewOf(screen: Screen): Option<View>
  {
    match screen
    case LoginScreen => None
    case DashboardScreen(_, _) => Some(DashboardView)
    case LinkGeneratorScreen => Some(LinksView)
    case MaterialsScreen => Some(MaterialsView)
    case ProfileScreen => Some(ProfileView)
  }

  /** What the shell draws: the login form while signed out, otherwise the
      screen of the selected tab, the dashboard receiving the shared list and
      the loading flag. */
  function Render(st: AppState): (r: Screen)
    ensures r == LoginScreen <==> !st.authenticated
    ensures st.authenticated ==> ViewOf(r) == Some(st.view)
    ensures r.DashboardScreen? ==> r.sales == st.sales && r.loading == st.loading
  {
    if !st.authenticated then LoginScreen
    else
      match st.view
      case DashboardView => DashboardScreen(st.sales, st.loading)
      case LinksView => LinkGeneratorScreen
      case MaterialsView => MaterialsScreen
      case ProfileView => ProfileScreen
  }

  /** The shell starts signed out on the dashboard tab, with no sales, the
      loading flag set and no banner: it draws the login form, and signing in
      shows an empty, loading dashboard. */
  lemma InitiallySignedOut()
    ensures Render(InitialState) == LoginScreen
    ensures InitialState.view == DashboardView && InitialState.sales == []
    ensures InitialState.loading && InitialState.notification == None
    ensures Render(Step(InitialState, Login)) == DashboardScreen([], true)
  {
  }

  /** Signing in always lands on the dashboard, whatever tab was selected before. */
  lemma LoginShowsDashboard(st: AppState)
    ensures Render(Step(st, Login)) == DashboardScreen(st.sales, st.loading)
  {
  }

  /** Signing out shows the login form and keeps the tab, the list and the banner,
      so signing in again finds the same list until the next fetch replaces it. */
  lemma LogoutKeepsEverythingElse(st: AppState)
    ensures Render(Step(st, Logout)) == LoginScreen
    ensures var r := Step(st, Logout);
      r.view == st.view && r.sales == st.sales && r.notification == st.notification
      && r.loading == st.loading
    ensures Step(Step(st, Logout), Login).sales == st.sales
  {
  }

  /** Navigation only changes which tab is drawn. */
  lemma NavigateOnlyRoutes(st: AppState, v: View)
    requires st.authenticated
    ensures ViewOf(Render(Step(st, Navigate(v)))) == Some(v)
    ensures Step(st, Navigate(v)).sales == st.sales
  {
  }

  // ---------------------------------------------------------------------------
  // The shared list stays newest first

  /** What the bulk fetch promises: fifty sales, newest first. */
  predicate WellFormedFetch(data: seq<Sale>)
  {
    |data| == 50 && NewestFirst(data)
  }

  /** Events the feed can actually produce: a fetch keeps its promise and a
      polled sale is stamped no earlier than anything already in the list. */
  predicate Plausible(st: AppState, e: AppEvent)
  {
    match e
    case FetchCompleted(data) => WellFormedFetch(data)
    case SaleArrived(s, _) => forall i :: 0 <= i < |st.sales| ==> st.sales[i].saleDate <= s.saleDate
    case _ => true
  }

  /** Every plausible event keeps the shared list newest first. */
  lemma StepKeepsNewestFirst(st: AppState, e: AppEvent)
    requires NewestFirst(st.sales) && Plausible(st, e)
    ensures NewestFirst(Step(st, e).sales)
  {
    if e.SaleArrived? {
      var r := Step(st, e).sales;
      forall i, j | 0 <= i < j < |r|
        ensures r[j].saleDate <= r[i].saleDate
      {
        assert r[j] == st.sales[j - 1];
        if i > 0 {
          assert r[i] == st.sales[i - 1];
        }
      }
    }
  }

  predicate AllPlausible(st: AppState, events: seq<AppEvent>)
    decreases |events|
  {
    |events| == 0 || (Plausible(st, events[0]) && AllPlausible(Step(st, events[0]), events[1..]))
  }

  /** From a newest-first list (the initial empty one included), any run of
      plausible events leaves the shared list newest first. */
  lemma {:induction false} RunKeepsNewestFirst(st: AppState, events: seq<AppEvent>)
    requires NewestFirst(st.sales) && AllPlausible(st, events)
    ensures NewestFirst(Run(st, events).sales)
    decreases |events|
  {
    if |events| > 0 {
      StepKeepsNewestFirst(st, events[0]);
      RunKeepsNewestFirst(Step(st, events[0]), events[1..]);
    }
  }

  /** The last event of a run is applied last. */
  lemma {:induction false} RunSnoc(st: AppState, events: seq<AppEvent>, e: AppEvent)
    ensures Run(st, events + [e]) == Step(Run(st, events), e)
    decreases |events|
  {
    if |events| > 0 {
      assert (events + [e])[1..] == events[1..] + [e];
      RunSnoc(Step(st, events[0]), events[1..], e);
    }
  }

  /** Reference reading of the banner slot, scanning the events backwards: the
      banner of the last sale that arrived, unless it was cleared since. */
  function LatestBanner(initial: Option<Notification>, events: seq<AppEvent>): Option<Notification>
    decreases |events|
  {
    if |events| == 0 then initial
    else
      var e := events[|events| - 1];
      if e.SaleArrived? then Some(Notification(e.noticeId, e.sale.commission))
      else if e == NotificationCleared then None
      else LatestBanner(initial, events[..|events| - 1])
  }

  /** The single banner slot always holds the latest sale's banner, or nothing
      once it has been cleared: a newer sale replaces an older banner. */
  lemma {:induction false} BannerIsLatestSale(st: AppState, events: seq<AppEvent>)
    ensures Run(st, events).notification == LatestBanner(st.notification, events)
    decreases |events|
  {
    if |events| > 0 {
      var init := events[..|events| - 1];
      assert events == init + [events[|events| - 1]];
      RunSnoc(st, init, events[|events| - 1]);
      BannerIsLatestSale(st, init);
    }
  }
}
