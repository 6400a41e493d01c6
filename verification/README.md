# Affiliate dashboard — a Dafny model of its view logic

The application is a mobile-first single-page dashboard for an affiliate
marketer. It shows simulated sales and commissions, builds affiliate links,
keeps a small list of marketing materials and shows a static profile with
training tips. It has no backend. Its only logic is data shaping inside the
screen components and a few small state machines. This project models that
logic as pure Dafny functions over immutable values and proves what the screens
promise.

Modules, one per source file, plus a shared `Sequences` module:

- `Types` (types.ts): `Platform`, `Sale`, `Material`, `TrainingTip`,
  `Notification`. It also holds the two list orders, `NewestFirst` and
  `OldestFirst`.
- `Sequences`: the order-preserving `Filter` that the screens share, and the
  `IsSubsequence` relation used to state that order is preserved.
- `Dashboard` (components/Dashboard.tsx):
  - The time windows (today, week, month, all). The window starts are computed
    from a civil date: a day number, a day of the week and a day of the month.
  - The window filter, the total commission, the sale count, the average ticket
    and the top platform.
  - The chart series, sorted by date with a stable sort, and the list shown
    under the chart.
  - The highlight of a newly arrived sale.
- `Materials` (components/Materials.tsx): the seed list and the form fields.
  Also the form toggle, add-with-guard, and confirmed delete by id.
- `LinkGenerator` (components/LinkGenerator.tsx): the link template and the
  guard shared by the button and the handler. Also the screen's events and the
  rule that a link, once set, stays set.
- `Profile` (components/Profile.tsx): the seed tips and the single-slot
  accordion.
- `App` (App.tsx): the shell state, its events (login, logout, navigate, fetch
  start and completion, a polled sale, banner cleared) and the screen routing.

Representation choices:

- Timestamps are integer milliseconds in local time.
- Commissions are integer cents, so sums are exact. The average ticket is a
  `real`.
- Ids that the source takes from the clock are parameters.
- The delete confirmation dialog is a boolean parameter.
- Each timer is an explicit event: the banner's five-second clear, the
  highlight's expiry and the "copied" flash.

Three behaviours of the code shape the model:

- Top-platform ties. The code breaks them by the order of the list it scans.
  The per-platform record gets its keys in order of each platform's first
  sale, and the stable descending sort keeps that order among equal totals.
  `TopPlatformOf` computes the same result in a single scan over the sales. A
  later sale replaces the current leader only when its platform's total is
  strictly larger. Its contract pins the result down over the list it is
  given: the largest total, and among equal totals the platform whose first
  sale comes first. The list scanned is not always the window in list order,
  though. The window is memoised, and the chart's in-place sort leaves it
  oldest-first after the first draw. Every later draw of the same window
  therefore scans the sorted window, and a tie goes to the platform with the
  oldest sale. That is `TopPlatformOnRedrawAsWritten` (see Findings).
- The banner timer. The five-second timer clears whatever banner is showing
  when it fires, even a newer one. `NotificationCleared` therefore sets the
  slot to empty unconditionally. `BannerIsLatestSale` shows that the slot always
  holds the latest sale's banner, or nothing.
- Results after logout. A fetch or poll that resolves after logout still
  updates the shell's list, because the shell stays mounted. `App.Step` applies
  these events whatever the authentication flag is.

## Model

| member | source | states |
|---|---|---|
| Dashboard.WindowStart | components/Dashboard.tsx:45-65 | Only the "all" window has no start. Today starts at today's midnight, the week at the midnight `dayOfWeek` days back (the last Sunday), the month at the midnight `dayOfMonth - 1` days back (the first of the month). Every start is a whole number of days. For a valid date, every start lies within 30 days before today's midnight |
| Dashboard.FilteredSales | components/Dashboard.tsx:49-66 | "All" returns the input list itself. Other windows keep exactly the sales dated at or after the window start, each with its multiplicity, in input order (a subsequence) |
| Dashboard.WindowStartsOrdered | components/Dashboard.tsx:55-63 | For a valid date, the week start and the month start are both at or before today's start |
| Dashboard.TodayWithinWeekAndMonth | components/Dashboard.tsx:53-66 | Today's sales are exactly this week's (and this month's) sales filtered again by today's start, so they are a subsequence of both |
| Dashboard.FilteredKeepsNewestFirst | components/Dashboard.tsx:66 | Filtering a newest-first list gives a newest-first list |
| Dashboard.TotalCommission | components/Dashboard.tsx:69 | The sum of the commissions is non-negative when every commission is. For one sale it is that sale's commission |
| Dashboard.PlatformTotal | components/Dashboard.tsx:75-78 | A platform's summed commission lies between 0 and the total (with non-negative commissions). It is 0 for a platform with no sale |
| Dashboard.PlatformTotalsPartitionTotal | components/Dashboard.tsx:69-78 | The four platform totals add up to the total commission |
| Dashboard.AverageTicket | components/Dashboard.tsx:71 | 0 when the count is 0. Otherwise average times count equals the total |
| Dashboard.TopPlatformLabel | components/Dashboard.tsx:74-79 | The card reads "N/A" exactly when there is no leader |
| Dashboard.LeaderScan | components/Dashboard.tsx:76-79 | Over the sales' platform totals, returns the first index of a maximal total: every earlier total is strictly lower and no total is higher |
| Dashboard.TopPlatformOf | components/Dashboard.tsx:73-81 | No leader iff the window is empty. Otherwise the leader occurs in the window and its total is at least that of every platform in the window. On a tie, its first sale comes no later than any tied platform's sale |
| Dashboard.PlatformTotalOfPermutation | components/Dashboard.tsx:75-78 | Reordering the sales leaves every platform's total as it is |
| Dashboard.TopPlatformOnRedrawAsWritten | components/Dashboard.tsx:45-84 | As coded, on every draw of a window after the first: no leader iff the window is empty. Otherwise the leader occurs in the window and has the largest total. On a tie, the leader has a sale no newer than any sale of a tied platform, so the oldest sale decides, not the list order |
| Dashboard.LeaderOfSortedWindow | components/Dashboard.tsx:73-84 | The leader of any oldest-first reordering of the window, stated over the window: largest total, and on a tie a sale no newer than any tied sale |
| Dashboard.SortedLeaderAgainst | components/Dashboard.tsx:73-84 | One sale of the window against that leader: its platform's total is no larger, and on a tie the leader has a sale no newer than it |
| Dashboard.RedrawFlipsTiedLeader | components/Dashboard.tsx:45-84 | Two sales on different platforms with equal commissions, the newer listed first: the first draw names the newer sale's platform, every later draw names the older one's |
| Dashboard.FirstDrawOfTie | components/Dashboard.tsx:73-79 | Of two tied platforms with one sale each, the scan in list order names the first one listed |
| Dashboard.LaterDrawOfTie | components/Dashboard.tsx:45-84 | Of two tied platforms with one sale each, a later draw names the one whose sale is older |
| Dashboard.SortTwo | components/Dashboard.tsx:84 | Two sales of different dates sort as the older one, then the newer one |
| Dashboard.LeaderBeatsEveryPlatform | components/Dashboard.tsx:73-79 | With non-negative commissions the leader's total also beats every platform absent from the window |
| Dashboard.InsertByDate | components/Dashboard.tsx:84 | Inserting into an oldest-first list keeps it oldest-first. The result holds the old elements plus the new one, and starts with the new one or the old head |
| Dashboard.InsertByDateTotal | components/Dashboard.tsx:84 | Inserting a sale adds exactly its commission to the total |
| Dashboard.SortByDate | components/Dashboard.tsx:83-84 | The result is oldest-first, a permutation of the input of the same length, with the same total commission |
| Dashboard.ChartPoints | components/Dashboard.tsx:85-88 | One point per sale, in order, carrying its date and commission |
| Dashboard.ChartData | components/Dashboard.tsx:83-88 | The bars are exactly the window's sales drawn as bars, each as often as the sale occurs, with dates non-decreasing and heights adding up to the window's total commission |
| Dashboard.ChartPointsOfPermutation | components/Dashboard.tsx:83-88 | Reordering the sales only reorders their bars |
| Dashboard.ChartTotalOfPoints | components/Dashboard.tsx:85-88 | The bar heights add up to the commissions of the sales they come from |
| Dashboard.RecentSalesAsWritten | components/Dashboard.tsx:83-97 | As coded: min(5, n) sales of the window, oldest-first, each shown no more often than it occurs in the window (a sub-multiset). Every sale of the window left out is at least as new as every sale shown, so the list holds the oldest sales |
| Dashboard.PrefixOfSortedIsOldest | components/Dashboard.tsx:83-97 | A prefix of an oldest-first permutation of the window is oldest-first, a sub-multiset of the window, and no newer than any sale it leaves out |
| Dashboard.RecentSales | components/Dashboard.tsx:97 | Corrected: the first min(5, n) sales of the window, taken before sorting. On a newest-first window they are newest-first and no sale left out is newer than one shown |
| Dashboard.RecentSalesAsWrittenHidesNewest | components/Dashboard.tsx:83-97 | When a window of more than five sales starts with a strictly newest sale, the coded list leaves that sale out and the corrected list shows it first |
| Dashboard.NewestNotAmongOldest | components/Dashboard.tsx:83-97 | A strictly newest sale is not among the first m elements of an oldest-first permutation of a longer list |
| Dashboard.StrictNewestSortsLast | components/Dashboard.tsx:83-84 | A strictly newest sale ends up last after sorting oldest-first |
| Dashboard.SharedListAfterDrawAsWritten | components/Dashboard.tsx:49-50 | As coded: after a draw of the "all" window the shell's own list is a reordering of itself, oldest-first; after any other window it is untouched |
| Dashboard.SortOfSortedIsIdentity | components/Dashboard.tsx:84 | Sorting an oldest-first list leaves it as it is |
| Dashboard.InsertNewestGoesLast | components/Dashboard.tsx:84 | A sale strictly newer than every sale of an oldest-first list is inserted at its end |
| Dashboard.PolledSaleNotHighlightedAsWritten | components/Dashboard.tsx:31-84 | In the "all" window, a polled sale newer than everything ends up last in the shell's list, which is then not newest-first; the highlight effect sees the same head as before and highlights nothing. Without the in-place sort the same sale would be highlighted |
| Dashboard.Summarize | components/Dashboard.tsx:45-97 | The shown window is the selected window of the list, a subsequence of it. The total is the window's total and the count its length; the average is guarded. The top platform is the window's leader as the first draw computes it, "N/A" iff the window is empty. The chart is the window's chart, one bar per sale, summing to the total. The list under the chart is the corrected list, min(5, count) entries, newest-first when the shell's list is |
| Dashboard.OnSalesChanged | components/Dashboard.tsx:30-43 | The highlight changes only when both lists are non-empty and the head id differs. Then it names the new head and the remembered list is left alone. Otherwise the new list is remembered and the highlight is untouched |
| Dashboard.HighlightExpired | components/Dashboard.tsx:38 | The expiry timer clears the highlight and keeps the remembered list |
| Dashboard.NoHighlightOnFirstLoad | components/Dashboard.tsx:33-35 | The first list the dashboard receives highlights nothing and becomes the remembered list |
| Dashboard.PrependedSaleHighlighted | components/Dashboard.tsx:33-37 | A sale with a new id put in front of the remembered non-empty list is highlighted |
| Materials.InitialMaterialsDistinct | components/Materials.tsx:6-10 | The seed holds three materials with the distinct ids 1, 2, 3 |
| Materials.EditTitle | components/Materials.tsx:64 | Typing in the title field changes only the title |
| Materials.EditContent | components/Materials.tsx:75 | Typing in the content field changes only the content |
| Materials.SelectKind | components/Materials.tsx:68 | The type selector changes only the kind |
| Materials.ToggleAddForm | components/Materials.tsx:51 | The "+" button flips the form's visibility and changes nothing else |
| Materials.AddMaterial | components/Materials.tsx:19-33 | With title and content non-empty, one new material goes in front and the old list is the unchanged tail. Title and content are cleared, the form is hidden and the kind is kept. Otherwise the state is unchanged |
| Materials.WithoutId | components/Materials.tsx:42 | Removes exactly the materials with the id, preserving the order and multiplicity of the rest. An absent id changes nothing |
| Materials.DeleteMaterial | components/Materials.tsx:40-44 | An unconfirmed delete changes nothing. A confirmed one removes exactly the materials with the id, order preserved. An absent id changes nothing. The form is never touched |
| Materials.AddThenDeleteRestores | components/Materials.tsx:21-42 | Adding under a fresh id, then confirming the delete of that id, restores the original list |
| Materials.DeleteIdempotent | components/Materials.tsx:42 | A second confirmed delete of the same id changes nothing |
| Materials.DeleteKeepsDistinctIds | components/Materials.tsx:40-44 | Deleting keeps ids distinct if they were |
| LinkGenerator.AffiliateLink | components/LinkGenerator.tsx:16 | The link is 29 characters longer than the two ids. It starts with the checkout prefix, then the product id, and ends with "?aff=" and the affiliate id |
| LinkGenerator.ExampleLink | components/LinkGenerator.tsx:16 | Product "A1" with affiliate "B2" gives https://pay.hotmart.com/A1?aff=B2 |
| LinkGenerator.ParseLink | components/LinkGenerator.tsx:16 | Whatever ids it reads back rebuild exactly the link it read |
| LinkGenerator.RebuildLink | components/LinkGenerator.tsx:16 | A link that starts with the prefix and has `?aff=` at some offset after it is the link built from the text on either side |
| LinkGenerator.ParseAffiliateLink | components/LinkGenerator.tsx:16 | A link built from a product id without '?' gives back both ids, so distinct id pairs give distinct links |
| LinkGenerator.CanGenerate | components/LinkGenerator.tsx:78 | The generate button is enabled exactly when both ids are non-empty |
| LinkGenerator.ShowsResultPanel | components/LinkGenerator.tsx:87 | The result panel is drawn exactly when the link is non-empty |
| LinkGenerator.InitiallyNothingToShow | components/LinkGenerator.tsx:6-9 | When the screen appears the button is disabled, the panel is hidden, the "copied" flash is off, and a generate click changes nothing |
| LinkGenerator.Generate | components/LinkGenerator.tsx:13-19 | With both ids non-empty (exactly when the button is enabled, line 78), the link is rebuilt from them and is non-empty. Otherwise nothing changes |
| LinkGenerator.Step | components/LinkGenerator.tsx:6-25 | Each field edit sets only its own field. A generate click with both ids present sets the link built from the current ids and changes nothing else; without them it changes nothing. The copy click turns the "copied" flash on and its timer turns it off, changing nothing else. Only a generate click changes the link |
| LinkGenerator.LinkNeverCleared | components/LinkGenerator.tsx:8-87 | While the screen stays mounted, once the link is non-empty no sequence of the screen's own events empties it, so the result panel stays shown |
| LinkGenerator.LinkAlwaysWellFormed | components/LinkGenerator.tsx:13-19 | After any events the link is either the initial one or one built from two non-empty ids |
| Profile.TrainingTipsDistinct | components/Profile.tsx:9-14 | The four seed tips have ids 1 to 4, all distinct |
| Profile.ToggleTip | components/Profile.tsx:33-35 | Toggling the open tip closes it. Toggling any other opens it instead. Afterwards only that id can be open |
| Profile.OpenTips | components/Profile.tsx:68-69 | A tip is drawn expanded exactly when it is the open one, in the order of the list. With no open id, none is |
| Profile.InitiallyAllClosed | components/Profile.tsx:31 | No tip is expanded when the screen appears |
| Profile.AtMostOneOpen | components/Profile.tsx:31-69 | With distinct tip ids, at most one tip is expanded in any state |
| Profile.ToggleOpensOnlyThatTip | components/Profile.tsx:33-69 | Toggling the open tip closes every tip. Toggling a closed tip makes it the only expanded one |
| Profile.ToggleTwice | components/Profile.tsx:34 | Toggling an id twice from "none open" or from "that id open" returns to the start |
| App.InitialState | App.tsx:17-21 | The shell starts signed out, on the dashboard tab, with no sales, loading, and no banner |
| App.InitiallySignedOut | App.tsx:17-21 | The initial state draws the login form, and signing in from it shows an empty, loading dashboard |
| App.Step | App.tsx:23-61 | Login authenticates and selects the dashboard. Logout only clears the flag. Navigate only sets the tab. Fetch start sets loading. Fetch completion replaces the list and clears loading. A polled sale is prepended (length + 1) and sets the banner. Clearing empties the banner |
| App.Render | App.tsx:63-80 | Signed out, the login screen is shown whatever the tab. Signed in, the tab's screen is shown, and the dashboard gets the shell's list and loading flag |
| App.LoginShowsDashboard | App.tsx:54-66 | After login the dashboard is drawn, from any prior state |
| App.LogoutKeepsEverythingElse | App.tsx:59-61 | Logout shows the login screen and keeps tab, list, loading flag and banner |
| App.NavigateOnlyRoutes | App.tsx:107-110 | Navigation draws the chosen tab and keeps the list |
| App.StepKeepsNewestFirst | App.tsx:23-46 | A 50-sale newest-first fetch, or a sale stamped no earlier than the list, keeps the list newest-first. So do all the other events (the shell's list as a value; see Findings for the "all" window) |
| App.RunKeepsNewestFirst | App.tsx:23-46 | Any run of such events from a newest-first list leaves it newest-first |
| App.RunSnoc | App.tsx:17-61 | A run ending in one more event equals that event applied after the shorter run |
| App.BannerIsLatestSale | App.tsx:41-47 | After any events, the banner slot holds the last polled sale's banner, unless it was cleared after that sale |

## Left out

- Sale generation and the feed's latency and randomness (services/affiliateService.ts). Nothing in the core can be proved about random output. The fetch's promise of 50 newest-first sales is the `WellFormedFetch` hypothesis. A polled sale being stamped "now" is the `Plausible` hypothesis.
- The login form (components/Login.tsx). It only calls the login handler on submit, which is `App.Login`.
- Timers and intervals: the fifteen-second poll, the five-second banner clear, the highlight's 2.5-second expiry and the two-second "copied" flash. They appear as events. The cancellation of a pending highlight timer when the list changes again is not modelled.
- Clipboard writes, `alert`, the QR code rendering, the PNG export, charts, icons and all JSX styling. These are host services or rendering with no logic.
- Currency formatting with floating-point `toFixed` and the pt-BR date labels. The banner keeps the commission, not its text, and a chart point keeps the date, not its label.
- JavaScript `Date` time zones and DST. "Now" is an abstract civil date. `ValidDate` bounds the day of the week and the day of the month but does not check them against the day number.
- Floating-point rounding of sums and averages. Cents make them exact.
- Aliasing: in the "all" window the chart's in-place sort also reorders the shell's own array. From then on the shell's list is oldest-first, and a polled sale is not highlighted in that window (see Findings). `App.StepKeepsNewestFirst`, `App.RunKeepsNewestFirst` and the last clause of `Dashboard.Summarize` describe the shell's list as a value, which is how the code evidently intends it.
- Unmounting. The shell mounts only the selected screen (App.tsx:63-76) and shows only the login form while signed out (App.tsx:78-80). Leaving a tab therefore resets that screen's state: the materials go back to the seed, the link and the id fields to empty, the open tip to none, and the dashboard's range and remembered list to their initial values. Each screen is modelled while it stays mounted; its initial state is what it shows after every return to its tab.
- The dashboard's loading spinner. It is drawn instead of the summary while the flag that `App.Render` passes is set.
- The dashboard's time-range selector. It is a plain setter, so the range is a parameter whose initial value is `Dashboard.InitialRange`.
- Dashboard.SortByDate: the contract states order, permutation and total but not stability. Stability is built into `InsertByDate` (a sale goes before equal-dated ones) and is not proved.
- Dashboard.Summarize: its list under the chart is the corrected `Dashboard.RecentSales`, not the list the code draws, which is `Dashboard.RecentSalesAsWritten` (see Findings). Its top platform is the one the first draw of a window shows. Later draws of the same window scan the window oldest-first and can name another platform on a tie; that is `Dashboard.TopPlatformOnRedrawAsWritten` (see Findings).
- Dashboard.RecentSales: this is the corrected list. The dashboard summary uses it, and the list as coded is `Dashboard.RecentSalesAsWritten` (see Findings).

## Findings

| source | as written | input that shows it | evidently intended | confidence | as-written member | corrected member |
|---|---|---|---|---|---|---|
| components/Dashboard.tsx:83-97 | `recentSales` slices `filteredData` after the chart's `.sort` has reordered it in place oldest-first, so the "latest sales" list shows the five OLDEST sales of the window, and a newly prepended sale (whose highlight the list draws) is not shown once the window holds more than five sales | a newest-first window of six sales dated 6, 5, 4, 3, 2, 1: the coded list shows dates 1-5 and omits the sale dated 6 (`Dashboard.RecentSalesAsWrittenHidesNewest`) | the five newest sales of the window, i.e. the slice taken before sorting | high; not executed | Dashboard.RecentSalesAsWritten | Dashboard.RecentSales |
| components/Dashboard.tsx:31-84 | in the "all" window `filteredData` is the shell's own array (lines 49-50) and the chart's `.sort` reorders it in place (line 84), before the highlight effect (lines 31-43) runs; the shell's list stays oldest-first, a polled sale lands at its end, and the effect compares two lists that start with the same oldest sale | with the "all" window shown, a sale dated 2 polled onto a list holding one sale dated 1: the drawn list is [1, 2], its head is unchanged and nothing is highlighted (`Dashboard.PolledSaleNotHighlightedAsWritten`) | the chart sorts a copy; the shell's list stays newest-first and the polled sale is highlighted | high; not executed | Dashboard.SharedListAfterDrawAsWritten | Dashboard.PrependedSaleHighlighted |
| components/Dashboard.tsx:45-84 | `filteredData` is memoised on the list and the range (lines 45-67), and the chart's `.sort` reorders it in place (line 84) after the top platform is computed (lines 73-79); every later draw of the same window (the highlight set at line 37 and cleared at line 38, the banner cleared at App.tsx:47) scans the already sorted window, so a tie goes to the platform with the oldest sale instead of the one listed first | a window of a Kiwify sale of one real on day 2 listed before a Hotmart sale of one real on day 1: the first draw shows Kiwify, every later draw shows Hotmart (`Dashboard.RedrawFlipsTiedLeader`) | the card depends only on the window, so every draw shows what the first one does | medium; not executed | Dashboard.TopPlatformOnRedrawAsWritten | Dashboard.TopPlatformOf |
