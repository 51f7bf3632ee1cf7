/**
 * The client page: which page a path renders, which layout surrounds it,
 * and the title in the header of the sidebar layout.
 */
module ClientPage {
  import opened JsString

  /** What `renderContent` returns. */
  datatype Page =
    | DashboardPage
    | StrategyGeneratorPage
    | MarketWatchPage
    | AutonomousTradePage
    | PublicFeedPage
    | MarketPulsePage
    | LendingPage
    | LoginPage
    | SignupPage
    | BillingPage
    | SettingsPage
    | LandingPage

  /** The eleven paths of the switch and their pages. */
  const Routes: map<string, Page> := map[
    "/dashboard" := DashboardPage,
    "/strategy" := StrategyGeneratorPage,
    "/market" := MarketWatchPage,
    "/autonomous" := AutonomousTradePage,
    "/feed" := PublicFeedPage,
    "/pulse" := MarketPulsePage,
    "/lending" := LendingPage,
    "/login" := LoginPage,
    "/signup" := SignupPage,
    "/billing" := BillingPage,
    "/settings" := SettingsPage
  ]

  /** `renderContent`: the page of a listed path, the landing page for any other. */
  function RenderContent(path: string): (page: Page)
    ensures path in Routes ==> page == Routes[path]
    ensures path !in Routes ==> page == LandingPage
  {
    if path == "/dashboard" then DashboardPage
    else if path == "/strategy" then StrategyGeneratorPage
    else if path == "/market" then MarketWatchPage
    else if path == "/autonomous" then AutonomousTradePage
    else if path == "/feed" then PublicFeedPage
    else if path == "/pulse" then MarketPulsePage
    else if path == "/lending" then LendingPage
    else if path == "/login" then LoginPage
    else if path == "/signup" then SignupPage
    else if path == "/billing" then BillingPage
    else if path == "/settings" then SettingsPage
    else LandingPage
  }

  /** The landing page is reached only by the default branch. */
  lemma LandingOnlyByDefault(path: string)
    ensures RenderContent(path) == LandingPage <==> path !in Routes
  {
  }

  /** The wrapper around the content: centred, none at all, or the sidebar with its header title. */
  datatype Layout = Centered | Bare | Sidebar(title: string)

  predicate IsAuthPage(path: string)
  {
    path == "/login" || path == "/signup"
  }

  /**
   * The header title: `Dashboard` for `/dashboard`, otherwise the character
   * at index 1 in upper case followed by the rest from index 2 (`charAt` and
   * `slice` give empty parts where the path is too short).
   */
  function HeaderTitle(path: string): (title: string)
    ensures path != "/dashboard" && |path| >= 2 ==>
      |title| == |path| - 1 && title[0] == UpperChar(path[1]) && title[1..] == path[2..]
    ensures path != "/dashboard" && |path| >= 2 ==> !IsLowerLetter(title[0])
    ensures path != "/dashboard" && |path| < 2 ==> title == ""
  {
    if path == "/dashboard" then "Dashboard"
    else
      var first := ToUpper(if |path| >= 2 then path[1..2] else "");
      var rest := if |path| >= 2 then path[2..] else "";
      first + rest
  }

  /** The general rule gives `Dashboard` for `/dashboard` too: the special case changes nothing. */
  lemma DashboardCaseAgrees()
    ensures HeaderTitle("/dashboard") == [UpperChar("/dashboard"[1])] + "/dashboard"[2..]
  {
  }

  /** A one-segment path is titled by its segment with the first letter capitalised. */
  lemma SegmentTitle(segment: string)
    requires segment != []
    ensures HeaderTitle("/" + segment) == [UpperChar(segment[0])] + segment[1..]
  {
    var path := "/" + segment;
    assert path[1..] == segment;
    if path == "/dashboard" {
      assert segment == "/dashboard"[1..];
    } else {
      assert path[1] == segment[0] && path[2..] == segment[1..];
    }
  }

  /** The layout: auth pages centred, `/` bare, every other path in the sidebar with its title. */
  function LayoutOf(path: string): (layout: Layout)
    ensures layout == Centered <==> IsAuthPage(path)
    ensures layout == Bare <==> path == "/"
    ensures layout.Sidebar? <==> !IsAuthPage(path) && path != "/"
    ensures layout.Sidebar? ==> layout.title == HeaderTitle(path)
  {
    if IsAuthPage(path) then Centered
    else if path == "/" then Bare
    else Sidebar(HeaderTitle(path))
  }

  /** What a path shows: the layout and the content inside it. */
  datatype Screen = Screen(layout: Layout, content: Page)

  function ScreenOf(path: string): (screen: Screen)
    ensures screen.layout == LayoutOf(path) && screen.content == RenderContent(path)
  {
    Screen(LayoutOf(path), RenderContent(path))
  }

  /** `/` shows the landing page bare. */
  lemma RootIsBareLanding()
    ensures ScreenOf("/") == Screen(Bare, LandingPage)
  {
  }

  /** `/strategy` shows the strategy form under the title `Strategy`. */
  lemma StrategyScreen()
    ensures ScreenOf("/strategy") == Screen(Sidebar("Strategy"), StrategyGeneratorPage)
  {
    var path := "/strategy";
    SegmentTitle("strategy");
    assert "/" + "strategy" == path;
    assert [UpperChar('s')] + "strategy"[1..] == "Strategy";
    assert HeaderTitle(path) == "Strategy";
    assert !IsAuthPage(path) && path != "/";
    assert LayoutOf(path) == Sidebar("Strategy");
    assert RenderContent(path) == StrategyGeneratorPage;
  }

  /** An unknown path such as `/foo` shows the landing page inside the sidebar, titled `Foo`. */
  lemma UnknownPathScreen()
    ensures ScreenOf("/foo") == Screen(Sidebar("Foo"), LandingPage)
  {
    var path := "/foo";
    SegmentTitle("foo");
    assert "/" + "foo" == path;
    assert [UpperChar('f')] + "foo"[1..] == "Foo";
    assert HeaderTitle(path) == "Foo";
    assert !IsAuthPage(path) && path != "/";
    assert LayoutOf(path) == Sidebar("Foo");
    assert RenderContent(path) == LandingPage;
  }
}
