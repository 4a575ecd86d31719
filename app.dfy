/** The application shell: the one-way loading phase, which of the loader
    and the routed application is on screen, and the route table as data. */
module App {
  import Common
  import HackingLoader

  /** The page components the router can mount. */
  datatype Page = Home | ProjectsList | ProjectDetail | Blog | BlogPost | About | Contact

  datatype Route = Route(path: string, page: Page)

  const Routes: seq<Route> := [
    Route("/", Home),
    Route("/projects", ProjectsList),
    Route("/projects/:slug", ProjectDetail),
    Route("/blog", Blog),
    Route("/blog/:slug", BlogPost),
    Route("/about", About),
    Route("/contact", Contact)
  ]

  /** A path with a `:name` segment. */
  predicate Parameterised(path: string) {
    ':' in path
  }

  /** Seven entries with pairwise distinct paths and no catch-all; the only
      parameterised entries are the two slug routes, and each of them is a
      static entry of the table followed by `/:slug`. */
  lemma RouteTableShape()
    ensures |Routes| == 7
    ensures forall i, j :: 0 <= i < j < |Routes| ==> Routes[i].path != Routes[j].path
    ensures forall i :: 0 <= i < |Routes| ==> Routes[i].path != "*"
    ensures forall i :: 0 <= i < |Routes| ==>
      (Parameterised(Routes[i].path) <==> Routes[i].path == "/projects/:slug" || Routes[i].path == "/blog/:slug")
    ensures forall i :: 0 <= i < |Routes| && Parameterised(Routes[i].path) ==>
      exists j :: 0 <= j < |Routes| && !Parameterised(Routes[j].path) && Routes[i].path == Routes[j].path + "/:slug"
  {
    assert Routes[2].path == Routes[1].path + "/:slug";
    assert Routes[4].path == Routes[3].path + "/:slug";
    assert !Parameterised(Routes[1].path) && !Parameterised(Routes[3].path);
  }

  class AppState {
    var isInitialLoading: bool
    /** How many times the effect has called `ScrollTrigger.refresh`. */
    var refreshCount: nat

    ghost predicate Valid()
      reads this
    {
      refreshCount == (if isInitialLoading then 0 else 1)
    }

    /** First render: loading, and the effect does not refresh. */
    constructor ()
      ensures Valid() && isInitialLoading && refreshCount == 0
    {
      isInitialLoading, refreshCount := true, 0;
    }

    /** `handleLoadingComplete`, followed by the effect keyed on the flag:
        the refresh runs only when the flag actually changes to false. */
    method HandleLoadingComplete()
      requires Valid()
      modifies this
      ensures Valid() && !isInitialLoading
      ensures refreshCount == 1
      ensures old(!isInitialLoading) ==> refreshCount == old(refreshCount)
    {
      if isInitialLoading {
        isInitialLoading := false;
        refreshCount := refreshCount + 1;
      }
    }

    /** What the render puts on screen: (loader, main application). */
    function Rendered(): (r: (bool, bool))
      reads this
      ensures r.0 != r.1
      ensures r.0 <==> isInitialLoading
    {
      (isInitialLoading, !isInitialLoading)
    }
  }

  /** Start-up: the app shows the loader until the loader fires its
      completion callback, which happens once, after the count reaches 100. */
  method StartUp(glitches: seq<Common.Option<nat>>) returns (app: AppState, loader: HackingLoader.Loader)
    requires |glitches| == HackingLoader.Steps
    requires forall t :: 0 <= t < |glitches| && glitches[t].Some? ==> glitches[t].value < 100
    ensures fresh(app) && fresh(loader)
    ensures app.Valid() && loader.Valid()
    ensures loader.completeCalls == 1 && loader.counter == HackingLoader.Steps
    ensures app.Rendered() == (false, true) && app.refreshCount == 1
  {
    app := new AppState();
    assert app.Rendered() == (true, false);
    loader := HackingLoader.Run(glitches);
    app.HandleLoadingComplete();
  }
}
