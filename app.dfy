/** The top-level component: the current route and the view it selects. */
module App {

  /** The views the router can show. */
  datatype View = HomeView | VoteView | LeaderboardView | AddCandidateView | NotFound

  /** `onRouteChange`'s rule: the brand item "QuadB" means "home"; any other name is kept. */
  function Normalise(route: string): (r: string)
    ensures route == "QuadB" ==> r == "home"
    ensures route != "QuadB" ==> r == route
    ensures r != "QuadB"
  {
    if route == "QuadB" then "home" else route
  }

  /** The route-to-view dispatch; any route without a view shows "Not found". */
  function Dispatch(route: string): (v: View)
    ensures v == HomeView <==> route == "home"
    ensures v == VoteView <==> route == "vote"
    ensures v == LeaderboardView <==> route == "leaderboard"
    ensures v == AddCandidateView <==> route == "addCandidate"
    ensures v == NotFound <==> route !in {"home", "vote", "leaderboard", "addCandidate"}
  {
    if route == "home" then HomeView
    else if route == "vote" then VoteView
    else if route == "leaderboard" then LeaderboardView
    else if route == "addCandidate" then AddCandidateView
    else NotFound
  }

  /** Normalising a route a second time changes nothing. */
  lemma NormaliseIdempotent(route: string)
    ensures Normalise(Normalise(route)) == Normalise(route)
  {
  }

  class Router {
    var route: string

    /** The app starts on the home route. */
    constructor ()
      ensures route == "home"
    {
      route := "home";
    }

    method OnRouteChange(r: string)
      modifies this
      ensures route == Normalise(r)
    {
      if r == "QuadB" {
        route := "home";
        return;
      }
      route := r;
    }

    /** The view currently shown. */
    function Current(): (v: View)
      reads this
      ensures v == NotFound <==> route !in {"home", "vote", "leaderboard", "addCandidate"}
    {
      Dispatch(route)
    }
  }
}
