/**
 * The parts of navigation/navigation.js that decide something: the active
 * route resolver, route tracking in the navigation container, the choice of
 * screen set by sign-in state, and the options of the tab navigator.
 */
module Navigation {
  import opened Wrappers
  import Helpers

  /** A navigator's state: its routes and the index of the focused one. */
  datatype NavState = NavState(routes: seq<Route>, index: int)
  /** A route, with the state of the navigator nested inside it, if any. */
  datatype Route = Route(name: string, state: Option<NavState>)

  /**
   * `chain` lists the focused route of `s`, then the focused route of its
   * nested state, and so on, ending at a route with no nested state; every
   * index along the way is in bounds.
   */
  ghost predicate ActiveChain(s: NavState, chain: seq<Route>) {
    && |chain| > 0
    && 0 <= s.index < |s.routes|
    && chain[0] == s.routes[s.index]
    && (forall k :: 0 <= k < |chain| - 1 ==> Descends(chain[k], chain[k + 1]))
    && chain[|chain| - 1].state.None?
  }

  /** `next` is the focused route of the state nested in `route`. */
  ghost predicate Descends(route: Route, next: Route) {
    && route.state.Some?
    && 0 <= route.state.value.index < |route.state.value.routes|
    && next == route.state.value.routes[route.state.value.index]
  }

  /**
   * `getActiveRouteName`; None stands for the TypeError raised when an index
   * is out of bounds (`state.routes[state.index]` is undefined).
   */
  function ActiveRouteName(s: NavState): (r: Option<string>)
    // a name comes back only when the top-level index is in bounds
    ensures r.Some? ==> 0 <= s.index < |s.routes|
    // a focused route without nested state is itself the answer
    ensures 0 <= s.index < |s.routes| && s.routes[s.index].state.None? ==> r == Some(s.routes[s.index].name)
    decreases s
  {
    if !(0 <= s.index < |s.routes|) then None
    else
      var route := s.routes[s.index];
      if route.state.Some? then ActiveRouteName(route.state.value) else Some(route.name)
  }

  /**
   * The resolver returns a name exactly when an active chain exists, and that
   * name is the last route of every active chain.
   */
  lemma {:induction false} ActiveRouteNameFollowsChain(s: NavState)
    ensures ActiveRouteName(s).Some? ==> exists chain: seq<Route> :: ActiveChain(s, chain)
    ensures forall chain: seq<Route> :: ActiveChain(s, chain) ==> ActiveRouteName(s) == Some(chain[|chain| - 1].name)
    decreases s
  {
    if 0 <= s.index < |s.routes| {
      var route := s.routes[s.index];
      if route.state.Some? {
        var inner := route.state.value;
        ActiveRouteNameFollowsChain(inner);
        if ActiveRouteName(s).Some? {
          var tail :| ActiveChain(inner, tail);
          var chain := [route] + tail;
          assert Descends(chain[0], chain[1]);
          assert forall k :: 1 <= k < |chain| - 1 ==> chain[k] == tail[k - 1] && chain[k + 1] == tail[k];
          assert ActiveChain(s, chain);
        }
        forall chain: seq<Route> | ActiveChain(s, chain)
          ensures ActiveRouteName(s) == Some(chain[|chain| - 1].name)
        {
          assert |chain| > 1;
          assert Descends(chain[0], chain[1]);
          var tail := chain[1..];
          assert forall k :: 0 <= k < |tail| ==> tail[k] == chain[k + 1];
          assert ActiveChain(inner, tail);
        }
      } else {
        assert ActiveChain(s, [route]);
        forall chain: seq<Route> | ActiveChain(s, chain)
          ensures ActiveRouteName(s) == Some(chain[|chain| - 1].name)
        {
          if |chain| > 1 {
            assert Descends(chain[0], chain[1]);
          }
        }
      }
    }
  }

  /** The `routeNameRef` of the navigation container and the "Current screen:" log lines. */
  class RouteTracker {
    var routeName: Option<string>
    var log: seq<string>

    constructor ()
      ensures routeName == None && log == []
    {
      routeName, log := None, [];
    }

    /** `onReady`: records the current route's name without logging. */
    method OnReady(currentRoute: string)
      modifies this
      ensures routeName == Some(currentRoute) && log == old(log)
    {
      routeName := Some(currentRoute);
    }

    /**
     * `onStateChange` with the container's root state: when the resolver
     * throws, nothing changes; otherwise the ref holds the active route's
     * name, and a line is logged iff that name differs from the previous one.
     */
    method OnStateChange(root: NavState)
      modifies this
      ensures ActiveRouteName(root).None? ==> routeName == old(routeName) && log == old(log)
      ensures ActiveRouteName(root).Some? ==>
                && routeName == ActiveRouteName(root)
                && (forall chain: seq<Route> :: ActiveChain(root, chain) ==> routeName == Some(chain[|chain| - 1].name))
                && (log != old(log) <==> old(routeName) != routeName)
                && log == old(log) + (if old(routeName) != routeName then [routeName.value] else [])
    {
      var current := ActiveRouteName(root);
      if current.None? {
        return;
      }
      ActiveRouteNameFollowsChain(root);
      if routeName != current {
        log := log + [current.value];
      }
      routeName := current;
    }
  }

  const MainScreens: seq<string> := [
    "Home", "Notifications", "Friends", "Settings", "Account", "User", "Search", "Comments",
    "NewEvent", "NewEventMap", "NewMessage", "Chat", "Video", "EditAccount", "NewStory", "AiVideo"]
  const AuthScreens: seq<string> := ["SignIn", "SignUp", "ResetPassword"]

  /** The screens the root stack registers for a given token. */
  function Screens(token: Option<string>): (r: seq<string>)
    ensures Truthy(token) ==> "Home" in r && "AiVideo" in r && "Chat" in r && "SignIn" !in r
    ensures !Truthy(token) ==> r == ["SignIn", "SignUp", "ResetPassword"]
  {
    if Truthy(token) then MainScreens else AuthScreens
  }

  /** The two screen sets share no name, and neither repeats a name. */
  lemma ScreenSetsDisjoint(signedIn: Option<string>, signedOut: Option<string>)
    requires Truthy(signedIn) && !Truthy(signedOut)
    ensures forall name :: name in Screens(signedIn) ==> name !in Screens(signedOut)
    ensures forall i, j :: 0 <= i < j < |Screens(signedIn)| ==> Screens(signedIn)[i] != Screens(signedIn)[j]
    ensures forall i, j :: 0 <= i < j < |Screens(signedOut)| ==> Screens(signedOut)[i] != Screens(signedOut)[j]
  {
  }

  datatype Tint = Primary | White
  datatype TabIcon = TabIcon(name: string, tint: Tint)

  /** The per-route options of the tab navigator. */
  datatype TabOptions = TabOptions(icon: Option<TabIcon>, tabBarVisible: bool)

  /** `screenOptions` of the tab navigator, with the icon rendered for `focused`. */
  function TabScreenOptions(routeName: string, focused: bool): (o: TabOptions)
    ensures o.tabBarVisible <==> routeName != "AiVideo"
    ensures o.icon.Some? <==> routeName in {"Home", "Events", "NewPost", "Threads", "MyProfile", "AiModules"}
    ensures o.icon.Some? ==> (o.icon.value.tint == Primary <==> focused)
    ensures routeName in {"MyProfile", "AiModules"} ==> o.icon == Some(TabIcon("user", o.icon.value.tint))
  {
    var tint := if focused then Primary else White;
    var icon :=
      if routeName == "Home" then Some(TabIcon("home", tint))
      else if routeName == "Events" then Some(TabIcon("calendar", tint))
      else if routeName == "NewPost" then Some(TabIcon("addPost", tint))
      else if routeName == "Threads" then Some(TabIcon("message", tint))
      else if routeName == "MyProfile" then Some(TabIcon("user", tint))
      else if routeName == "AiModules" then Some(TabIcon("user", tint))
      else None;
    TabOptions(icon, routeName != "AiVideo")
  }

  /** The `title` of the "Home" stack screen: the focused tab's name, with a fallback. */
  function TabsTitle(focused: Option<string>): (t: string)
    ensures focused.Some? ==> t == focused.value
    ensures focused.None? ==> t == "DefaultRouteName"
  {
    focused.GetOr("DefaultRouteName")
  }

  /**
   * The stack title and the tab header title agree on the three titled tabs,
   * but not when no tab is focused yet: the stack says "DefaultRouteName"
   * where the header says "Home".
   */
  lemma TabsTitleVersusHeaderTitle(focused: Option<string>)
    ensures Helpers.HeaderTitle(focused).Some? && focused.Some? ==>
              TabsTitle(focused) == Helpers.HeaderTitle(focused).value
    ensures focused.None? ==> TabsTitle(focused) == "DefaultRouteName" && Helpers.HeaderTitle(focused) == Some("Home")
    ensures TabsTitle(focused) != "DefaultRouteName" ==> TabsTitle(focused) == Helpers.FocusedName(focused)
  {
  }
}
