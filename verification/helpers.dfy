/**
 * The header mappings of utils/helpers.js: for the focused tab of the main
 * stack, the header title and the header options. A missing focused name
 * counts as "Home"; a name neither function knows gives undefined (None).
 */
module Helpers {
  import opened Wrappers

  /** `getFocusedRouteNameFromRoute(route) ?? "Home"` */
  function FocusedName(focused: Option<string>): (name: string)
    ensures focused.Some? ==> name == focused.value
    ensures focused.None? ==> name == "Home"
  {
    focused.GetOr("Home")
  }

  /** `getHeaderTitle` */
  function HeaderTitle(focused: Option<string>): (r: Option<string>)
    ensures r.Some? <==> FocusedName(focused) in {"Home", "Events", "Threads"}
    ensures r.Some? ==> r.value == FocusedName(focused)
    ensures focused.None? ==> r == Some("Home")
  {
    var name := FocusedName(focused);
    if name == "Home" then Some("Home")
    else if name == "Events" then Some("Events")
    else if name == "Threads" then Some("Threads")
    else None
  }

  datatype HeaderButton =
    | BtnSearch
    | BtnNotifications
    | BtnAdd(screen: string)
    | BtnMessage
    | BtnOptions
    | CustomButton

  /** A header slot: not given, given as `null`, or rendering a button. */
  datatype Slot = Absent | Null | Button(button: HeaderButton)

  datatype HeaderStyle = HeaderStyle(backgroundColor: string, height: int)

  datatype HeaderOptions = HeaderOptions(
    headerShown: bool, headerLeft: Slot, headerRight: Slot, headerStyle: Option<HeaderStyle>)

  /** `getHeaderButtons` */
  function HeaderButtons(focused: Option<string>): (r: Option<HeaderOptions>)
    ensures r.Some? <==> FocusedName(focused) in {"Home", "Events", "Threads", "MyProfile", "NewPost", "AiVideo"}
    ensures r.Some? ==> (r.value.headerShown <==> FocusedName(focused) in {"Home", "Events", "Threads", "AiVideo"})
    // the three main tabs put search on the left
    ensures FocusedName(focused) in {"Home", "Events", "Threads"} ==> r.Some? && r.value.headerLeft == Button(BtnSearch)
    ensures FocusedName(focused) == "Events" ==> r.Some? && r.value.headerRight == Button(BtnAdd("NewEvent"))
    ensures FocusedName(focused) == "AiVideo" ==>
              r == Some(HeaderOptions(true, Button(CustomButton), Null, Some(HeaderStyle("#d1d5ed", 80))))
    // only AiVideo restyles the header
    ensures r.Some? && r.value.headerStyle.Some? ==> FocusedName(focused) == "AiVideo"
  {
    var name := FocusedName(focused);
    if name == "Home" then Some(HeaderOptions(true, Button(BtnSearch), Button(BtnNotifications), None))
    else if name == "Events" then Some(HeaderOptions(true, Button(BtnSearch), Button(BtnAdd("NewEvent")), None))
    else if name == "Threads" then Some(HeaderOptions(true, Button(BtnSearch), Button(BtnMessage), None))
    else if name == "MyProfile" then Some(HeaderOptions(false, Absent, Button(BtnOptions), None))
    else if name == "NewPost" then Some(HeaderOptions(false, Absent, Absent, None))
    else if name == "AiVideo" then
      Some(HeaderOptions(true, Button(CustomButton), Null, Some(HeaderStyle("#d1d5ed", 80))))
    else None
  }

  /** Both mappings treat a missing focused name exactly as "Home". */
  lemma MissingNameIsHome()
    ensures HeaderTitle(None) == HeaderTitle(Some("Home"))
    ensures HeaderButtons(None) == HeaderButtons(Some("Home"))
  {
  }

  /**
   * Whenever a tab gets a title, it also gets header options and its header
   * is shown; the converse fails for AiVideo, MyProfile and NewPost.
   */
  lemma TitledTabsShowHeader(focused: Option<string>)
    ensures HeaderTitle(focused).Some? ==> HeaderButtons(focused).Some? && HeaderButtons(focused).value.headerShown
    ensures HeaderButtons(focused).Some? && HeaderTitle(focused).None? <==>
              FocusedName(focused) in {"MyProfile", "NewPost", "AiVideo"}
  {
  }
}
