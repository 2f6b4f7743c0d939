/** The primary navigation bar and its active-tab rule. */
module PrimaryNavigation {

  /** The four destinations, in display order. */
  const NavigationPaths: seq<string> := ["/dashboard", "/task-management", "/ai-assistant-chat", "/profile-settings"]

  /** `isActive`: an item is active on its own route; the Tasks item is also
      active on the task-detail page. */
  predicate IsActive(path: string, pathname: string)
  {
    if path == "/task-management" then pathname == "/task-management" || pathname == "/task-detail"
    else pathname == path
  }

  /** On any page at most one item is active. */
  lemma AtMostOneActive(pathname: string, i: nat, j: nat)
    requires i < |NavigationPaths| && j < |NavigationPaths|
    requires IsActive(NavigationPaths[i], pathname) && IsActive(NavigationPaths[j], pathname)
    ensures i == j
  {
  }

  /** The item that is active on a page, if any. */
  function ActiveItem(pathname: string): (r: int)
    ensures -1 <= r < |NavigationPaths|
    ensures r >= 0 ==> IsActive(NavigationPaths[r], pathname)
    ensures r == -1 <==> forall i :: 0 <= i < |NavigationPaths| ==> !IsActive(NavigationPaths[i], pathname)
  {
    if IsActive(NavigationPaths[0], pathname) then 0
    else if IsActive(NavigationPaths[1], pathname) then 1
    else if IsActive(NavigationPaths[2], pathname) then 2
    else if IsActive(NavigationPaths[3], pathname) then 3
    else -1
  }

  /** The task-detail page highlights Tasks; a route that is not listed
      highlights nothing. */
  lemma DetailPageHighlightsTasks()
    ensures ActiveItem("/task-detail") == 1
    ensures ActiveItem("/login") == -1
  {
  }
}
