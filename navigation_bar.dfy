/** The bottom navigation bar: five items with fixed screen ids. Clicking an
    item hands its id to the navigation callback, and the item whose id is
    the current screen is drawn highlighted. Labels and icons are display
    copy and are not part of this model. */
module NavigationBar {

  datatype NavItem = NavItem(id: string)

  const NavItems: seq<NavItem> := [
    NavItem("home"),
    NavItem("drawing-menu"),
    NavItem("game-menu"),
    NavItem("weekly-report"),
    NavItem("settings")
  ]

  /** The highlight test of item `i` against the current screen id. */
  predicate Highlighted(currentScreen: string, i: nat)
    requires i < |NavItems|
  {
    currentScreen == NavItems[i].id
  }

  /** Five items in the fixed order home, drawing-menu, game-menu,
      weekly-report, settings, no two with the same id. */
  lemma NavItemsDistinct()
    ensures |NavItems| == 5
    ensures NavItems[0].id == "home" && NavItems[1].id == "drawing-menu" && NavItems[2].id == "game-menu"
    ensures NavItems[3].id == "weekly-report" && NavItems[4].id == "settings"
    ensures forall i, j :: 0 <= i < j < |NavItems| ==> NavItems[i].id != NavItems[j].id
  {
  }

  /** The id passed to the navigation callback when item `i` is clicked.
      Once the application shows that screen, item `i` is the one and only
      highlighted item. */
  function OnClick(i: nat): (id: string)
    requires i < |NavItems|
    ensures Highlighted(id, i)
    ensures forall j :: 0 <= j < |NavItems| && j != i ==> !Highlighted(id, j)
  {
    NavItemsDistinct();
    NavItems[i].id
  }

  /** Whatever the current screen, at most one item is highlighted. */
  lemma AtMostOneHighlighted(currentScreen: string, i: nat, j: nat)
    requires i < |NavItems| && j < |NavItems|
    requires Highlighted(currentScreen, i) && Highlighted(currentScreen, j)
    ensures i == j
  {
    NavItemsDistinct();
  }
}
