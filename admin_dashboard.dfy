/**
 * The managers' dashboard: which tabs an administrator may open and which view
 * each tab shows.
 */
module AdminDashboard {
  import opened Wrappers
  import opened Database

  datatype AdminTab = RepsTab | ProductsTab | OrdersTab | AdminsTab | StatsTab

  /** The tab the dashboard opens on. */
  const InitialTab := OrdersTab

  /**
   * Full permission: an administrator whose permission is `full` or not set.
   * An `orders_only` administrator, a representative and a missing user lack it.
   */
  function HasFullPermission(user: Option<User>): (r: bool)
    ensures r <==> user.Some? && user.value.role == Admin && user.value.adminPermission != Some(OrdersOnly)
  {
    user.Some? && user.value.role == Admin &&
    match user.value.adminPermission
    case None => true
    case Some(p) => p == Full
  }

  /** The tab buttons shown: the orders tab always, the other four only with full permission. */
  function VisibleTabs(user: Option<User>): (r: set<AdminTab>)
    ensures OrdersTab in r
    ensures forall t :: t in r && t != OrdersTab ==> HasFullPermission(user)
    ensures HasFullPermission(user) ==> r == {OrdersTab, StatsTab, RepsTab, ProductsTab, AdminsTab}
  {
    if HasFullPermission(user) then {OrdersTab, StatsTab, RepsTab, ProductsTab, AdminsTab} else {OrdersTab}
  }

  /** The view shown for the active tab: the orders view always, the others only with full permission. */
  function RenderedView(user: Option<User>, active: AdminTab): (r: Option<AdminTab>)
    ensures active == OrdersTab ==> r == Some(OrdersTab)
    ensures active != OrdersTab ==> (r.Some? <==> HasFullPermission(user))
    ensures r.Some? ==> r.value == active
  {
    if active == OrdersTab then Some(OrdersTab)
    else if HasFullPermission(user) then Some(active)
    else None
  }

  /** The active tab after clicking the given tab buttons in turn, starting from `start`. */
  function Navigate(start: AdminTab, clicks: seq<AdminTab>): AdminTab
    decreases |clicks|
  {
    if |clicks| == 0 then start else Navigate(clicks[0], clicks[1..])
  }

  /**
   * An administrator without full permission who only clicks the buttons shown
   * to them never sees anything but the orders view.
   */
  lemma {:induction false} OrdersOnlyReachesOnlyOrders(user: Option<User>, clicks: seq<AdminTab>)
    requires !HasFullPermission(user)
    requires forall i :: 0 <= i < |clicks| ==> clicks[i] in VisibleTabs(user)
    ensures Navigate(InitialTab, clicks) == OrdersTab
    ensures RenderedView(user, Navigate(InitialTab, clicks)) == Some(OrdersTab)
  {
    if |clicks| > 0 {
      assert clicks[0] == OrdersTab;
      OrdersOnlyReachesOnlyOrders(user, clicks[1..]);
    }
  }
}
