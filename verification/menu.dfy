/**
 * The navigation bar's menu: a fixed list of entries per role, always
 * followed by the user guide. Each entry carries the category whose
 * bottleneck radar is shown beside it; labels and icons are not modelled.
 */
module Menu {
  import opened Types

  datatype MenuItem = MenuItem(id: string, category: Category)

  /** The user-guide entry every menu ends with. */
  const STRATEGY := MenuItem("strategy", Ux)

  predicate IsMemberRole(role: Role) {
    role == Member || role == Affiliate
  }

  predicate IsMerchantRole(role: Role) {
    role == Director || role == Manager || role == Cashier
  }

  /** The entries particular to a role. */
  function BaseMenu(role: Role): seq<MenuItem> {
    match role
    case Member | Affiliate =>
      [MenuItem("dashboard", Ux), MenuItem("marketplace", Ux), MenuItem("gamification", Ux),
       MenuItem("affiliate", Financial)]
    case Director | Manager | Cashier =>
      [MenuItem("dashboard", Financial), MenuItem("inventory", Operational), MenuItem("settlement", Financial)]
    case Admin =>
      [MenuItem("dashboard", Tech), MenuItem("partners", Operational), MenuItem("security", Legal)]
  }

  function Ids(items: seq<MenuItem>): (ids: seq<string>)
    ensures |ids| == |items|
    ensures forall k :: 0 <= k < |items| ==> ids[k] == items[k].id
  {
    if |items| == 0 then [] else [items[0].id] + Ids(items[1..])
  }

  /**
   * The menu shown to a user of `role`: it opens on the dashboard, ends with
   * the user guide, has five entries for members and affiliates and four for
   * everyone else, and never lists the same id twice.
   */
  function MenuItems(role: Role): (items: seq<MenuItem>)
    ensures |items| > 0 && items[|items| - 1] == STRATEGY
    ensures items[0].id == "dashboard"
    ensures |items| == if IsMemberRole(role) then 5 else 4
    ensures forall a, b :: 0 <= a < b < |items| ==> items[a].id != items[b].id
  {
    BaseMenu(role) + [STRATEGY]
  }

  lemma MemberMenu(role: Role)
    requires IsMemberRole(role)
    ensures Ids(MenuItems(role)) == ["dashboard", "marketplace", "gamification", "affiliate", "strategy"]
  {
  }

  lemma MerchantMenu(role: Role)
    requires IsMerchantRole(role)
    ensures Ids(MenuItems(role)) == ["dashboard", "inventory", "settlement", "strategy"]
  {
  }

  lemma AdminMenu()
    ensures Ids(MenuItems(Admin)) == ["dashboard", "partners", "security", "strategy"]
  {
  }
}
