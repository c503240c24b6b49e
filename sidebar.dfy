/** The sidebar menu (src/components/Layout/Sidebar.tsx): a fixed table of links, each
    listing the roles that may see it, filtered by the signed-in user's role. */
module Sidebar {
  import opened Types
  import opened Sequences

  /** A menu entry; the icon component is not modelled. */
  datatype NavItem = NavItem(name: string, href: string, roles: seq<Role>)

  const DashboardItem := NavItem("Dashboard", "/dashboard", [Admin, Maker, Checker])
  const InventoryItem := NavItem("Inventory", "/inventory", [Admin, Maker, Checker])
  const ApprovalItem := NavItem("Pending Approval", "/approval", [Checker, Admin])
  const UploadItem := NavItem("File Upload", "/upload", [Admin, Maker])
  const InvoicesItem := NavItem("Invoices", "/invoices", [Admin, Checker])
  const AlertsItem := NavItem("Alerts", "/alerts", [Admin, Maker, Checker])
  const ReportsItem := NavItem("Reports", "/reports", [Admin])
  const SettingsItem := NavItem("Settings", "/settings", [Admin])

  /** `navigation`, in display order. */
  const Navigation: seq<NavItem> := [
    DashboardItem, InventoryItem, ApprovalItem, UploadItem,
    InvoicesItem, AlertsItem, ReportsItem, SettingsItem
  ]

  /** `user?.role && item.roles.includes(user.role)` */
  predicate Allowed(user: Option<User>, item: NavItem)
  {
    user.Some? && user.value.role in item.roles
  }

  /** The test applied to each entry for a signed-in user of the given role. */
  function RoleMay(role: Role): NavItem -> bool
  {
    (item: NavItem) => role in item.roles
  }

  /** `filteredNavigation`: the entries the user's role may see, in table order; none
      without a signed-in user. */
  function VisibleItems(user: Option<User>): seq<NavItem>
  {
    if user.None? then [] else Filter(Navigation, RoleMay(user.value.role))
  }

  /** The menu keeps table order and shows exactly the entries the user may see. */
  lemma VisibleItemsSpec(user: Option<User>)
    ensures IsSubsequence(VisibleItems(user), Navigation)
    ensures forall item :: item in VisibleItems(user) ==> item in Navigation && Allowed(user, item)
    ensures forall item :: item in Navigation && Allowed(user, item) ==> item in VisibleItems(user)
  {
    if user.Some? {
      FilterSpec(Navigation, RoleMay(user.value.role));
    }
  }

  /** The labels of a list of entries. */
  function Names(items: seq<NavItem>): seq<string>
  {
    seq(|items|, i requires 0 <= i < |items| => items[i].name)
  }

  /** Signed out, the menu is empty. */
  lemma SignedOutSeesNothing()
    ensures VisibleItems(None) == []
  {
  }

  /** For an administrator every entry passes. */
  lemma AdminFilter()
    ensures Filter(Navigation, RoleMay(Admin)) == Navigation
  {
    var f, table := RoleMay(Admin), Navigation;
    assert Filter(table[8..], f) == [];
    assert Filter(table[7..], f) == table[7..];
    assert Filter(table[6..], f) == table[6..];
    assert Filter(table[5..], f) == table[5..];
    assert Filter(table[4..], f) == table[4..];
    assert Filter(table[3..], f) == table[3..];
    assert Filter(table[2..], f) == table[2..];
    assert Filter(table[1..], f) == table[1..];
    assert table[0..] == table;
  }

  /** An administrator sees the whole table. */
  lemma AdminSeesEverything(u: User)
    requires u.role == Admin
    ensures VisibleItems(Some(u)) == Navigation
  {
    AdminFilter();
  }

  /** For a maker, the entries listing the maker role pass; the filter is unrolled
      from the end of the table. */
  lemma MakerFilter()
    ensures Filter(Navigation, RoleMay(Maker)) == [DashboardItem, InventoryItem, UploadItem, AlertsItem]
  {
    var f, table := RoleMay(Maker), Navigation;
    assert Filter(table[8..], f) == [];
    assert Filter(table[7..], f) == [];
    assert Filter(table[6..], f) == [];
    assert Filter(table[5..], f) == [AlertsItem];
    assert Filter(table[4..], f) == [AlertsItem];
    assert Filter(table[3..], f) == [UploadItem, AlertsItem];
    assert Filter(table[2..], f) == [UploadItem, AlertsItem];
    assert Filter(table[1..], f) == [InventoryItem, UploadItem, AlertsItem];
    assert table[0..] == table;
  }

  /** A maker sees Dashboard, Inventory, File Upload and Alerts. */
  lemma MakerMenu(u: User)
    requires u.role == Maker
    ensures VisibleItems(Some(u)) == [DashboardItem, InventoryItem, UploadItem, AlertsItem]
    ensures Names(VisibleItems(Some(u))) == ["Dashboard", "Inventory", "File Upload", "Alerts"]
  {
    MakerFilter();
  }

  /** For a checker, the entries listing the checker role pass. */
  lemma CheckerFilter()
    ensures Filter(Navigation, RoleMay(Checker)) == [DashboardItem, InventoryItem, ApprovalItem, InvoicesItem, AlertsItem]
  {
    var f, table := RoleMay(Checker), Navigation;
    assert Filter(table[8..], f) == [];
    assert Filter(table[7..], f) == [];
    assert Filter(table[6..], f) == [];
    assert Filter(table[5..], f) == [AlertsItem];
    assert Filter(table[4..], f) == [InvoicesItem, AlertsItem];
    assert Filter(table[3..], f) == [InvoicesItem, AlertsItem];
    assert Filter(table[2..], f) == [ApprovalItem, InvoicesItem, AlertsItem];
    assert Filter(table[1..], f) == [InventoryItem, ApprovalItem, InvoicesItem, AlertsItem];
    assert table[0..] == table;
  }

  /** A checker sees Dashboard, Inventory, Pending Approval, Invoices and Alerts. */
  lemma CheckerMenu(u: User)
    requires u.role == Checker
    ensures VisibleItems(Some(u)) == [DashboardItem, InventoryItem, ApprovalItem, InvoicesItem, AlertsItem]
    ensures Names(VisibleItems(Some(u))) == ["Dashboard", "Inventory", "Pending Approval", "Invoices", "Alerts"]
  {
    CheckerFilter();
  }

  /** Reports and Settings are shown to administrators only. */
  lemma ReportsAndSettingsAdminOnly(user: Option<User>)
    requires user.Some? && user.value.role != Admin
    ensures ReportsItem !in VisibleItems(user) && SettingsItem !in VisibleItems(user)
  {
    VisibleItemsSpec(user);
  }
}
