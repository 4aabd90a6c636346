// The sidebar's sections and the choice of which view the main pane shows.
module Sections {

  /** The sidebar entries, top to bottom. */
  const Titles: seq<string> :=
    ["Dashboard", "Orders", "Inventory", "Menu", "Analytics", "Employees", "Chat", "Settings"]

  /** The body the main pane renders; `NotFound` is the fallback that shows
      "Section not found". */
  datatype View =
    | DashboardView | OrdersView | InventoryView | MenuView
    | AnalyticsView | EmployeesView | ChatView | SettingsView
    | NotFound

  /** The sidebar title that selects a view. */
  function TitleOf(v: View): (title: string)
    requires v != NotFound
    ensures title in Titles
  {
    match v
    case DashboardView => "Dashboard"
    case OrdersView => "Orders"
    case InventoryView => "Inventory"
    case MenuView => "Menu"
    case AnalyticsView => "Analytics"
    case EmployeesView => "Employees"
    case ChatView => "Chat"
    case SettingsView => "Settings"
  }

  /** `renderSectionContent`: the view named by the selected section. Any
      string that is not one of the eight titles falls back to `NotFound`;
      no selection is ever rejected. */
  function RenderSection(selected: string): (v: View)
    ensures v == NotFound <==> selected !in Titles
    ensures v != NotFound ==> TitleOf(v) == selected
  {
    match selected
    case "Dashboard" => DashboardView
    case "Orders" => OrdersView
    case "Inventory" => InventoryView
    case "Menu" => MenuView
    case "Employees" => EmployeesView
    case "Chat" => ChatView
    case "Analytics" => AnalyticsView
    case "Settings" => SettingsView
    case _ => NotFound
  }

  /** Every sidebar entry leads to its own view, and every view other than the
      fallback is reachable from exactly one entry. */
  lemma SidebarCoversEveryView()
    ensures forall i :: 0 <= i < |Titles| ==> RenderSection(Titles[i]) != NotFound
    ensures forall v: View :: v != NotFound ==> RenderSection(TitleOf(v)) == v
    ensures forall i, j :: 0 <= i < j < |Titles| ==> RenderSection(Titles[i]) != RenderSection(Titles[j])
  {
  }
}
