// The dashboard component's local state and the handlers that replace it.
module Dashboard {
  import Text
  import Orders
  import Inventory
  import Analytics
  import Chat
  import Sections

  datatype Employee = Employee(id: int, name: string, role: string)

  /** The staff list loaded when the dashboard mounts (read-only). */
  const InitialEmployees: seq<Employee> := [
    Employee(1, "Alice Johnson", "Manager"),
    Employee(2, " Bob Brown", "Chef"),
    Employee(3, "Charlie Davis", "Waiter")
  ]

  /** The component state: one field per state hook except `menuItems` (the
      menu is not modelled), each handler replacing the fields its setters
      name. */
  class App {
    var selectedSection: string
    var recentOrders: seq<Orders.Order>
    var inventory: seq<Inventory.InventoryItem>
    var analyticsData: seq<Analytics.SalesPoint>
    var employees: seq<Employee>
    var chatMessages: seq<Chat.ChatMessage>
    var newMessage: string
    var darkMode: bool
    var snackbarOpen: bool
    var snackbarMessage: string

    /** Ids stay unique within the orders and within the inventory. */
    ghost predicate Valid()
      reads this
    {
      Orders.UniqueIds(recentOrders) && Inventory.UniqueIds(inventory)
    }

    /** The initial hook values: the Dashboard section, empty collections, an
        empty input, dark mode on and no notification. */
    constructor ()
      ensures Valid()
      ensures selectedSection == "Dashboard"
      ensures recentOrders == [] && inventory == [] && analyticsData == [] && employees == []
      ensures chatMessages == [] && newMessage == ""
      ensures darkMode && !snackbarOpen && snackbarMessage == ""
    {
      selectedSection := "Dashboard";
      recentOrders, inventory, analyticsData, employees := [], [], [], [];
      chatMessages, newMessage := [], "";
      darkMode := true;
      snackbarOpen, snackbarMessage := false, "";
    }

    /** The mount effect: the four fixture loads, nothing else. */
    method LoadFixtures()
      modifies this`recentOrders, this`inventory, this`analyticsData, this`employees
      ensures Valid()
      ensures recentOrders == Orders.InitialOrders
      ensures inventory == Inventory.InitialInventory
      ensures analyticsData == Analytics.InitialAnalytics
      ensures employees == InitialEmployees
    {
      recentOrders := Orders.InitialOrders;
      inventory := Inventory.InitialInventory;
      analyticsData := Analytics.InitialAnalytics;
      employees := InitialEmployees;
      Orders.InitialOrdersUniqueIds();
      Inventory.InitialInventoryUniqueIds();
    }

    /** A sidebar click: any string is stored, unchecked. */
    method SelectSection(title: string)
      modifies this`selectedSection
      ensures selectedSection == title
    {
      selectedSection := title;
    }

    /** Typing in the chat input replaces the pending text. */
    method SetNewMessage(text: string)
      modifies this`newMessage
      ensures newMessage == text
    {
      newMessage := text;
    }

    /** `handleSendMessage`. Blank pending text changes nothing. Otherwise
        exactly one message, from the admin and holding the untrimmed text,
        is appended after the earlier ones, the input is cleared and the
        "Message sent!" notification is raised. */
    method HandleSendMessage()
      modifies this`chatMessages, this`newMessage, this`snackbarMessage, this`snackbarOpen
      ensures Text.IsBlank(old(newMessage)) ==>
        chatMessages == old(chatMessages) && newMessage == old(newMessage) &&
        snackbarMessage == old(snackbarMessage) && snackbarOpen == old(snackbarOpen)
      ensures !Text.IsBlank(old(newMessage)) ==>
        |chatMessages| == |old(chatMessages)| + 1 &&
        chatMessages[..|old(chatMessages)|] == old(chatMessages) &&
        chatMessages[|old(chatMessages)|] == Chat.ChatMessage(Chat.Admin, old(newMessage)) &&
        newMessage == "" && snackbarMessage == Chat.SentNotice && snackbarOpen
    {
      if Chat.ShouldSend(newMessage) {
        chatMessages := chatMessages + [Chat.ChatMessage(Chat.Admin, newMessage)];
        newMessage := "";
        snackbarMessage := Chat.SentNotice;
        snackbarOpen := true;
      }
    }

    /** `handleOrderAction(id, action)`: the orders are replaced by their
        updated copy; ids stay unique. */
    method HandleOrderAction(id: int, action: string)
      requires Valid()
      modifies this`recentOrders
      ensures Valid()
      ensures recentOrders == Orders.OrderAction(old(recentOrders), id, action)
    {
      recentOrders := Orders.OrderAction(recentOrders, id, action);
    }

    /** `handleInventoryChange(id, newQuantity)`: the inventory is replaced by
        its updated copy; ids stay unique. */
    method HandleInventoryChange(id: int, newQuantity: int)
      requires Valid()
      modifies this`inventory
      ensures Valid()
      ensures inventory == Inventory.InventoryChange(old(inventory), id, newQuantity)
    {
      inventory := Inventory.InventoryChange(inventory, id, newQuantity);
    }

    /** The Settings switch flips dark mode. */
    method ToggleDarkMode()
      modifies this`darkMode
      ensures darkMode == !old(darkMode)
    {
      darkMode := !darkMode;
    }

    /** Dismissing the notification lowers its flag and keeps its text. */
    method CloseSnackbar()
      modifies this`snackbarOpen
      ensures !snackbarOpen
    {
      snackbarOpen := false;
    }

    /** The "Total Sales" figure shown on the Dashboard view. */
    function TotalSales(): (total: int)
      reads this
      ensures total == Analytics.SumSales(analyticsData)
    {
      Analytics.SalesTotal(analyticsData)
    }

    /** The body the main pane shows for the current selection. */
    function CurrentView(): (v: Sections.View)
      reads this
      ensures v == Sections.NotFound <==> selectedSection !in Sections.Titles
      ensures v != Sections.NotFound ==> Sections.TitleOf(v) == selectedSection
    {
      Sections.RenderSection(selectedSection)
    }
  }

  /** Mounting the dashboard: the Dashboard view is shown with a total of 295,
      three orders, three stock rows and an empty chat. */
  method Mount() returns (app: App)
    ensures fresh(app) && app.Valid()
    ensures app.CurrentView() == Sections.DashboardView
    ensures app.TotalSales() == 295
    ensures |app.recentOrders| == 3 && |app.inventory| == 3 && app.chatMessages == []
  {
    app := new App();
    app.LoadFixtures();
    Analytics.InitialTotalSales();
  }

  /** Accept then Reject on the same order: it ends Rejected, nothing else in
      the order list changes. */
  method AcceptThenReject(app: App, k: nat)
    requires app.Valid() && k < |app.recentOrders|
    modifies app`recentOrders
    ensures app.Valid()
    ensures |app.recentOrders| == |old(app.recentOrders)|
    ensures app.recentOrders[k] == old(app.recentOrders[k]).(status := Orders.Rejected)
    ensures forall j :: 0 <= j < |app.recentOrders| && j != k ==> app.recentOrders[j] == old(app.recentOrders[j])
  {
    var id := app.recentOrders[k].id;
    app.HandleOrderAction(id, "Accept");
    app.HandleOrderAction(id, "Reject");
    Orders.OrderActionLastWriteWins(old(app.recentOrders), id, "Accept", "Reject");
    Orders.OrderActionTouchesOnlyTarget(old(app.recentOrders), k, "Reject");
  }

  /** Flipping the switch twice restores the original mode. */
  method ToggleTwice(app: App)
    modifies app`darkMode
    ensures app.darkMode == old(app.darkMode)
  {
    app.ToggleDarkMode();
    app.ToggleDarkMode();
  }

  /** Sending twice in a row: the second send finds the input cleared and
      adds nothing. */
  method SendTwice(app: App)
    requires !Text.IsBlank(app.newMessage)
    modifies app`chatMessages, app`newMessage, app`snackbarMessage, app`snackbarOpen
    ensures app.chatMessages == old(app.chatMessages) + [Chat.ChatMessage(Chat.Admin, old(app.newMessage))]
    ensures app.newMessage == "" && app.snackbarOpen
  {
    app.HandleSendMessage();
    app.HandleSendMessage();
  }
}
