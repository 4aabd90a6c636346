# Restaurant dashboard state controller

A model of the local state of the restaurant-management dashboard (`src/App.js`,
the `App` component). The component keeps its data in React state hooks and
changes it only through a few handlers:

- Accept / Reject on an order rewrites the order list, giving the order with
  that id the status Completed (for "Accept") or Rejected (for any other action).
- Editing a stock quantity rewrites the inventory the same way, on the `quantity` field.
- Sending a chat message appends `{sender: "Admin", text}` when the pending
  text is not blank once trimmed, clears the input and raises the
  "Message sent!" notification.
- The Dashboard view shows the sum of the monthly `sales` figures.
- The main pane shows the view named by the selected section. Any other name
  falls back to "Section not found".
- The Settings switch flips dark mode.

Module layout:

- `Text` (text.dfy): JavaScript's `trim` and the blank test it stands for.
- `Orders` (orders.dfy): the order records, their fixture and the order-list rewrite.
- `Inventory` (inventory.dfy): the stock records, their fixture, the quantity
  rewrite and the low-stock mark.
- `Analytics` (analytics.dfy): the sales series and its total, a left fold
  proved equal to a reference sum.
- `Chat` (chat.dfy): chat messages and the send guard.
- `Sections` (sections.dfy): the eight sidebar titles and the view dispatch.
- `Dashboard` (dashboard.dfy): class `App`. It has one field per state hook
  except `menuItems` (the menu is left out), one method per handler and a `Valid()` invariant saying ids are unique.
  There are also client methods that replay the usage scenarios.

The list rewrites are pure functions over sequences, as in the source's
`map` with object spread. The class methods assign their results to the
fields, as the state setters do. Order status is the datatype
`Pending | Completed | Rejected`, the only three strings the source ever
stores. The action stays an arbitrary string.

## Model

| member | source | states |
|---|---|---|
| `Text.SkipForward` | src/App.js:117 | from index `i`, skips exactly the run of whitespace: every skipped character is whitespace and the character it stops at, if any, is not |
| `Text.SkipBackward` | src/App.js:117 | from index `j` back towards `lo`, skips exactly the run of whitespace: every skipped character is whitespace and the character before where it stops, if it is past `lo`, is not |
| `Text.Trim` | src/App.js:117 | `trim()` is the slice of the text between a blank prefix and a blank suffix; it is empty exactly when the text is blank, and otherwise its first and last characters are not whitespace, so the removed prefix and suffix are the longest blank ones |
| `Chat.ShouldSend` | src/App.js:117 | the send guard holds exactly when some character of the pending text is not whitespace |
| `Chat.GuardExamples` | src/App.js:116-122 | "" and "   " are not sent; "Hello" and " Hello " are |
| `Orders.StatusFor` | src/App.js:128 | "Accept" and only "Accept" gives Completed; every other action string gives Rejected; no action gives Pending |
| `Orders.OrderAction` | src/App.js:125-131 | length is preserved; orders with another id are unchanged; orders with the id keep id, item and customer and get the status the action sets |
| `Orders.OrderActionUnknownId` | src/App.js:126-129 | an id that names no order leaves the list unchanged |
| `Orders.OrderActionLastWriteWins` | src/App.js:126-129 | two actions on one id have the effect of the second alone (no transition guard) |
| `Orders.AcceptThenReject` | src/App.js:126-129 | Accept then Reject leaves every order with that id Rejected |
| `Orders.OrderActionsCommute` | src/App.js:126-129 | actions on two different ids give the same list in either order |
| `Orders.OrderActionTouchesOnlyTarget` | src/App.js:126-129 | with unique ids, ids stay unique, only the targeted order changes, and it changes only in status |
| `Orders.InitialOrdersUniqueIds` | src/App.js:74-80 | the order fixture has unique ids |
| `Inventory.InventoryChange` | src/App.js:133-139 | length is preserved; items with another id are unchanged; items with the id keep id, name and unit and get the new quantity |
| `Inventory.IsLowStock` | src/App.js:235 | a row is highlighted as low stock exactly when its quantity is below 20 |
| `Inventory.InventoryChangeUnknownId` | src/App.js:134-137 | an id that names no item leaves the inventory unchanged |
| `Inventory.InventoryChangeLastWriteWins` | src/App.js:134-137 | two edits of one item store the second quantity |
| `Inventory.InventoryChangeSameQuantity` | src/App.js:134-137 | writing back an item's current quantity leaves the inventory unchanged |
| `Inventory.InventoryChangeTouchesOnlyTarget` | src/App.js:134-137 | with unique ids, ids stay unique, only the targeted item changes, and it changes only in quantity |
| `Inventory.InitialInventoryUniqueIds` | src/App.js:82-88 | the inventory fixture has unique ids |
| `Inventory.TofuDropsToFive` | src/App.js:235 | setting the Tofu quantity from 15 to 5 stores 5, keeps the other rows, and the row is low stock (below 20) while Ramen Noodles is not |
| `Analytics.FoldSales` | src/App.js:169 | the reducer run left to right from `acc` yields `acc` plus the reference sum of the sales |
| `Analytics.SalesTotal` | src/App.js:169 | the reduce from 0 equals the reference sum of the sales, and is 0 for an empty series |
| `Analytics.SumSalesAppend` | src/App.js:169 | the sum over a concatenation is the sum of the two sums |
| `Analytics.SalesTotalAddMonth` | src/App.js:169 | appending a month adds exactly its sales to the total |
| `Analytics.SalesTotalBoundsEachMonth` | src/App.js:169 | with no negative month, each month's sales lie between 0 and the total |
| `Analytics.InitialTotalSales` | src/App.js:99-105 | the fixture series totals 295 |
| `Sections.TitleOf` | src/App.js:43-52 | each real view has a title among the eight sidebar titles |
| `Sections.RenderSection` | src/App.js:357-385 | the fallback is chosen exactly when the selection is not one of the eight titles; otherwise the chosen view is the one whose title is the selection |
| `Sections.SidebarCoversEveryView` | src/App.js:425-435 | every sidebar entry reaches a real view, distinct entries reach distinct views, and every real view is reached from its title |
| `Dashboard.App.constructor` | src/App.js:54-64 | the initial hook values: Dashboard selected, empty collections and input, dark mode on, no notification |
| `Dashboard.App.LoadFixtures` | src/App.js:66-72 | the mount effect loads the order, inventory, analytics and employee fixtures and establishes unique ids |
| `Dashboard.App.SelectSection` | src/App.js:429 | any title is stored unchecked |
| `Dashboard.App.SetNewMessage` | src/App.js:325 | typing replaces the pending text |
| `Dashboard.App.HandleSendMessage` | src/App.js:116-123 | blank input changes nothing; otherwise exactly one Admin message with the untrimmed text is appended after the unchanged earlier ones, the input becomes "", and the notification is "Message sent!" and open |
| `Dashboard.App.HandleOrderAction` | src/App.js:125-131 | the orders become their rewrite by `OrderAction`; unique ids are kept; no other field changes |
| `Dashboard.App.HandleInventoryChange` | src/App.js:133-139 | the inventory becomes its rewrite by `InventoryChange`; unique ids are kept; no other field changes |
| `Dashboard.App.ToggleDarkMode` | src/App.js:378 | the dark-mode flag is negated; no other field changes |
| `Dashboard.App.CloseSnackbar` | src/App.js:333 | the notification flag is lowered; no other field changes |
| `Dashboard.App.TotalSales` | src/App.js:169 | the displayed total is the sum of the sales in the current series |
| `Dashboard.App.CurrentView` | src/App.js:440 | the pane falls back to "Section not found" exactly when the selection is not a sidebar title, and otherwise shows the view whose title is the selection |
| `Dashboard.Mount` | src/App.js:54-72 | after mounting, the Dashboard view shows a total of 295 and the state holds three orders, three stock rows and no messages |
| `Dashboard.AcceptThenReject` | src/App.js:204-208 | pressing Accept then Reject on one row leaves that order Rejected and every other order unchanged |
| `Dashboard.ToggleTwice` | src/App.js:378 | flipping the switch twice restores the original mode |
| `Dashboard.SendTwice` | src/App.js:116-123 | a second send right after a successful one adds nothing, because the input was cleared |

## Left out

- Rendering: JSX, MUI components, recharts charts, colours and layout (src/App.js:141-445). The model keeps only which view is selected, and the low-stock threshold of the inventory rows.
- Menu items (src/App.js:90-96, 254-278): their prices are floating-point numbers formatted with `toFixed(2)`. The menu is read-only, so no handler depends on it.
- The notification's 3000 ms auto-hide timer (src/App.js:332). It is timer-driven and belongs to the UI library. `CloseSnackbar` models its effect as an explicit operation.
- `Number(e.target.value)` at src/App.js:241. It can store NaN, a fraction or a negative value. The new quantity is an `int` parameter here.
- Sales figures are `int`. JavaScript numbers are doubles, but every fixture value is a small integer, so the sum is exact.
- The footer year `new Date().getFullYear()` (src/App.js:402), which depends on the clock.
- React mechanics: re-rendering, batching of setter calls, and the functional-update form of the setters. Each handler runs to completion on the current state.
- Text.IsWhitespace: lists the WhiteSpace and LineTerminator code points of ECMAScript, with the space separators of current Unicode. It would not follow a future change to that category.
- Order and inventory ids are compared with `===` on numbers. They are `int` here, so the string-versus-number mismatch that `===` would reject is not modelled.
