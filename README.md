# Sales order store and order lifecycle — a Dafny model

This project models the core of a small sales application used by sales
representatives and their managers:

- **The browser-side store `LocalDatabase`** (`database.dfy`, module `Database`).
  It has seven tables: users, product groups, products, customers, orders, order
  items and notifications. The model is a class with one `seq` field per table.
  Each operation reassigns the fields it changes:
  - every `add*` appends a record with a fresh id;
  - every `update*` merges a partial record into the first record with the id
    (every field but the id and the creation time can be patched);
  - every `delete*` filters the table, and a deleted group or order takes its
    products or items with it;
  - `markNotificationAsRead`, the soft-delete helpers, `login`, the default-data
    seeding and the wipe.

  `Valid()` says that ids are distinct in each table. Every add, update, delete,
  trash, restore, seeding and wipe operation preserves it. The two whole-table
  writes (`SaveNotifications`, `SaveOrders`) preserve it when the list they write
  has distinct ids.
  The program seeds its eleven default products with eleven separate calls. The
  model holds them as a catalogue constant (`SeedCatalogue`) and adds them with
  one loop, in the same order and with the same fields.
- **The order lifecycle and its notification fan-out**, as the screens drive it:
  - The representative's order form (`create_order_view.dfy`) holds the cart, the
    draft and send guards, and the writes that save a draft or send an order,
    notifying every manager.
  - The representative's order list (`my_orders_view.dfy`) sends a draft, moves an
    order to the trash, restores it, or deletes it for good.
  - The managers' board (`orders_management_view.dfy`) marks an order printed and
    notifies its representative, and has its own hard-delete "move to trash".
  - The notification list (`notifications_view.dfy`) and the unread counter hook
    (`use_notifications.dfy`).
- **The derived views:**
  - per-representative statistics (`sales_reps_stats.dfy`);
  - the managers' permission gate and tab navigation (`admin_dashboard.dfy`);
  - manager account administration (`manage_admins_view.dfy`).

`tables.dfy` holds the generic table helpers: first match, filter, delete by key,
sum, newest-first sort and a fresh-key generator. It also holds their lemmas.

Status changes reproduce the program as it is:

- Restoring always yields `pending`, whatever the order's status was before.
- No operation ever produces `completed`.
- The managers' "move to trash" deletes the order and its items outright, so the
  order never reaches their trash list.

One handler is not modelled as written. The managers' "mark printed"
(`components/admin/orders-management-view.tsx:79-96`) calls `db.updateOrderStatus`,
which neither store defines. As written, that call throws, the handler's `catch`
reports an error, and nothing changes: no status and no notice. The model
substitutes the evidently intended step, an update of the status field alone
followed by the representative's notice (`OrdersManagementView.MarkAsPrinted`).

The draft guard does not look at the cart, so a form holding only cart lines is
refused as "nothing to save" (`CreateOrderView.DraftRefusal`). This is modelled as
written.

The managers' board reuses the representatives' restore and permanent-delete
operations (`MyOrdersView.RestoreFromTrash`, `MyOrdersView.PermanentDeleteConfirmed`)
because the two screens run identical code for them. The managers' account list is
`CreateOrderView.Admins`, the same role filter the order form uses.

## Model

| member | source | states |
|---|---|---|
| Database.MergeStatusOnly | lib/database.ts:278-286 | a `{ status }` update merged over an order changes its status and no other field |
| Database.LocalDatabase.constructor | lib/database.ts:85-106 | a store over empty storage has seven empty tables and satisfies the distinct-id invariant |
| Database.LocalDatabase.AddUser | lib/database.ts:113-123 | appends exactly one user: the caller's fields, an id no user has, and the given timestamp; earlier records stay in order; ids stay distinct |
| Database.LocalDatabase.UpdateUser | lib/database.ts:125-133 | unknown id: returns nothing and leaves the table unchanged; otherwise replaces only the first user with that id by the field-wise merge and returns it |
| Database.LocalDatabase.DeleteUser | lib/database.ts:135-142 | returns true iff a user had the id; afterwards no user has it and the table is the old one without exactly those records |
| Database.LocalDatabase.Login | lib/database.ts:144-147 | the first user whose username and password match and who is active; nothing iff no user matches all three |
| Database.LocalDatabase.AddProductGroup | lib/database.ts:154-164 | appends one group with the caller's fields and a fresh id; the rest is unchanged |
| Database.LocalDatabase.UpdateProductGroup | lib/database.ts:166-174 | unknown id changes nothing; otherwise only the first group with the id is replaced by the merge |
| Database.LocalDatabase.DeleteProductGroup | lib/database.ts:176-187 | true iff the group existed; then the group is gone and so are exactly the products whose group id it is; otherwise products are untouched |
| Database.LocalDatabase.AddProduct | lib/database.ts:194-204 | appends one product with the caller's fields and a fresh id |
| Database.LocalDatabase.UpdateProduct | lib/database.ts:206-214 | unknown id changes nothing; otherwise only the first product with the id is replaced by the merge |
| Database.LocalDatabase.DeleteProduct | lib/database.ts:216-223 | true iff the product existed; afterwards no product has the id and the others stay in order |
| Database.LocalDatabase.AddCustomer | lib/database.ts:230-240 | appends one customer with the caller's fields and a fresh id |
| Database.LocalDatabase.UpdateCustomer | lib/database.ts:242-250 | unknown id changes nothing; otherwise only the first customer with the id is replaced by the merge |
| Database.LocalDatabase.DeleteCustomer | lib/database.ts:252-259 | true iff the customer existed; afterwards no customer has the id and the others stay in order |
| Database.LocalDatabase.AddOrder | lib/database.ts:266-276 | appends one order with the caller's fields, a fresh id and the timestamp; the table grows by one and earlier orders are untouched |
| Database.LocalDatabase.UpdateOrder | lib/database.ts:278-286 | returns nothing and changes nothing iff no order has the id; otherwise only the first order with the id is replaced by the field-wise merge |
| Database.LocalDatabase.DeleteOrder | lib/database.ts:288-299 | false, changing nothing, iff no order has the id; on success every order with the id and exactly the items whose order id it is are removed; other items stay in order |
| Database.LocalDatabase.AddOrderItem | lib/database.ts:306-316 | appends one item with the caller's fields and a fresh id |
| Database.LocalDatabase.AddNotification | lib/database.ts:323-333 | appends one notification with the caller's fields and a fresh id |
| Database.LocalDatabase.MarkNotificationAsRead | lib/database.ts:335-343 | unknown id: nothing and no change; otherwise the first notification with the id gets `is_read` true, every other field and record stays, and marking an already-read one changes nothing (idempotent) |
| Database.LocalDatabase.DeleteNotification | lib/database.ts:345-352 | true iff the notification existed; afterwards none has the id and the rest stay in order |
| Database.LocalDatabase.SaveNotifications | lib/database.ts:354-356 | the notification table becomes exactly the given list; a list with distinct ids keeps the store valid |
| Database.LocalDatabase.SaveOrders | lib/database.ts:358-360 | the order table becomes exactly the given list; a list with distinct ids keeps the store valid |
| Database.LocalDatabase.MoveOrderToTrash | lib/database.ts:363-366 | true iff the order exists; then its status becomes `deleted` and nothing else changes |
| Database.LocalDatabase.RestoreOrder | lib/database.ts:368-371 | true iff the order exists; then its status becomes `pending`, whatever it was before |
| Database.LocalDatabase.PermanentDeleteOrder | lib/database.ts:373-375 | the same effect as deleting the order: the order and exactly its items go |
| Database.LocalDatabase.DeleteOrderTwice | lib/database.ts:288-299 | after a delete, a second delete of the same order, by `deleteOrder` or by `permanentDeleteOrder`, returns false and changes nothing |
| Database.LocalDatabase.InitializeDefaultData | lib/database.ts:377-431 | an empty user table gets exactly the default administrator, who can then log in as admin/admin; an empty group table gets the four groups and the eleven catalogue products, each filed under its group; non-empty tables are untouched |
| Database.LocalDatabase.AddSeedGroups | lib/database.ts:396-413 | appends the four default groups in order and returns their new ids |
| Database.LocalDatabase.AddSeedProducts | lib/database.ts:415-429 | appends the eleven catalogue products in order, each carrying the id of its seeded group |
| Database.LocalDatabase.ClearAllData | lib/database.ts:434-438 | every table is empty |
| CreateOrderView.AddToLines | components/sales-rep/create-order-view.tsx:84-95 | the line of the product gets quantity + q and total = unit price × new quantity; other lines are unchanged; no line is added |
| CreateOrderView.ConfirmAddProduct | components/sales-rep/create-order-view.tsx:73-111 | no selected product or a quantity that is not a number ≥ 1 leaves the cart unchanged; a product already in the cart merges into its line; a new product appends one line with total = price × quantity |
| CreateOrderView.ConfirmAddProductInvariant | components/sales-rep/create-order-view.tsx:73-111 | adding keeps the cart well formed (one line per product, quantity ≥ 1, line total = unit price × quantity); the product set gains the added product; the cart total rises by price × quantity |
| CreateOrderView.AddToExistingLine | components/sales-rep/create-order-view.tsx:84-95 | merging into an existing line keeps the cart well formed and its products, and adds unit price × q to the total |
| CreateOrderView.AppendNewLine | components/sales-rep/create-order-view.tsx:96-107 | appending a line for a new product keeps the cart well formed, adds that product and adds the line total |
| CreateOrderView.OnlyLineOf | components/sales-rep/create-order-view.tsx:82-95 | in a cart with one line per product, the matched line is the only line of its product |
| CreateOrderView.SetLineQuantity | components/sales-rep/create-order-view.tsx:119-128 | only the product's line gets the new quantity and total; other lines are unchanged |
| CreateOrderView.HandleQuantityChange | components/sales-rep/create-order-view.tsx:113-131 | a value that is not a number or is below 1 is a no-op; otherwise the product's line gets that quantity |
| CreateOrderView.SetExistingLine | components/sales-rep/create-order-view.tsx:119-128 | setting a line's quantity keeps the cart well formed and moves the total by unit price × (new − old quantity) |
| CreateOrderView.SetAbsentLine | components/sales-rep/create-order-view.tsx:119-128 | setting the quantity of a product not in the cart changes nothing |
| CreateOrderView.HandleQuantityChangeInvariant | components/sales-rep/create-order-view.tsx:113-131 | a quantity change keeps the cart well formed and its products, and is a no-op unless the value is valid and the product is present |
| CreateOrderView.RemoveItem | components/sales-rep/create-order-view.tsx:133-135 | exactly the lines of other products remain; an absent product leaves the cart as it is; in a cart with one line per product, the result is the cart with that one line cut out, the rest in order |
| CreateOrderView.RemoveItemInvariant | components/sales-rep/create-order-view.tsx:133-135 | removal keeps the cart well formed and removes exactly that product from its product set |
| CreateOrderView.RemoveItemTotal | components/sales-rep/create-order-view.tsx:133-135 | removal lowers the cart total by exactly the removed line's total, or by nothing if the product was absent |
| CreateOrderView.LeadingBlanks | components/sales-rep/create-order-view.tsx:192 | the length of the maximal run of white-space characters at the start |
| CreateOrderView.TrailingBlanks | components/sales-rep/create-order-view.tsx:192 | the length of the maximal run of white-space characters at the end |
| CreateOrderView.Trim | components/sales-rep/create-order-view.tsx:192 | `trim()`: the slice of the text between an all-white-space prefix and an all-white-space suffix; empty iff the text is all white space; otherwise it starts and ends with a non-white-space character |
| CreateOrderView.TrimIdempotent | components/sales-rep/create-order-view.tsx:209 | trimming trimmed text changes nothing, and text with no blank ends is its own trim |
| CreateOrderView.DraftRefusal | components/sales-rep/create-order-view.tsx:192-195 | a draft is refused ("nothing to save") iff there is no customer, no image and only blank text; the cart is not consulted |
| CreateOrderView.SendRefusal | components/sales-rep/create-order-view.tsx:236-244 | a send is refused as "nothing to send" iff cart, images and text are all empty, and as "customer required" iff the cart has lines but no customer is chosen |
| CreateOrderView.SendableIsSaveable | components/sales-rep/create-order-view.tsx:192-244 | every form the send guard accepts, the draft guard accepts too |
| CreateOrderView.MyCustomers | components/sales-rep/create-order-view.tsx:48-63 | the customer list is exactly the customers whose representative is the current user |
| CreateOrderView.SelectedCustomer | components/sales-rep/create-order-view.tsx:248 | `find`'s first listed customer with the chosen id, and nothing iff no listed customer has it |
| CreateOrderView.TextField | components/sales-rep/create-order-view.tsx:264 | the stored text is absent iff the typed text is blank, and otherwise is its non-empty trim |
| CreateOrderView.LinesTotal | components/sales-rep/create-order-view.tsx:199 | the items written for a well-formed cart add up (quantity × price) to the cart total, so the order's total matches its items |
| CreateOrderView.AddOrderLines | components/sales-rep/create-order-view.tsx:277-287 | appends one item per cart line, in cart order, with the order id, product, quantity and price = unit price |
| CreateOrderView.Admins | components/sales-rep/create-order-view.tsx:290-291 | exactly the users with the admin role |
| CreateOrderView.EveryAdminNotified | components/sales-rep/create-order-view.tsx:292-301 | after the fan-out every admin has a new notice about the order, and every new notice is addressed to an admin |
| CreateOrderView.AdminGetsNotice | components/sales-rep/create-order-view.tsx:292-301 | a given admin has an unread `order_submitted` notice about the order among the new ones |
| CreateOrderView.NoticeGoesToAdmin | components/sales-rep/create-order-view.tsx:292-301 | a given new notice is addressed to some admin |
| CreateOrderView.NotifyAdmins | components/sales-rep/create-order-view.tsx:292-301 | appends, per admin in table order, one unread `order_submitted` notice with the message and the order id; nothing else changes |
| CreateOrderView.SaveDraft | components/sales-rep/create-order-view.tsx:191-233 | a refused draft writes nothing and keeps the form; otherwise exactly one `draft` order and its items are written, no notification, and the form is cleared; the items add up to the order total |
| CreateOrderView.SendToManager | components/sales-rep/create-order-view.tsx:235-333 | a refused send writes nothing; otherwise one `pending` order (customer id "none" and name "طلبية" without a customer), one item per cart line, one unread notice per admin with the order id, and a cleared form |
| MyOrdersView.MyOrders | components/sales-rep/my-orders-view.tsx:26-29 | a rearrangement (same multiset) of the orders whose representative is the user, newest first |
| MyOrdersView.ActiveOrders | components/sales-rep/my-orders-view.tsx:136-146 | exactly the orders not in the trash |
| MyOrdersView.TrashedOrders | components/sales-rep/my-orders-view.tsx:103 | exactly the orders whose status is `deleted` |
| MyOrdersView.TabsPartition | components/sales-rep/my-orders-view.tsx:103-146 | the active and trash tabs together hold every order exactly once |
| MyOrdersView.OrderDetails | components/sales-rep/my-orders-view.tsx:40-50 | exactly the items of the order |
| MyOrdersView.RepActions | components/sales-rep/my-orders-view.tsx:325-353 | send only for drafts, trash only for printed orders, restore and delete for good only for trashed ones |
| MyOrdersView.SendDraftOrder | components/sales-rep/my-orders-view.tsx:52-76 | an existing order becomes `pending`, with its other fields kept, and every admin gets one unread notice naming it; an unknown id changes nothing and notifies no one |
| MyOrdersView.MoveToTrashConfirmed | components/sales-rep/my-orders-view.tsx:78-85 | after confirmation an existing order's status becomes `deleted`; otherwise nothing changes |
| MyOrdersView.PermanentDeleteConfirmed | components/sales-rep/my-orders-view.tsx:87-94 | after confirmation the order and exactly its items are removed; otherwise nothing changes |
| MyOrdersView.RestoreFromTrash | components/sales-rep/my-orders-view.tsx:96-101 | an existing order's status becomes `pending` |
| MyOrdersView.RestoreLeavesTrash | components/sales-rep/my-orders-view.tsx:96-103 | a restored order shows in the active tab and the trash tab shrinks by one |
| OrdersManagementView.RepOf | components/admin/orders-management-view.tsx:57-59 | the first user with the representative id, and nothing iff there is none |
| OrdersManagementView.Board | components/admin/orders-management-view.tsx:55-60 | the board is the non-draft orders in table order, each paired with its representative |
| OrdersManagementView.BoardShowsSubmitted | components/admin/orders-management-view.tsx:55-60 | every board order is stored and not a draft, and every stored non-draft order is on the board |
| OrdersManagementView.GoneFromBoard | components/admin/orders-management-view.tsx:98-105 | an order no longer stored is not on the board |
| OrdersManagementView.OfStatus | components/admin/orders-management-view.tsx:145-147 | exactly the board rows of one status |
| OrdersManagementView.PendingCountMatchesStore | components/admin/orders-management-view.tsx:69-70 | the pending badge equals the number of stored pending orders |
| OrdersManagementView.StatusListsPartition | components/admin/orders-management-view.tsx:145-147 | on a draft-free board the three lists (pending, printed, trash) plus the completed rows, which no list shows, together count every row once |
| OrdersManagementView.StatusListsDisjoint | components/admin/orders-management-view.tsx:145-147 | two lists of different statuses never share a row |
| OrdersManagementView.RecentPrinted | components/admin/orders-management-view.tsx:247 | the first five printed rows at most, in order |
| OrdersManagementView.AdminActions | components/admin/orders-management-view.tsx:436-467 | mark printed only for pending orders, trash only for printed ones, restore and delete for good only for trashed ones |
| OrdersManagementView.MarkAsPrinted | components/admin/orders-management-view.tsx:79-96 | through a status-only update standing in for the undefined `updateOrderStatus`, a stored order becomes `printed` and nothing else about it changes; exactly one unread `order_printed` notice goes to the order's representative |
| OrdersManagementView.AdminMoveToTrash | components/admin/orders-management-view.tsx:98-105 | after confirmation the order and its items are deleted outright, not moved to the trash |
| NotificationsView.MyNotifications | components/sales-rep/notifications-view.tsx:22-35 | a rearrangement (same multiset) of the user's notifications, newest first |
| NotificationsView.Unread | components/sales-rep/notifications-view.tsx:80 | exactly the listed notifications that are unread |
| NotificationsView.BadgeMatchesCounter | components/sales-rep/notifications-view.tsx:80 | the list's unread badge equals the unread counter of the hook for the same user |
| NotificationsView.MarkAsRead | components/sales-rep/notifications-view.tsx:37-44 | that notification becomes read and nothing else changes |
| NotificationsView.MarkAllAsRead | components/sales-rep/notifications-view.tsx:46-54 | afterwards every notification of the user is read, with no other field changed, and other users' notifications are untouched |
| NotificationsView.MarkEach | components/sales-rep/notifications-view.tsx:48-49 | the loop over the unread notices marks each one read and touches no other user's notification |
| NotificationsView.AllOfUserMarked | components/sales-rep/notifications-view.tsx:46-54 | once each listed unread notice is read, every notification of the user is read |
| NotificationsView.MarkOne | components/sales-rep/notifications-view.tsx:49 | one pass of the loop marks one notice read and touches no other |
| NotificationsView.DeleteNotification | components/sales-rep/notifications-view.tsx:56-67 | after confirmation exactly the notification with the id is removed and all others, other users' included, stay in order |
| UseNotifications.UnreadCount | hooks/use-notifications.ts:6-28 | zero for an empty user id, otherwise the number of the user's unread notifications; never more than the table size |
| UseNotifications.UnreadCountAppend | hooks/use-notifications.ts:15-16 | a new notification raises the count by one iff it is the user's and unread |
| UseNotifications.OthersDoNotCount | hooks/use-notifications.ts:15 | notifications addressed to other users never change the count |
| SalesRepsStats.Reps | components/admin/sales-reps-stats.tsx:12 | exactly the users with the sales-rep role |
| SalesRepsStats.CountedOrders | components/admin/sales-reps-stats.tsx:16 | the representative's orders not in the trash, drafts included |
| SalesRepsStats.StatOf | components/admin/sales-reps-stats.tsx:15-31 | a line's order count and sales are those of the counted orders, and pending plus printed never exceed the count |
| SalesRepsStats.PerRep | components/admin/sales-reps-stats.tsx:15 | one line per representative, in order |
| SalesRepsStats.ComputeStats | components/admin/sales-reps-stats.tsx:9-48 | the lines ranked by non-increasing order count are a permutation of the per-representative lines; overall orders and sales are the sums of the lines; the active count is the number of active representatives, never more than all of them |
| SalesRepsStats.PerRepOrderCount | components/admin/sales-reps-stats.tsx:15-37 | over representatives with distinct ids, the lines' order counts add up to the number of non-trashed orders of any of them |
| SalesRepsStats.PerRepSales | components/admin/sales-reps-stats.tsx:15-38 | over representatives with distinct ids, the lines' sales add up to the total of the non-trashed orders of any of them |
| SalesRepsStats.OverallTotals | components/admin/sales-reps-stats.tsx:9-48 | with distinct user ids, the page's overall order count and sales are those of the non-trashed orders of all representatives: none counted twice, none missed |
| AdminDashboard.HasFullPermission | components/admin-dashboard.tsx:21 | true iff the user is an admin whose permission is full or absent |
| AdminDashboard.VisibleTabs | components/admin-dashboard.tsx:56-114 | the orders tab is always offered; any other tab is offered only with full permission, which offers all five |
| AdminDashboard.RenderedView | components/admin-dashboard.tsx:118-124 | the orders view always renders on its tab; any other tab renders iff the user has full permission |
| AdminDashboard.OrdersOnlyReachesOnlyOrders | components/admin-dashboard.tsx:18-124 | from the initial tab, a user without full permission who clicks only offered tabs stays on, and sees, the orders view |
| ManageAdminsView.ValidateNewAdmin | components/admin/manage-admins-view.tsx:49-63 | refuses missing username, password or full name first, then a missing security question or answer, then a taken username; accepts exactly the remaining forms, whose username is then new |
| ManageAdminsView.HandleAddAdmin | components/admin/manage-admins-view.tsx:48-90 | a refused form writes nothing; an accepted one appends one active admin with the chosen permission, who can then log in with the form's credentials |
| ManageAdminsView.FirstMatchIsNew | components/admin/manage-admins-view.tsx:59-76 | with a new username, the first login match after the append is the new admin |
| ManageAdminsView.AddKeepsUsernamesUnique | components/admin/manage-admins-view.tsx:59-76 | accepted adds keep usernames distinct |
| ManageAdminsView.HandleEditAdmin | components/admin/manage-admins-view.tsx:92-106 | writes only username, password, full name, phone and permission of the edited admin; e-mail and security fields stay |
| ManageAdminsView.HandleEditSelf | components/admin/manage-admins-view.tsx:108-128 | writes the current user's own editable fields and nothing else; without an editor or a current user nothing changes |
| ManageAdminsView.HandleDeleteAdmin | components/admin/manage-admins-view.tsx:130-140 | deleting one's own account is refused with no change; otherwise after confirmation exactly that user is removed |
| ManageAdminsView.HandleDeleteAllData | components/admin/manage-admins-view.tsx:142-181 | a PIN other than "0000" reports the wrong-PIN error and clears nothing; the right PIN with confirmation empties every table |

## Left out

- The remote store (`SupabaseDatabase`) and its client are not modelled. Every core screen uses the exported store `db` (`lib/database.ts:924`), whose operations are asynchronous. Most screens call it without awaiting the result; the managers' account page and the board's loading and printing are the exceptions. As written, those screens read and write promises instead of records: a list built by filtering a promise throws and stays empty, the badge stays 0, and the items of a new order are written with an undefined order id. The model gives every screen the local store's synchronous semantics, which is the evidently intended behaviour.
- Id generation (`Date.now` plus `Math.random`) becomes `Tables.FreshKey`, a key longer than every key in the table and so fresh by construction. Timestamps are an integer `now` parameter, and one handler uses one `now` for every record it writes.
- The `update*` operations take a `Partial<T>` record, which could also overwrite a record's `id` or `created_at`. The model's patch types leave those two fields out, so every update keeps them. No caller in the program passes either field.
- JSON serialisation and `localStorage` are not modelled. Each table is the in-memory sequence itself. The wipe lists storage keys that differ from the store's own, but clears all storage afterwards; the model keeps only that final effect.
- React state, polling intervals, alerts, page reloads and rendering are not modelled. Each confirmation dialog is a `confirmed` parameter. Where a screen reads a snapshot loaded earlier (its customer list, its admin list), the model reads the current table.
- Image capture and upload are not modelled. Images are an opaque sequence of strings.
- Money is an integer in the program's own unit (dinars), as in the seeded catalogue. Fractional prices, which the product form accepts, and floating-point rounding are not modelled. A quantity typed into the form is `Option<int>`: `None` stands for a value `parseInt` cannot read. Partial-parse quirks of `parseInt` are not modelled.
- SalesRepsStats.ComputeStats: ranks by non-increasing order count and is a permutation, but does not promise the relative order of ties that JavaScript's stable sort keeps.
- MyOrdersView.MyOrders: newest first and a rearrangement of the user's orders, but the order among equal timestamps, which JavaScript's stable sort keeps, is not stated.
- NotificationsView.MyNotifications: newest first and a rearrangement of the user's notifications, but the order among equal timestamps is not stated.
- OrdersManagementView.MarkAsPrinted: substitutes `updateOrder(id, {status: "printed"})` for the undefined `db.updateOrderStatus`. The handler as written throws on that call, changes nothing and sends no notice; the model does not capture that no-op.
- NotificationsView.MarkAllAsRead: requires the store's distinct-id invariant, which every store operation preserves. On a table with duplicate ids the screen would mark only the first notice with each id.
- NotificationsView.DeleteNotification: the exact "all others stay in order" result is stated when the store's distinct-id invariant holds; without it the contract states the filter by id.
- The login screen, the session context and routing are not modelled. The same goes for the static demo screens and the product, representative and customer forms, which only forward a record to a store operation modelled here.
