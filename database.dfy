/**
 * The browser-side store of the sales application: seven tables (users,
 * product groups, products, customers, orders, order items, notifications),
 * each a list that every operation loads, changes and writes back.
 */
module Database {
  import opened Wrappers
  import opened Tables

  datatype Role = Admin | SalesRep
  datatype AdminPermission = Full | OrdersOnly
  datatype OrderStatus = Draft | Pending | Printed | Completed | Deleted
  datatype NotificationType = OrderSubmitted | OrderPrinted

  /** Optional fields of the stored records are `Option`s; `created_at` is an abstract timestamp. */
  datatype User = User(
    id: Id, username: string, password: string, fullName: string, role: Role,
    phone: Option<string>, email: Option<string>,
    securityQuestion: Option<string>, securityAnswer: Option<string>,
    isActive: bool, adminPermission: Option<AdminPermission>, createdAt: int)

  datatype ProductGroup = ProductGroup(
    id: Id, name: string, description: Option<string>, image: Option<string>, createdAt: int)

  /** Prices are integers in the program's own unit (dinars); fractions are not modelled. */
  datatype Product = Product(
    id: Id, groupId: Id, name: string, code: string, price: int, unit: string, createdAt: int)

  datatype Customer = Customer(
    id: Id, salesRepId: Id, name: string, phone: Option<string>, address: Option<string>, createdAt: int)

  datatype Order = Order(
    id: Id, salesRepId: Id, customerId: Id, customerName: string, status: OrderStatus, total: int,
    notes: Option<string>, textOrder: Option<string>, images: Option<seq<string>>, createdAt: int)

  datatype OrderItem = OrderItem(
    id: Id, orderId: Id, productId: Id, productName: string, quantity: int, price: int, createdAt: int)

  datatype Notification = Notification(
    id: Id, userId: Id, message: string, kind: NotificationType, isRead: bool,
    relatedOrderId: Option<Id>, createdAt: int)

  // Keys the tables are searched and filtered by.
  function UserKey(u: User): Id { u.id }
  function GroupKey(g: ProductGroup): Id { g.id }
  function ProductKey(p: Product): Id { p.id }
  function ProductGroupRef(p: Product): Id { p.groupId }
  function CustomerKey(c: Customer): Id { c.id }
  function OrderKey(o: Order): Id { o.id }
  function ItemKey(i: OrderItem): Id { i.id }
  function ItemOrderRef(i: OrderItem): Id { i.orderId }
  function NotificationKey(n: Notification): Id { n.id }

  /** One field of a partial update (`Partial<T>`): left as it is, or overwritten. */
  datatype Patch<T> = Keep | Set(value: T) {
    function Over(current: T): T { if Set? then value else current }
  }

  datatype UserPatch = UserPatch(
    username: Patch<string>, password: Patch<string>, fullName: Patch<string>, role: Patch<Role>,
    phone: Patch<Option<string>>, email: Patch<Option<string>>,
    securityQuestion: Patch<Option<string>>, securityAnswer: Patch<Option<string>>,
    isActive: Patch<bool>, adminPermission: Patch<Option<AdminPermission>>)

  datatype GroupPatch = GroupPatch(
    name: Patch<string>, description: Patch<Option<string>>, image: Patch<Option<string>>)

  datatype ProductPatch = ProductPatch(
    groupId: Patch<Id>, name: Patch<string>, code: Patch<string>, price: Patch<int>, unit: Patch<string>)

  datatype CustomerPatch = CustomerPatch(
    salesRepId: Patch<Id>, name: Patch<string>, phone: Patch<Option<string>>, address: Patch<Option<string>>)

  datatype OrderPatch = OrderPatch(
    salesRepId: Patch<Id>, customerId: Patch<Id>, customerName: Patch<string>, status: Patch<OrderStatus>,
    total: Patch<int>, notes: Patch<Option<string>>, textOrder: Patch<Option<string>>,
    images: Patch<Option<seq<string>>>)

  /** The update `{ status }` that every status transition writes. */
  function StatusPatch(s: OrderStatus): OrderPatch
  {
    OrderPatch(Keep, Keep, Keep, Set(s), Keep, Keep, Keep, Keep)
  }

  // `{ ...record, ...updates }`: every field the update carries wins.
  function MergeUser(u: User, p: UserPatch): User
  {
    u.(username := p.username.Over(u.username), password := p.password.Over(u.password),
       fullName := p.fullName.Over(u.fullName), role := p.role.Over(u.role),
       phone := p.phone.Over(u.phone), email := p.email.Over(u.email),
       securityQuestion := p.securityQuestion.Over(u.securityQuestion),
       securityAnswer := p.securityAnswer.Over(u.securityAnswer),
       isActive := p.isActive.Over(u.isActive), adminPermission := p.adminPermission.Over(u.adminPermission))
  }

  function MergeGroup(g: ProductGroup, p: GroupPatch): ProductGroup
  {
    g.(name := p.name.Over(g.name), description := p.description.Over(g.description),
       image := p.image.Over(g.image))
  }

  function MergeProduct(x: Product, p: ProductPatch): Product
  {
    x.(groupId := p.groupId.Over(x.groupId), name := p.name.Over(x.name), code := p.code.Over(x.code),
       price := p.price.Over(x.price), unit := p.unit.Over(x.unit))
  }

  function MergeCustomer(c: Customer, p: CustomerPatch): Customer
  {
    c.(salesRepId := p.salesRepId.Over(c.salesRepId), name := p.name.Over(c.name),
       phone := p.phone.Over(c.phone), address := p.address.Over(c.address))
  }

  function MergeOrder(o: Order, p: OrderPatch): Order
  {
    o.(salesRepId := p.salesRepId.Over(o.salesRepId), customerId := p.customerId.Over(o.customerId),
       customerName := p.customerName.Over(o.customerName), status := p.status.Over(o.status),
       total := p.total.Over(o.total), notes := p.notes.Over(o.notes),
       textOrder := p.textOrder.Over(o.textOrder), images := p.images.Over(o.images))
  }

  /** A status update changes the status and nothing else. */
  lemma MergeStatusOnly(o: Order, s: OrderStatus)
    ensures MergeOrder(o, StatusPatch(s)) == o.(status := s)
  {
  }

  /** One row of the seeded catalogue: the index of its group among the four seeded groups. */
  datatype SeedProduct = SeedProduct(group: nat, name: string, code: string, price: int)

  const SeedUnit: string := "علبة"

  const SeedGroupNames: seq<string> := ["مجموعة 1", "مجموعة 2", "مجموعة 3", "مجموعة 4"]

  const SeedGroupDescriptions: seq<string> :=
    ["مجموعة المنتجات الأولى", "مجموعة المنتجات الثانية", "مجموعة المنتجات الثالثة", "مجموعة المنتجات الرابعة"]

  const SeedCatalogue: seq<SeedProduct> := [
    SeedProduct(0, "منتج 1-1", "P1-1", 100), SeedProduct(0, "منتج 1-2", "P1-2", 150),
    SeedProduct(0, "منتج 1-3", "P1-3", 200),
    SeedProduct(1, "منتج 2-1", "P2-1", 120), SeedProduct(1, "منتج 2-2", "P2-2", 180),
    SeedProduct(2, "منتج 3-1", "P3-1", 90), SeedProduct(2, "منتج 3-2", "P3-2", 110),
    SeedProduct(2, "منتج 3-3", "P3-3", 130),
    SeedProduct(3, "منتج 4-1", "P4-1", 250), SeedProduct(3, "منتج 4-2", "P4-2", 300),
    SeedProduct(3, "منتج 4-3", "P4-3", 350)]

  /** The fields the seeding passes for a default group (id and timestamp are the store's). */
  function SeedGroup(k: nat): ProductGroup
    requires k < 4
  {
    ProductGroup("", SeedGroupNames[k], Some(SeedGroupDescriptions[k]), None, 0)
  }

  /** The fields the seeding passes for a catalogue row placed in group `gid`. */
  function SeedFields(s: SeedProduct, gid: Id): Product
  {
    Product("", gid, s.name, s.code, s.price, SeedUnit, 0)
  }

  /** The default administrator the seeding creates in an empty user table. */
  const DefaultAdmin: User := User(
    "", "admin", "admin", "المدير العام", Admin, Some(""), Some("admin@company.com"),
    Some("ما هو اسم شركتك؟"), Some("الترياق"), true, Some(Full), 0)

  class LocalDatabase {
    var users: seq<User>
    var groups: seq<ProductGroup>
    var products: seq<Product>
    var customers: seq<Customer>
    var orders: seq<Order>
    var items: seq<OrderItem>
    var notifications: seq<Notification>

    /** Every table holds at most one record per id: ids come only from `generateId`. */
    ghost predicate Valid()
      reads this
    {
      DistinctKeys(users, UserKey) && DistinctKeys(groups, GroupKey) &&
      DistinctKeys(products, ProductKey) && DistinctKeys(customers, CustomerKey) &&
      DistinctKeys(orders, OrderKey) && DistinctKeys(items, ItemKey) &&
      DistinctKeys(notifications, NotificationKey)
    }

    /** A store over empty storage. */
    constructor ()
      ensures Valid()
      ensures users == [] && groups == [] && products == [] && customers == []
      ensures orders == [] && items == [] && notifications == []
    {
      users, groups, products, customers := [], [], [], [];
      orders, items, notifications := [], [], [];
    }

    // ----- users -----

    method AddUser(fields: User, now: int) returns (created: User)
      modifies this`users
      ensures created == fields.(id := created.id, createdAt := now)
      ensures created.id !in Keys(old(users), UserKey)
      ensures users == old(users) + [created]
      ensures old(Valid()) ==> Valid()
    {
      created := fields.(id := FreshKey(users, UserKey), createdAt := now);
      if Valid() { AppendFreshDistinct(users, UserKey, created); }
      users := users + [created];
    }

    method UpdateUser(id: Id, updates: UserPatch) returns (r: Option<User>)
      modifies this`users
      ensures r.None? <==> id !in Keys(old(users), UserKey)
      ensures r.None? ==> users == old(users)
      ensures r.Some? ==> var i := FindIndex(old(users), UserKey, id).value;
        r.value == MergeUser(old(users)[i], updates) && users == old(users)[i := r.value]
      ensures old(Valid()) ==> Valid()
    {
      var index := FindIndex(users, UserKey, id);
      if index.None? { return None; }
      var merged := MergeUser(users[index.value], updates);
      if Valid() { ReplaceSameKeyDistinct(users, UserKey, index.value, merged); }
      users := users[index.value := merged];
      r := Some(merged);
    }

    method DeleteUser(id: Id) returns (deleted: bool)
      modifies this`users
      ensures deleted <==> id in Keys(old(users), UserKey)
      ensures id !in Keys(users, UserKey)
      ensures users == WithoutKey(old(users), UserKey, id)
      ensures old(Valid()) ==> Valid()
    {
      var filtered := WithoutKey(users, UserKey, id);
      WithoutKeyLength(users, UserKey, id);
      if |filtered| == |users| { return false; }
      if Valid() { WithoutKeyDistinct(users, UserKey, UserKey, id); }
      users := filtered;
      return true;
    }

    /** The first active user whose username and password both match. */
    function Login(username: string, password: string): (r: Option<User>)
      reads this
      ensures r.Some? ==> r.value in users
      ensures r.Some? ==> r.value.username == username && r.value.password == password && r.value.isActive
      ensures r.None? <==>
        forall u :: u in users ==> !(u.username == username && u.password == password && u.isActive)
      ensures r.Some? ==> exists i :: (0 <= i < |users| && users[i] == r.value &&
        forall j :: 0 <= j < i ==> !(users[j].username == username && users[j].password == password && users[j].isActive))
    {
      match FindFirst(users, (u: User) => u.username == username && u.password == password && u.isActive)
      case None => None
      case Some(i) => Some(users[i])
    }

    // ----- product groups -----

    method AddProductGroup(fields: ProductGroup, now: int) returns (created: ProductGroup)
      modifies this`groups
      ensures created == fields.(id := created.id, createdAt := now)
      ensures created.id !in Keys(old(groups), GroupKey)
      ensures groups == old(groups) + [created]
      ensures old(Valid()) ==> Valid()
    {
      created := fields.(id := FreshKey(groups, GroupKey), createdAt := now);
      if Valid() { AppendFreshDistinct(groups, GroupKey, created); }
      groups := groups + [created];
    }

    method UpdateProductGroup(id: Id, updates: GroupPatch) returns (r: Option<ProductGroup>)
      modifies this`groups
      ensures r.None? <==> id !in Keys(old(groups), GroupKey)
      ensures r.None? ==> groups == old(groups)
      ensures r.Some? ==> var i := FindIndex(old(groups), GroupKey, id).value;
        r.value == MergeGroup(old(groups)[i], updates) && groups == old(groups)[i := r.value]
      ensures old(Valid()) ==> Valid()
    {
      var index := FindIndex(groups, GroupKey, id);
      if index.None? { return None; }
      var merged := MergeGroup(groups[index.value], updates);
      if Valid() { ReplaceSameKeyDistinct(groups, GroupKey, index.value, merged); }
      groups := groups[index.value := merged];
      r := Some(merged);
    }

    /** Deleting a group also deletes exactly the products filed under it. */
    method DeleteProductGroup(id: Id) returns (deleted: bool)
      modifies this`groups, this`products
      ensures deleted <==> id in Keys(old(groups), GroupKey)
      ensures id !in Keys(groups, GroupKey)
      ensures groups == WithoutKey(old(groups), GroupKey, id)
      ensures products == if deleted then WithoutKey(old(products), ProductGroupRef, id) else old(products)
      ensures old(Valid()) ==> Valid()
    {
      var filtered := WithoutKey(groups, GroupKey, id);
      WithoutKeyLength(groups, GroupKey, id);
      if |filtered| == |groups| { return false; }
      if Valid() {
        WithoutKeyDistinct(groups, GroupKey, GroupKey, id);
        WithoutKeyDistinct(products, ProductKey, ProductGroupRef, id);
      }
      products := WithoutKey(products, ProductGroupRef, id);
      groups := filtered;
      return true;
    }

    // ----- products -----

    method AddProduct(fields: Product, now: int) returns (created: Product)
      modifies this`products
      ensures created == fields.(id := created.id, createdAt := now)
      ensures created.id !in Keys(old(products), ProductKey)
      ensures products == old(products) + [created]
      ensures old(Valid()) ==> Valid()
    {
      created := fields.(id := FreshKey(products, ProductKey), createdAt := now);
      if Valid() { AppendFreshDistinct(products, ProductKey, created); }
      products := products + [created];
    }

    method UpdateProduct(id: Id, updates: ProductPatch) returns (r: Option<Product>)
      modifies this`products
      ensures r.None? <==> id !in Keys(old(products), ProductKey)
      ensures r.None? ==> products == old(products)
      ensures r.Some? ==> var i := FindIndex(old(products), ProductKey, id).value;
        r.value == MergeProduct(old(products)[i], updates) && products == old(products)[i := r.value]
      ensures old(Valid()) ==> Valid()
    {
      var index := FindIndex(products, ProductKey, id);
      if index.None? { return None; }
      var merged := MergeProduct(products[index.value], updates);
      if Valid() { ReplaceSameKeyDistinct(products, ProductKey, index.value, merged); }
      products := products[index.value := merged];
      r := Some(merged);
    }

    method DeleteProduct(id: Id) returns (deleted: bool)
      modifies this`products
      ensures deleted <==> id in Keys(old(products), ProductKey)
      ensures id !in Keys(products, ProductKey)
      ensures products == WithoutKey(old(products), ProductKey, id)
      ensures old(Valid()) ==> Valid()
    {
      var filtered := WithoutKey(products, ProductKey, id);
      WithoutKeyLength(products, ProductKey, id);
      if |filtered| == |products| { return false; }
      if Valid() { WithoutKeyDistinct(products, ProductKey, ProductKey, id); }
      products := filtered;
      return true;
    }

    // ----- customers -----

    method AddCustomer(fields: Customer, now: int) returns (created: Customer)
      modifies this`customers
      ensures created == fields.(id := created.id, createdAt := now)
      ensures created.id !in Keys(old(customers), CustomerKey)
      ensures customers == old(customers) + [created]
      ensures old(Valid()) ==> Valid()
    {
      created := fields.(id := FreshKey(customers, CustomerKey), createdAt := now);
      if Valid() { AppendFreshDistinct(customers, CustomerKey, created); }
      customers := customers + [created];
    }

    method UpdateCustomer(id: Id, updates: CustomerPatch) returns (r: Option<Customer>)
      modifies this`customers
      ensures r.None? <==> id !in Keys(old(customers), CustomerKey)
      ensures r.None? ==> customers == old(customers)
      ensures r.Some? ==> var i := FindIndex(old(customers), CustomerKey, id).value;
        r.value == MergeCustomer(old(customers)[i], updates) && customers == old(customers)[i := r.value]
      ensures old(Valid()) ==> Valid()
    {
      var index := FindIndex(customers, CustomerKey, id);
      if index.None? { return None; }
      var merged := MergeCustomer(customers[index.value], updates);
      if Valid() { ReplaceSameKeyDistinct(customers, CustomerKey, index.value, merged); }
      customers := customers[index.value := merged];
      r := Some(merged);
    }

    method DeleteCustomer(id: Id) returns (deleted: bool)
      modifies this`customers
      ensures deleted <==> id in Keys(old(customers), CustomerKey)
      ensures id !in Keys(customers, CustomerKey)
      ensures customers == WithoutKey(old(customers), CustomerKey, id)
      ensures old(Valid()) ==> Valid()
    {
      var filtered := WithoutKey(customers, CustomerKey, id);
      WithoutKeyLength(customers, CustomerKey, id);
      if |filtered| == |customers| { return false; }
      if Valid() { WithoutKeyDistinct(customers, CustomerKey, CustomerKey, id); }
      customers := filtered;
      return true;
    }

    // ----- orders -----

    method AddOrder(fields: Order, now: int) returns (created: Order)
      modifies this`orders
      ensures created == fields.(id := created.id, createdAt := now)
      ensures created.id !in Keys(old(orders), OrderKey)
      ensures orders == old(orders) + [created]
      ensures old(Valid()) ==> Valid()
    {
      created := fields.(id := FreshKey(orders, OrderKey), createdAt := now);
      if Valid() { AppendFreshDistinct(orders, OrderKey, created); }
      orders := orders + [created];
    }

    method UpdateOrder(id: Id, updates: OrderPatch) returns (r: Option<Order>)
      modifies this`orders
      ensures r.None? <==> id !in Keys(old(orders), OrderKey)
      ensures r.None? ==> orders == old(orders)
      ensures r.Some? ==> var i := FindIndex(old(orders), OrderKey, id).value;
        r.value == MergeOrder(old(orders)[i], updates) && orders == old(orders)[i := r.value]
      ensures old(Valid()) ==> Valid()
    {
      var index := FindIndex(orders, OrderKey, id);
      if index.None? { return None; }
      var merged := MergeOrder(orders[index.value], updates);
      if Valid() { ReplaceSameKeyDistinct(orders, OrderKey, index.value, merged); }
      orders := orders[index.value := merged];
      r := Some(merged);
    }

    /** Deleting an order also deletes exactly its items. */
    method DeleteOrder(id: Id) returns (deleted: bool)
      modifies this`orders, this`items
      ensures deleted <==> id in Keys(old(orders), OrderKey)
      ensures id !in Keys(orders, OrderKey)
      ensures orders == WithoutKey(old(orders), OrderKey, id)
      ensures items == if deleted then WithoutKey(old(items), ItemOrderRef, id) else old(items)
      ensures old(Valid()) ==> Valid()
    {
      var filtered := WithoutKey(orders, OrderKey, id);
      WithoutKeyLength(orders, OrderKey, id);
      if |filtered| == |orders| { return false; }
      if Valid() {
        WithoutKeyDistinct(orders, OrderKey, OrderKey, id);
        WithoutKeyDistinct(items, ItemKey, ItemOrderRef, id);
      }
      items := WithoutKey(items, ItemOrderRef, id);
      orders := filtered;
      return true;
    }

    // ----- order items -----

    method AddOrderItem(fields: OrderItem, now: int) returns (created: OrderItem)
      modifies this`items
      ensures created == fields.(id := created.id, createdAt := now)
      ensures created.id !in Keys(old(items), ItemKey)
      ensures items == old(items) + [created]
      ensures old(Valid()) ==> Valid()
    {
      created := fields.(id := FreshKey(items, ItemKey), createdAt := now);
      if Valid() { AppendFreshDistinct(items, ItemKey, created); }
      items := items + [created];
    }

    // ----- notifications -----

    method AddNotification(fields: Notification, now: int) returns (created: Notification)
      modifies this`notifications
      ensures created == fields.(id := created.id, createdAt := now)
      ensures created.id !in Keys(old(notifications), NotificationKey)
      ensures notifications == old(notifications) + [created]
      ensures old(Valid()) ==> Valid()
    {
      created := fields.(id := FreshKey(notifications, NotificationKey), createdAt := now);
      if Valid() { AppendFreshDistinct(notifications, NotificationKey, created); }
      notifications := notifications + [created];
    }

    /** Sets `is_read` on the first notification with this id; every other field and record stays. */
    method MarkNotificationAsRead(id: Id) returns (r: Option<Notification>)
      modifies this`notifications
      ensures r.None? <==> id !in Keys(old(notifications), NotificationKey)
      ensures r.None? ==> notifications == old(notifications)
      ensures r.Some? ==> var i := FindIndex(old(notifications), NotificationKey, id).value;
        r.value == old(notifications)[i].(isRead := true) && notifications == old(notifications)[i := r.value]
      ensures r.Some? && old(notifications)[FindIndex(old(notifications), NotificationKey, id).value].isRead ==>
        notifications == old(notifications)
      ensures old(Valid()) ==> Valid()
    {
      var index := FindIndex(notifications, NotificationKey, id);
      if index.None? { return None; }
      var marked := notifications[index.value].(isRead := true);
      if Valid() { ReplaceSameKeyDistinct(notifications, NotificationKey, index.value, marked); }
      notifications := notifications[index.value := marked];
      r := Some(marked);
    }

    method DeleteNotification(id: Id) returns (deleted: bool)
      modifies this`notifications
      ensures deleted <==> id in Keys(old(notifications), NotificationKey)
      ensures id !in Keys(notifications, NotificationKey)
      ensures notifications == WithoutKey(old(notifications), NotificationKey, id)
      ensures old(Valid()) ==> Valid()
    {
      var filtered := WithoutKey(notifications, NotificationKey, id);
      WithoutKeyLength(notifications, NotificationKey, id);
      if |filtered| == |notifications| { return false; }
      if Valid() { WithoutKeyDistinct(notifications, NotificationKey, NotificationKey, id); }
      notifications := filtered;
      return true;
    }

    /** Overwrites the whole notification table. */
    method SaveNotifications(all: seq<Notification>)
      modifies this`notifications
      ensures notifications == all
      ensures old(Valid()) && DistinctKeys(all, NotificationKey) ==> Valid()
    {
      notifications := all;
    }

    /** Overwrites the whole order table. */
    method SaveOrders(all: seq<Order>)
      modifies this`orders
      ensures orders == all
      ensures old(Valid()) && DistinctKeys(all, OrderKey) ==> Valid()
    {
      orders := all;
    }

    // ----- soft delete -----

    method MoveOrderToTrash(id: Id) returns (moved: bool)
      modifies this`orders
      ensures moved <==> id in Keys(old(orders), OrderKey)
      ensures !moved ==> orders == old(orders)
      ensures moved ==> var i := FindIndex(old(orders), OrderKey, id).value;
        orders == old(orders)[i := old(orders)[i].(status := Deleted)]
      ensures old(Valid()) ==> Valid()
    {
      var r := UpdateOrder(id, StatusPatch(Deleted));
      moved := r.Some?;
    }

    /** Restoring always yields `pending`, whatever the status was before the order went to the trash. */
    method RestoreOrder(id: Id) returns (restored: bool)
      modifies this`orders
      ensures restored <==> id in Keys(old(orders), OrderKey)
      ensures !restored ==> orders == old(orders)
      ensures restored ==> var i := FindIndex(old(orders), OrderKey, id).value;
        orders == old(orders)[i := old(orders)[i].(status := Pending)]
      ensures old(Valid()) ==> Valid()
    {
      var r := UpdateOrder(id, StatusPatch(Pending));
      restored := r.Some?;
    }

    method PermanentDeleteOrder(id: Id) returns (deleted: bool)
      modifies this`orders, this`items
      ensures deleted <==> id in Keys(old(orders), OrderKey)
      ensures id !in Keys(orders, OrderKey)
      ensures orders == WithoutKey(old(orders), OrderKey, id)
      ensures items == if deleted then WithoutKey(old(items), ItemOrderRef, id) else old(items)
      ensures old(Valid()) ==> Valid()
    {
      deleted := DeleteOrder(id);
    }

    /**
     * A repeated delete of the same order, by either delete operation, finds
     * nothing: it returns false and changes nothing.
     */
    method DeleteOrderTwice(id: Id, secondPermanent: bool) returns (first: bool, second: bool)
      modifies this`orders, this`items
      ensures first <==> id in Keys(old(orders), OrderKey)
      ensures !second
      ensures orders == WithoutKey(old(orders), OrderKey, id)
      ensures items == if first then WithoutKey(old(items), ItemOrderRef, id) else old(items)
    {
      first := DeleteOrder(id);
      ghost var between := orders;
      if secondPermanent {
        second := PermanentDeleteOrder(id);
      } else {
        second := DeleteOrder(id);
      }
      WithoutKeyLength(between, OrderKey, id);
    }

    // ----- seeding and wiping -----

    /**
     * Seeds an empty user table with the default administrator, and an empty
     * group table with four groups and their eleven catalogue products.
     */
    method InitializeDefaultData(now: int)
      modifies this`users, this`groups, this`products
      ensures old(users) != [] ==> users == old(users)
      ensures old(users) == [] ==> |users| == 1 && users[0] == DefaultAdmin.(id := users[0].id, createdAt := now)
      ensures old(users) == [] ==> Login("admin", "admin") == Some(users[0])
      ensures old(groups) != [] ==> groups == old(groups) && products == old(products)
      ensures old(groups) == [] ==> (|groups| == 4 &&
        forall k :: 0 <= k < 4 ==> groups[k] == SeedGroup(k).(id := groups[k].id, createdAt := now))
      ensures old(groups) == [] ==> (|products| == |old(products)| + |SeedCatalogue| &&
        products[..|old(products)|] == old(products) &&
        forall k :: 0 <= k < |SeedCatalogue| ==>
          var p := products[|old(products)| + k];
          p == SeedFields(SeedCatalogue[k], groups[SeedCatalogue[k].group].id).(id := p.id, createdAt := now))
      ensures old(Valid()) ==> Valid()
    {
      if |users| == 0 {
        var _ := AddUser(DefaultAdmin, now);
      }
      if |groups| == 0 {
        var gids := AddSeedGroups(now);
        AddSeedProducts(gids, now);
      }
    }

    /** Adds the four default groups; `gids` are their new ids, in order. */
    method AddSeedGroups(now: int) returns (gids: seq<Id>)
      modifies this`groups
      ensures |groups| == |old(groups)| + 4 && groups[..|old(groups)|] == old(groups)
      ensures |gids| == 4
      ensures forall k :: 0 <= k < 4 ==>
        var g := groups[|old(groups)| + k]; g.id == gids[k] && g == SeedGroup(k).(id := g.id, createdAt := now)
      ensures old(Valid()) ==> Valid()
    {
      var g1 := AddProductGroup(SeedGroup(0), now);
      var g2 := AddProductGroup(SeedGroup(1), now);
      var g3 := AddProductGroup(SeedGroup(2), now);
      var g4 := AddProductGroup(SeedGroup(3), now);
      gids := [g1.id, g2.id, g3.id, g4.id];
      assert groups == old(groups) + [g1, g2, g3, g4];
    }

    /** Adds the eleven catalogue products in catalogue order, each filed under its seeded group. */
    method AddSeedProducts(gids: seq<Id>, now: int)
      requires |gids| == 4
      modifies this`products
      ensures |products| == |old(products)| + |SeedCatalogue|
      ensures products[..|old(products)|] == old(products)
      ensures forall k :: 0 <= k < |SeedCatalogue| ==>
        var p := products[|old(products)| + k];
        p == SeedFields(SeedCatalogue[k], gids[SeedCatalogue[k].group]).(id := p.id, createdAt := now)
      ensures old(Valid()) ==> Valid()
    {
      ghost var before := products;
      for k := 0 to |SeedCatalogue|
        invariant |products| == |before| + k
        invariant products[..|before|] == before
        invariant forall j :: 0 <= j < k ==>
          var p := products[|before| + j];
          p == SeedFields(SeedCatalogue[j], gids[SeedCatalogue[j].group]).(id := p.id, createdAt := now)
        invariant old(Valid()) ==> Valid()
      {
        var _ := AddProduct(SeedFields(SeedCatalogue[k], gids[SeedCatalogue[k].group]), now);
      }
    }

    /** Removes every table. */
    method ClearAllData()
      modifies this`users, this`groups, this`products, this`customers, this`orders, this`items, this`notifications
      ensures users == [] && groups == [] && products == [] && customers == []
      ensures orders == [] && items == [] && notifications == []
      ensures Valid()
    {
      users, groups, products, customers := [], [], [], [];
      orders, items, notifications := [], [], [];
    }
  }
}
