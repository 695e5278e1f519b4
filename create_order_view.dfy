/**
 * The sales representative's order form: a cart of product lines, free text
 * and attached images, saved as a draft or sent to the managers.
 */
module CreateOrderView {
  import opened Wrappers
  import opened Tables
  import opened Database

  // ----- the cart -----

  /** One cart line; `totalPrice` is kept equal to `unitPrice * quantity`. */
  datatype CartLine = CartLine(productId: Id, productName: string, quantity: int, unitPrice: int, totalPrice: int)

  function LineProduct(l: CartLine): Id { l.productId }
  function LineTotal(l: CartLine): int { l.totalPrice }

  /** Every line has a positive quantity and a consistent total, and no product has two lines. */
  predicate WellFormedCart(cart: seq<CartLine>)
  {
    (forall i :: 0 <= i < |cart| ==> cart[i].quantity >= 1 && cart[i].totalPrice == cart[i].unitPrice * cart[i].quantity) &&
    DistinctKeys(cart, LineProduct)
  }

  /** The order total: the sum of the line totals. */
  function CartTotal(cart: seq<CartLine>): int
  {
    Sum(cart, LineTotal)
  }

  /** `parseInt` of the quantity field gave a number of at least one. */
  predicate ValidQuantity(q: Option<int>)
  {
    q.Some? && q.value >= 1
  }

  /** Adds `q` to the quantity of every line of product `pid`, recomputing its total. */
  function AddToLines(cart: seq<CartLine>, pid: Id, q: int): (r: seq<CartLine>)
    ensures |r| == |cart|
    ensures forall i :: 0 <= i < |cart| ==> r[i] == if cart[i].productId == pid
      then cart[i].(quantity := cart[i].quantity + q, totalPrice := cart[i].unitPrice * (cart[i].quantity + q))
      else cart[i]
  {
    if |cart| == 0 then []
    else
      var l := cart[0];
      var head := if l.productId == pid
        then l.(quantity := l.quantity + q, totalPrice := l.unitPrice * (l.quantity + q)) else l;
      [head] + AddToLines(cart[1..], pid, q)
  }

  /**
   * Adds the selected product with the typed quantity: nothing happens without a
   * selection or with a quantity that is not a number of at least one; a product
   * already in the cart has its line's quantity raised; a new product gets a new
   * line at the end, priced at the product's current price.
   */
  function ConfirmAddProduct(cart: seq<CartLine>, selected: Option<Product>, qty: Option<int>): (r: seq<CartLine>)
    ensures selected.None? || !ValidQuantity(qty) ==> r == cart
    ensures selected.Some? && ValidQuantity(qty) && selected.value.id in Keys(cart, LineProduct) ==>
      r == AddToLines(cart, selected.value.id, qty.value)
    ensures selected.Some? && ValidQuantity(qty) && selected.value.id !in Keys(cart, LineProduct) ==>
      var p := selected.value;
      r == cart + [CartLine(p.id, p.name, qty.value, p.price, p.price * qty.value)]
  {
    if selected.None? || !ValidQuantity(qty) then cart
    else
      var p, q := selected.value, qty.value;
      if FindIndex(cart, LineProduct, p.id).Some? then AddToLines(cart, p.id, q)
      else cart + [CartLine(p.id, p.name, q, p.price, p.price * q)]
  }

  /** Sets the quantity (and total) of every line of product `pid`. */
  function SetLineQuantity(cart: seq<CartLine>, pid: Id, q: int): (r: seq<CartLine>)
    ensures |r| == |cart|
    ensures forall i :: 0 <= i < |cart| ==> r[i] == if cart[i].productId == pid
      then cart[i].(quantity := q, totalPrice := cart[i].unitPrice * q)
      else cart[i]
  {
    if |cart| == 0 then []
    else
      var l := cart[0];
      var head := if l.productId == pid then l.(quantity := q, totalPrice := l.unitPrice * q) else l;
      [head] + SetLineQuantity(cart[1..], pid, q)
  }

  /** Editing a line's quantity: ignored unless the new value is a number of at least one. */
  function HandleQuantityChange(cart: seq<CartLine>, pid: Id, value: Option<int>): (r: seq<CartLine>)
    ensures !ValidQuantity(value) ==> r == cart
    ensures ValidQuantity(value) ==> r == SetLineQuantity(cart, pid, value.value)
  {
    if !ValidQuantity(value) then cart else SetLineQuantity(cart, pid, value.value)
  }

  /** Removes the lines of product `pid`, keeping the others in order. */
  function RemoveItem(cart: seq<CartLine>, pid: Id): (r: seq<CartLine>)
    ensures forall i :: 0 <= i < |r| ==> r[i] in cart && r[i].productId != pid
    ensures forall i :: 0 <= i < |cart| && cart[i].productId != pid ==> cart[i] in r
    ensures pid !in Keys(cart, LineProduct) ==> r == cart
    ensures DistinctKeys(cart, LineProduct) ==>
      forall i :: 0 <= i < |cart| && cart[i].productId == pid ==> r == cart[..i] + cart[i + 1..]
  {
    if pid !in Keys(cart, LineProduct) then
      WithoutKeyLength(cart, LineProduct, pid);
      WithoutKey(cart, LineProduct, pid)
    else
      var r := WithoutKey(cart, LineProduct, pid);
      assert DistinctKeys(cart, LineProduct) ==>
        forall i :: 0 <= i < |cart| && cart[i].productId == pid ==> r == cart[..i] + cart[i + 1..] by {
        if DistinctKeys(cart, LineProduct) {
          forall i | 0 <= i < |cart| && cart[i].productId == pid ensures r == cart[..i] + cart[i + 1..] {
            WithoutUniqueKey(cart, LineProduct, i);
          }
        }
      }
      r
  }

  /** On a cart with one line per product, updating "every line of `pid`" updates exactly the line at index `i`. */
  lemma OnlyLineOf(cart: seq<CartLine>, pid: Id, i: nat)
    requires DistinctKeys(cart, LineProduct)
    requires i < |cart| && cart[i].productId == pid
    ensures forall j :: 0 <= j < |cart| && j != i ==> cart[j].productId != pid
  {
  }

  /** Raising the quantity of the line at `i` by `q` changes only that line. */
  lemma AddToExistingLine(cart: seq<CartLine>, i: nat, q: int)
    requires WellFormedCart(cart) && i < |cart| && q >= 1
    ensures var l := cart[i];
      AddToLines(cart, l.productId, q) == cart[i := l.(quantity := l.quantity + q, totalPrice := l.unitPrice * (l.quantity + q))]
    ensures WellFormedCart(AddToLines(cart, cart[i].productId, q))
    ensures Keys(AddToLines(cart, cart[i].productId, q), LineProduct) == Keys(cart, LineProduct)
    ensures CartTotal(AddToLines(cart, cart[i].productId, q)) == CartTotal(cart) + cart[i].unitPrice * q
  {
    var l := cart[i];
    var updated := l.(quantity := l.quantity + q, totalPrice := l.unitPrice * (l.quantity + q));
    var r := AddToLines(cart, l.productId, q);
    OnlyLineOf(cart, l.productId, i);
    assert r == cart[i := updated];
    SumUpdate(cart, i, updated, LineTotal);
    assert l.unitPrice * (l.quantity + q) == l.unitPrice * l.quantity + l.unitPrice * q;
    KeysReplaceSameKey(cart, LineProduct, i, updated);
    ReplaceSameKeyDistinct(cart, LineProduct, i, updated);
    forall j | 0 <= j < |r| ensures r[j].quantity >= 1 && r[j].totalPrice == r[j].unitPrice * r[j].quantity {
    }
  }

  /** Appending the line of a product not yet in the cart. */
  lemma AppendNewLine(cart: seq<CartLine>, line: CartLine)
    requires WellFormedCart(cart) && line.productId !in Keys(cart, LineProduct)
    requires line.quantity >= 1 && line.totalPrice == line.unitPrice * line.quantity
    ensures WellFormedCart(cart + [line])
    ensures Keys(cart + [line], LineProduct) == Keys(cart, LineProduct) + {line.productId}
    ensures CartTotal(cart + [line]) == CartTotal(cart) + line.totalPrice
  {
    AppendFreshDistinct(cart, LineProduct, line);
    KeysAppend(cart, LineProduct, line);
    SumAppend(cart, [line], LineTotal);
    assert Sum([line], LineTotal) == line.totalPrice;
    var r := cart + [line];
    forall j | 0 <= j < |r| ensures r[j].quantity >= 1 && r[j].totalPrice == r[j].unitPrice * r[j].quantity {
      if j < |cart| { assert r[j] == cart[j]; }
    }
  }

  /**
   * Adding a product keeps the cart well formed (one line per product, consistent
   * line totals), and raises the order total by the line's unit price times the
   * added quantity.
   */
  lemma ConfirmAddProductInvariant(cart: seq<CartLine>, selected: Option<Product>, qty: Option<int>)
    requires WellFormedCart(cart)
    ensures WellFormedCart(ConfirmAddProduct(cart, selected, qty))
    ensures Keys(ConfirmAddProduct(cart, selected, qty), LineProduct) ==
      if selected.Some? && ValidQuantity(qty) then Keys(cart, LineProduct) + {selected.value.id}
      else Keys(cart, LineProduct)
    ensures selected.Some? && ValidQuantity(qty) ==>
      var pid := selected.value.id;
      var i := FindIndex(cart, LineProduct, pid);
      CartTotal(ConfirmAddProduct(cart, selected, qty)) ==
        CartTotal(cart) + (if i.Some? then cart[i.value].unitPrice else selected.value.price) * qty.value
  {
    if selected.Some? && ValidQuantity(qty) {
      var p, q := selected.value, qty.value;
      match FindIndex(cart, LineProduct, p.id)
      case Some(i) =>
        AddToExistingLine(cart, i, q);
      case None =>
        AppendNewLine(cart, CartLine(p.id, p.name, q, p.price, p.price * q));
    }
  }

  /** Setting the quantity of the line at `i` changes only that line. */
  lemma SetExistingLine(cart: seq<CartLine>, i: nat, q: int)
    requires WellFormedCart(cart) && i < |cart| && q >= 1
    ensures var l := cart[i];
      SetLineQuantity(cart, l.productId, q) == cart[i := l.(quantity := q, totalPrice := l.unitPrice * q)]
    ensures WellFormedCart(SetLineQuantity(cart, cart[i].productId, q))
    ensures Keys(SetLineQuantity(cart, cart[i].productId, q), LineProduct) == Keys(cart, LineProduct)
    ensures CartTotal(SetLineQuantity(cart, cart[i].productId, q)) ==
      CartTotal(cart) - cart[i].totalPrice + cart[i].unitPrice * q
  {
    var l := cart[i];
    var updated := l.(quantity := q, totalPrice := l.unitPrice * q);
    var r := SetLineQuantity(cart, l.productId, q);
    OnlyLineOf(cart, l.productId, i);
    assert r == cart[i := updated];
    SumUpdate(cart, i, updated, LineTotal);
    KeysReplaceSameKey(cart, LineProduct, i, updated);
    ReplaceSameKeyDistinct(cart, LineProduct, i, updated);
    forall j | 0 <= j < |r| ensures r[j].quantity >= 1 && r[j].totalPrice == r[j].unitPrice * r[j].quantity {
    }
  }

  /** Setting the quantity of a product that has no line changes nothing. */
  lemma SetAbsentLine(cart: seq<CartLine>, pid: Id, q: int)
    requires pid !in Keys(cart, LineProduct)
    ensures SetLineQuantity(cart, pid, q) == cart
  {
    forall j | 0 <= j < |cart| ensures cart[j].productId != pid {
      assert cart[j] in cart;
    }
  }

  /**
   * Editing a quantity keeps the cart well formed and its set of products; a
   * valid edit of a listed product replaces that line's total by the unit price
   * times the new quantity, and anything else leaves the cart as it was.
   */
  lemma HandleQuantityChangeInvariant(cart: seq<CartLine>, pid: Id, value: Option<int>)
    requires WellFormedCart(cart)
    ensures WellFormedCart(HandleQuantityChange(cart, pid, value))
    ensures Keys(HandleQuantityChange(cart, pid, value), LineProduct) == Keys(cart, LineProduct)
    ensures !ValidQuantity(value) || pid !in Keys(cart, LineProduct) ==> HandleQuantityChange(cart, pid, value) == cart
    ensures ValidQuantity(value) && pid in Keys(cart, LineProduct) ==>
      var i := FindIndex(cart, LineProduct, pid).value;
      CartTotal(HandleQuantityChange(cart, pid, value)) ==
        CartTotal(cart) - cart[i].totalPrice + cart[i].unitPrice * value.value
  {
    if ValidQuantity(value) {
      match FindIndex(cart, LineProduct, pid)
      case Some(i) => SetExistingLine(cart, i, value.value);
      case None => SetAbsentLine(cart, pid, value.value);
    }
  }

  /** Removing a product keeps the cart well formed and takes exactly that product out of it. */
  lemma RemoveItemInvariant(cart: seq<CartLine>, pid: Id)
    requires WellFormedCart(cart)
    ensures WellFormedCart(RemoveItem(cart, pid))
    ensures Keys(RemoveItem(cart, pid), LineProduct) == Keys(cart, LineProduct) - {pid}
  {
    var r := RemoveItem(cart, pid);
    WithoutKeyDistinct(cart, LineProduct, LineProduct, pid);
    KeysWithout(cart, LineProduct, pid);
    forall j | 0 <= j < |r| ensures r[j].quantity >= 1 && r[j].totalPrice == r[j].unitPrice * r[j].quantity {
      var m :| 0 <= m < |cart| && cart[m] == r[j];
    }
  }

  /** Removing a product lowers the total by its line's total, and by nothing when it has no line. */
  lemma RemoveItemTotal(cart: seq<CartLine>, pid: Id)
    requires DistinctKeys(cart, LineProduct)
    ensures CartTotal(RemoveItem(cart, pid)) == CartTotal(cart) -
      match FindIndex(cart, LineProduct, pid) case Some(i) => cart[i].totalPrice case None => 0
  {
    match FindIndex(cart, LineProduct, pid)
    case Some(i) =>
      WithoutUniqueKey(cart, LineProduct, i);
      var a, b := cart[..i], cart[i + 1..];
      assert cart == a + ([cart[i]] + b);
      SumAppend(a, [cart[i]] + b, LineTotal);
      SumAppend([cart[i]], b, LineTotal);
      SumAppend(a, b, LineTotal);
    case None =>
      WithoutKeyLength(cart, LineProduct, pid);
  }

  // ----- free text -----

  /** The characters `String.prototype.trim` strips: ECMAScript white space and line terminators. */
  predicate IsBlank(c: char)
  {
    c == '\t' || c == '\n' || c == '\U{000B}' || c == '\U{000C}' || c == '\r' || c == ' ' ||
    c == '\U{00A0}' || c == '\U{1680}' || ('\U{2000}' <= c <= '\U{200A}') ||
    c == '\U{2028}' || c == '\U{2029}' || c == '\U{202F}' || c == '\U{205F}' ||
    c == '\U{3000}' || c == '\U{FEFF}'
  }

  predicate AllBlank(s: string)
  {
    forall i :: 0 <= i < |s| ==> IsBlank(s[i])
  }

  function LeadingBlanks(s: string): (n: nat)
    ensures n <= |s|
    ensures forall i :: 0 <= i < n ==> IsBlank(s[i])
    ensures n < |s| ==> !IsBlank(s[n])
  {
    if |s| == 0 || !IsBlank(s[0]) then 0 else 1 + LeadingBlanks(s[1..])
  }

  function TrailingBlanks(s: string): (n: nat)
    ensures n <= |s|
    ensures forall i :: |s| - n <= i < |s| ==> IsBlank(s[i])
    ensures n < |s| ==> !IsBlank(s[|s| - 1 - n])
  {
    if |s| == 0 || !IsBlank(s[|s| - 1]) then 0 else 1 + TrailingBlanks(s[..|s| - 1])
  }

  /** `String.prototype.trim`: the text without blanks at either end; empty exactly when the text is all blanks. */
  function Trim(s: string): (r: string)
    ensures r == "" <==> AllBlank(s)
    ensures |r| > 0 ==> !IsBlank(r[0]) && !IsBlank(r[|r| - 1])
    ensures exists a, b :: 0 <= a <= b <= |s| && r == s[a..b] && AllBlank(s[..a]) && AllBlank(s[b..])
  {
    var a := LeadingBlanks(s);
    var t := s[a..];
    var r := t[..|t| - TrailingBlanks(t)];
    assert |t| > 0 ==> t[0] == s[a];
    var b := a + |t| - TrailingBlanks(t);
    assert r == s[a..b] && AllBlank(s[..a]) && AllBlank(s[b..]);
    r
  }

  /** Text with no blank at either end is left as it is, so trimming twice is trimming once. */
  lemma TrimIdempotent(s: string)
    ensures |s| > 0 && !IsBlank(s[0]) && !IsBlank(s[|s| - 1]) ==> Trim(s) == s
    ensures Trim(Trim(s)) == Trim(s)
  {
    var t := Trim(s);
    if |t| > 0 {
      assert LeadingBlanks(t) == 0;
      assert t[0..] == t;
      assert TrailingBlanks(t) == 0;
      assert t[..|t|] == t;
    }
    if |s| > 0 && !IsBlank(s[0]) && !IsBlank(s[|s| - 1]) {
      assert LeadingBlanks(s) == 0;
      assert s[0..] == s;
      assert TrailingBlanks(s) == 0;
      assert s[..|s|] == s;
    }
  }

  // ----- saving and sending -----

  /** What the form holds: the chosen customer (`""` for none), the cart, the attached images and the free text. */
  datatype OrderForm = OrderForm(customerId: Id, cart: seq<CartLine>, images: seq<string>, text: string)

  /** The form after a successful save or send. */
  const EmptyForm := OrderForm("", [], [], "")

  datatype Refusal = NothingToSave | NothingToSend | CustomerRequired

  /** The outcome of saving or sending: refused with a reason, or the order that was created. */
  datatype Submission = Refused(reason: Refusal) | Created(order: Order)

  /** Saving a draft needs a customer, an image or some non-blank text; a cart alone is not enough. */
  function DraftRefusal(f: OrderForm): (r: Option<Refusal>)
    ensures r.Some? ==> r.value == NothingToSave
    ensures r.None? <==> f.customerId != "" || |f.images| > 0 || exists i :: 0 <= i < |f.text| && !IsBlank(f.text[i])
  {
    if f.customerId == "" && |f.images| == 0 && Trim(f.text) == "" then Some(NothingToSave) else None
  }

  /**
   * Sending needs a product line, an image or some non-blank text; product lines
   * also need a customer.
   */
  function SendRefusal(f: OrderForm): (r: Option<Refusal>)
    ensures r == Some(NothingToSend) <==> |f.cart| == 0 && |f.images| == 0 && AllBlank(f.text)
    ensures r == Some(CustomerRequired) <==> |f.cart| > 0 && f.customerId == ""
    ensures r.Some? ==> r.value != NothingToSave
  {
    if |f.cart| == 0 && |f.images| == 0 && Trim(f.text) == "" then Some(NothingToSend)
    else if |f.cart| > 0 && f.customerId == "" then Some(CustomerRequired)
    else None
  }

  /** Every form that may be sent may also be saved as a draft. */
  lemma SendableIsSaveable(f: OrderForm)
    ensures SendRefusal(f).None? ==> DraftRefusal(f).None?
  {
    if SendRefusal(f).None? && f.customerId == "" && |f.images| == 0 {
      assert |f.cart| == 0;
      assert !AllBlank(f.text);
      var i :| 0 <= i < |f.text| && !IsBlank(f.text[i]);
    }
  }

  /** The representative's own customers, the only ones the form offers. */
  function MyCustomers(all: seq<Customer>, repId: Id): (r: seq<Customer>)
    ensures forall i :: 0 <= i < |r| ==> r[i] in all && r[i].salesRepId == repId
    ensures forall i :: 0 <= i < |all| && all[i].salesRepId == repId ==> all[i] in r
  {
    Filter(all, (c: Customer) => c.salesRepId == repId)
  }

  /** The chosen customer: `find`'s first offered customer with the id. */
  function SelectedCustomer(customers: seq<Customer>, id: Id): (r: Option<Customer>)
    ensures r.Some? ==> r.value in customers && r.value.id == id
    ensures r.Some? ==> r.value == customers[FindIndex(customers, CustomerKey, id).value]
    ensures r.None? <==> id !in Keys(customers, CustomerKey)
  {
    match FindIndex(customers, CustomerKey, id)
    case Some(i) => Some(customers[i])
    case None => None
  }

  /** `customer?.name || fallback`: a missing customer or an empty name gives the fallback. */
  function NameOr(c: Option<Customer>, fallback: string): string
  {
    if c.Some? && c.value.name != "" then c.value.name else fallback
  }

  /** `textOrder.trim() || undefined`: the trimmed text, absent when it is blank. */
  function TextField(text: string): (r: Option<string>)
    ensures r.None? <==> AllBlank(text)
    ensures r.Some? ==> r.value == Trim(text) && |r.value| > 0
  {
    var t := Trim(text);
    if t == "" then None else Some(t)
  }

  /** The record a draft is saved as (id and timestamp are the store's). */
  function DraftOrder(rep: User, customer: Option<Customer>, f: OrderForm): Order
  {
    Order("", rep.id, f.customerId, NameOr(customer, ""), Draft, CartTotal(f.cart), None,
          TextField(f.text), Some(f.images), 0)
  }

  /** The record a sent order is saved as: `"none"` stands for a missing customer, and "طلبية" for a missing name. */
  function SentOrder(rep: User, customer: Option<Customer>, f: OrderForm): Order
  {
    Order("", rep.id, if f.customerId == "" then "none" else f.customerId, NameOr(customer, "طلبية"), Pending,
          CartTotal(f.cart), None, TextField(f.text), Some(f.images), 0)
  }

  /** The order item saved for a cart line; its price is the line's unit price. */
  function LineItem(orderId: Id, l: CartLine): OrderItem
  {
    OrderItem("", orderId, l.productId, l.productName, l.quantity, l.unitPrice, 0)
  }

  /** What an order item is worth. */
  function ItemAmount(i: OrderItem): int { i.quantity * i.price }

  /** `after` is `before` followed by one item per cart line, in cart order, each with a store-given id. */
  ghost predicate LinesAdded(before: seq<OrderItem>, after: seq<OrderItem>, orderId: Id, cart: seq<CartLine>, now: int)
  {
    |after| == |before| + |cart| && after[..|before|] == before &&
    forall j :: 0 <= j < |cart| ==>
      after[|before| + j] == LineItem(orderId, cart[j]).(id := after[|before| + j].id, createdAt := now)
  }

  /** The items saved for a well-formed cart are worth, together, the cart's total. */
  lemma {:induction false} LinesTotal(before: seq<OrderItem>, after: seq<OrderItem>, orderId: Id, cart: seq<CartLine>, now: int)
    requires WellFormedCart(cart)
    requires LinesAdded(before, after, orderId, cart, now)
    ensures Sum(after[|before|..], ItemAmount) == CartTotal(cart)
    decreases |cart|
  {
    if |cart| > 0 {
      var n := |before|;
      var tail := cart[1..];
      assert WellFormedCart(tail) by {
        forall j, k | 0 <= j < k < |tail| ensures tail[j].productId != tail[k].productId {
          assert tail[j] == cart[j + 1] && tail[k] == cart[k + 1];
        }
      }
      var mid := after[..n + 1];
      assert LinesAdded(mid, after, orderId, tail, now) by {
        forall j | 0 <= j < |tail|
          ensures after[n + 1 + j] == LineItem(orderId, tail[j]).(id := after[n + 1 + j].id, createdAt := now)
        {
          assert tail[j] == cart[j + 1];
        }
      }
      LinesTotal(mid, after, orderId, tail, now);
      assert after[n..] == [after[n]] + after[n + 1..];
      assert after[n] == LineItem(orderId, cart[0]).(id := after[n].id, createdAt := now);
    }
  }

  /** Saves one order item per cart line, in cart order. */
  method AddOrderLines(db: LocalDatabase, orderId: Id, cart: seq<CartLine>, now: int)
    modifies db`items
    ensures LinesAdded(old(db.items), db.items, orderId, cart, now)
    ensures old(db.Valid()) ==> db.Valid()
  {
    ghost var before := db.items;
    for k := 0 to |cart|
      invariant LinesAdded(before, db.items, orderId, cart[..k], now)
      invariant old(db.Valid()) ==> db.Valid()
    {
      var created := db.AddOrderItem(LineItem(orderId, cart[k]), now);
      assert cart[..k + 1][k] == cart[k];
      assert forall j :: 0 <= j < k ==> cart[..k + 1][j] == cart[..k][j];
    }
    assert cart[..|cart|] == cart;
  }

  predicate IsAdmin(u: User) { u.role == Admin }

  /** The managers: every user with the admin role, in table order. */
  function Admins(users: seq<User>): (r: seq<User>)
    ensures forall i :: 0 <= i < |r| ==> r[i] in users && r[i].role == Admin
    ensures forall i :: 0 <= i < |users| && users[i].role == Admin ==> users[i] in r
  {
    Filter(users, IsAdmin)
  }

  /** The notice a manager gets about a submitted order. */
  function SubmittedNotice(admin: User, message: string, orderId: Id): Notification
  {
    Notification("", admin.id, message, OrderSubmitted, false, Some(orderId), 0)
  }

  /** "New order from <sender>", naming the customer when it has a name. */
  function SubmittedMessage(sender: User, customer: Option<Customer>): string
  {
    "طلبية جديدة من " + (if sender.fullName != "" then sender.fullName else sender.username) +
    (if customer.Some? && customer.value.name != "" then " للعميل " + customer.value.name else "")
  }

  /** `after` is `before` followed by one notice per admin, in admin order, each with a store-given id. */
  ghost predicate NoticesAdded(before: seq<Notification>, after: seq<Notification>, admins: seq<User>,
                               message: string, orderId: Id, now: int)
  {
    |after| == |before| + |admins| && after[..|before|] == before &&
    forall j :: 0 <= j < |admins| ==>
      after[|before| + j] == SubmittedNotice(admins[j], message, orderId).(id := after[|before| + j].id, createdAt := now)
  }

  /** Some manager among `users` has the id the notice is addressed to. */
  predicate ToAnAdmin(users: seq<User>, n: Notification)
  {
    exists i :: 0 <= i < |users| && users[i].role == Admin && users[i].id == n.userId
  }

  /**
   * The fan-out reaches every manager with an unread notice about the order, and
   * nobody else.
   */
  lemma EveryAdminNotified(users: seq<User>, before: seq<Notification>, after: seq<Notification>,
                           message: string, orderId: Id, now: int)
    requires NoticesAdded(before, after, Admins(users), message, orderId, now)
    ensures forall i :: 0 <= i < |users| && users[i].role == Admin ==>
      exists j :: (|before| <= j < |after| && after[j].userId == users[i].id &&
        after[j].kind == OrderSubmitted && !after[j].isRead && after[j].relatedOrderId == Some(orderId))
    ensures forall j :: |before| <= j < |after| ==> ToAnAdmin(users, after[j])
  {
    forall i | 0 <= i < |users| && users[i].role == Admin
      ensures exists j :: (|before| <= j < |after| && after[j].userId == users[i].id &&
        after[j].kind == OrderSubmitted && !after[j].isRead && after[j].relatedOrderId == Some(orderId))
    {
      AdminGetsNotice(users, before, after, message, orderId, now, i);
    }
    forall j | |before| <= j < |after|
      ensures ToAnAdmin(users, after[j])
    {
      NoticeGoesToAdmin(users, before, after, message, orderId, now, j);
    }
  }

  /** The manager at `users[i]` is among the addressees of the fan-out. */
  lemma AdminGetsNotice(users: seq<User>, before: seq<Notification>, after: seq<Notification>,
                        message: string, orderId: Id, now: int, i: nat)
    requires NoticesAdded(before, after, Admins(users), message, orderId, now)
    requires i < |users| && users[i].role == Admin
    ensures exists j :: (|before| <= j < |after| && after[j].userId == users[i].id &&
      after[j].kind == OrderSubmitted && !after[j].isRead && after[j].relatedOrderId == Some(orderId))
  {
    var admins := Admins(users);
    assert users[i] in admins;
    var m :| 0 <= m < |admins| && admins[m] == users[i];
    var j := |before| + m;
    assert after[j] == SubmittedNotice(admins[m], message, orderId).(id := after[j].id, createdAt := now);
    assert after[j].userId == users[i].id;
  }

  /** The notice at `after[j]` is addressed to a manager. */
  lemma NoticeGoesToAdmin(users: seq<User>, before: seq<Notification>, after: seq<Notification>,
                          message: string, orderId: Id, now: int, j: nat)
    requires NoticesAdded(before, after, Admins(users), message, orderId, now)
    requires |before| <= j < |after|
    ensures ToAnAdmin(users, after[j])
  {
    var admins := Admins(users);
    var m := j - |before|;
    assert after[|before| + m] == SubmittedNotice(admins[m], message, orderId).(id := after[j].id, createdAt := now);
    var admin := admins[m];
    assert admin in users && admin.role == Admin;
    var i :| 0 <= i < |users| && users[i] == admin;
    assert users[i].id == after[j].userId;
  }

  /** Sends one unread "order submitted" notice per manager. */
  method NotifyAdmins(db: LocalDatabase, message: string, orderId: Id, now: int)
    modifies db`notifications
    ensures NoticesAdded(old(db.notifications), db.notifications, Admins(db.users), message, orderId, now)
    ensures old(db.Valid()) ==> db.Valid()
  {
    var admins := Admins(db.users);
    ghost var before := db.notifications;
    for k := 0 to |admins|
      invariant NoticesAdded(before, db.notifications, admins[..k], message, orderId, now)
      invariant old(db.Valid()) ==> db.Valid()
    {
      var created := db.AddNotification(SubmittedNotice(admins[k], message, orderId), now);
      assert admins[..k + 1][k] == admins[k];
      assert forall j :: 0 <= j < k ==> admins[..k + 1][j] == admins[..k][j];
    }
    assert admins[..|admins|] == admins;
  }

  /**
   * Saving a draft: refused (nothing changes, the form stays) unless the form has
   * a customer, an image or some text; otherwise a draft order and one item per
   * cart line are stored and the form is cleared. No one is notified.
   */
  method SaveDraft(db: LocalDatabase, rep: User, form: OrderForm, now: int) returns (r: Submission, next: OrderForm)
    modifies db`orders, db`items
    ensures DraftRefusal(form).Some? ==>
      r == Refused(NothingToSave) && next == form && db.orders == old(db.orders) && db.items == old(db.items)
    ensures DraftRefusal(form).None? ==>
      var customer := SelectedCustomer(MyCustomers(db.customers, rep.id), form.customerId);
      r.Created? && r.order == DraftOrder(rep, customer, form).(id := r.order.id, createdAt := now) &&
      r.order.id !in Keys(old(db.orders), OrderKey) && db.orders == old(db.orders) + [r.order] &&
      LinesAdded(old(db.items), db.items, r.order.id, form.cart, now) && next == EmptyForm
    ensures r.Created? && WellFormedCart(form.cart) ==> Sum(db.items[|old(db.items)|..], ItemAmount) == r.order.total
    ensures old(db.Valid()) ==> db.Valid()
  {
    if DraftRefusal(form).Some? {
      return Refused(NothingToSave), form;
    }
    var customer := SelectedCustomer(MyCustomers(db.customers, rep.id), form.customerId);
    var order := db.AddOrder(DraftOrder(rep, customer, form), now);
    AddOrderLines(db, order.id, form.cart, now);
    if WellFormedCart(form.cart) { LinesTotal(old(db.items), db.items, order.id, form.cart, now); }
    r, next := Created(order), EmptyForm;
  }

  /**
   * Sending to the managers: refused (nothing changes, the form stays) when there
   * is nothing to send or product lines lack a customer; otherwise a pending
   * order and its items are stored, every manager gets an unread notice about
   * it, and the form is cleared.
   */
  method SendToManager(db: LocalDatabase, sender: User, form: OrderForm, now: int) returns (r: Submission, next: OrderForm)
    modifies db`orders, db`items, db`notifications
    ensures SendRefusal(form).Some? ==>
      r == Refused(SendRefusal(form).value) && next == form && db.orders == old(db.orders) &&
      db.items == old(db.items) && db.notifications == old(db.notifications)
    ensures SendRefusal(form).None? ==>
      var customer := SelectedCustomer(MyCustomers(db.customers, sender.id), form.customerId);
      r.Created? && r.order == SentOrder(sender, customer, form).(id := r.order.id, createdAt := now) &&
      r.order.id !in Keys(old(db.orders), OrderKey) && db.orders == old(db.orders) + [r.order] &&
      LinesAdded(old(db.items), db.items, r.order.id, form.cart, now) &&
      NoticesAdded(old(db.notifications), db.notifications, Admins(db.users),
                   SubmittedMessage(sender, customer), r.order.id, now) &&
      next == EmptyForm
    ensures r.Created? && WellFormedCart(form.cart) ==> Sum(db.items[|old(db.items)|..], ItemAmount) == r.order.total
    ensures old(db.Valid()) ==> db.Valid()
  {
    var refusal := SendRefusal(form);
    if refusal.Some? {
      return Refused(refusal.value), form;
    }
    var customer := SelectedCustomer(MyCustomers(db.customers, sender.id), form.customerId);
    var order := db.AddOrder(SentOrder(sender, customer, form), now);
    if |form.cart| > 0 {
      AddOrderLines(db, order.id, form.cart, now);
    } else {
      assert db.items[..|db.items|] == db.items;
    }
    if WellFormedCart(form.cart) { LinesTotal(old(db.items), db.items, order.id, form.cart, now); }
    NotifyAdmins(db, SubmittedMessage(sender, customer), order.id, now);
    r, next := Created(order), EmptyForm;
  }
}
