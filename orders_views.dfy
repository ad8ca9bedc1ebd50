/** The order views of orders/views.py: checkout turns the iterated cart
    into one order and one line per cart item and then clears the cart; the
    staff view overwrites an order's status; the customer's view finds only
    the customer's own orders. The database is two tables and a key counter. */
module OrderViews {
  import opened Wrappers
  import opened TyreModels
  import opened CartModels
  import opened OrderModels
  import opened OrderForms

  /** The order and order-line tables. Keys are handed out in increasing
      order, starting at 1. */
  class Database {
    var orders: seq<Order>
    var items: seq<OrderItem>
    var nextId: int

    constructor ()
      ensures orders == [] && items == [] && nextId == 1
      ensures Valid()
    {
      orders := [];
      items := [];
      nextId := 1;
    }

    /** Every stored order, and every line's order, has a key below the next one. */
    ghost predicate Valid()
      reads this
    {
      && (forall o :: o in orders ==> o.id < nextId)
      && (forall it :: it in items ==> it.order < nextId)
    }

    /** order.save() of a new order: it is stored under the next key. */
    method InsertOrder(o: Order) returns (saved: Order)
      requires Valid()
      modifies this
      ensures Valid()
      ensures saved == o.(id := old(nextId))
      ensures orders == old(orders) + [saved] && items == old(items) && nextId == old(nextId) + 1
    {
      saved := o.(id := nextId);
      orders := orders + [saved];
      nextId := nextId + 1;
    }

    /** OrderItem.objects.create(): the line is stored as given; clean() is
        not called on this path. */
    method InsertItem(it: OrderItem)
      requires Valid() && it.order < nextId
      modifies this
      ensures Valid()
      ensures items == old(items) + [it] && orders == old(orders) && nextId == old(nextId)
    {
      items := items + [it];
    }
  }

  // ---------------------------------------------------------------------
  // order_create

  datatype CreateOutcome =
    | EmptyCart                  // redirected back to the cart
    | FormShown                  // a GET, or a POST whose form has errors
    | Created(orderId: int)      // redirected to the new order
    | MissingProduct(orderId: int)  // item['tyre'] raised KeyError part-way

  /** form.save(commit=False) with the user set: an order with the default status. */
  function OrderFromForm(f: OrderForm, id: int, user: int): (r: Order)
    ensures r.id == id && r.user == user && r.status == DefaultStatus
    ensures r.phone == f.phone && r.address == f.address && r.email == f.email
    ensures r.firstName == f.firstName && r.lastName == f.lastName && r.postalCode == f.postalCode
    ensures r.city == f.city && r.note == f.note
  {
    NewOrder(id, user, f.firstName, f.lastName, f.email, f.phone, f.address, f.postalCode, f.city, f.note)
  }

  /** The line created from one iterated cart item. */
  function LineItem(orderId: int, l: Line): OrderItem
    requires l.tyre.Some?
  {
    OrderItem(orderId, Some(l.tyre.value.id), None, l.price, l.quantity)
  }

  /** The lines the creation loop stores: one per item, up to the first item
      that carries no product. */
  function ItemsFor(orderId: int, lines: seq<Line>): (r: seq<OrderItem>)
    ensures |r| <= |lines|
    ensures forall i :: 0 <= i < |r| ==> lines[i].tyre.Some? && r[i] == LineItem(orderId, lines[i])
    ensures |r| < |lines| ==> lines[|r|].tyre.None?
  {
    if lines == [] || lines[0].tyre.None? then []
    else [LineItem(orderId, lines[0])] + ItemsFor(orderId, lines[1..])
  }

  predicate AllHaveProducts(lines: seq<Line>) {
    forall i :: 0 <= i < |lines| ==> lines[i].tyre.Some?
  }

  /** What order_create decides for the cart c, the submitted form and the
      key the new order would get. */
  function CreateOutcomeOf(c: CartData, catalogue: map<int, TyreVariant>, post: Option<OrderForm>, emailValid: bool, nextId: int): CreateOutcome
    requires WellFormed(c)
  {
    if TotalQuantity(c) == 0 then EmptyCart
    else if post.None? || !IsValid(post.value, emailValid) then FormShown
    else if AllHaveProducts(Items(Refresh(c, catalogue))) then Created(nextId)
    else MissingProduct(nextId)
  }

  /** order_create for the logged-in user. post is the submitted form, or
      None for a GET; whether the email is well formed is the framework
      validator's answer. */
  method OrderCreate(db: Database, session: Session, catalogue: map<int, TyreVariant>, user: int,
                     post: Option<OrderForm>, emailValid: bool) returns (outcome: CreateOutcome)
    requires db.Valid()
    requires session.cart.Some? ==> WellFormed(session.cart.value)
    modifies db, session
    ensures db.Valid()
    ensures var c := StartingCart(old(session.cart));
            && outcome == CreateOutcomeOf(c, catalogue, post, emailValid, old(db.nextId))
            && (outcome.EmptyCart? || outcome.FormShown? ==>
                  && db.orders == old(db.orders) && db.items == old(db.items) && db.nextId == old(db.nextId)
                  && session.cart == Some(c))
            && (outcome.Created? || outcome.MissingProduct? ==>
                  && post.Some?
                  && db.orders == old(db.orders) + [OrderFromForm(post.value, outcome.orderId, user)]
                  && db.items == old(db.items) + ItemsFor(outcome.orderId, Items(Refresh(c, catalogue)))
                  && db.nextId == outcome.orderId + 1)
            && (outcome.Created? ==> session.cart == None)
            && (outcome.MissingProduct? ==> session.cart == Some(Refresh(c, catalogue)))
  {
    var cart := new Cart(session);
    ghost var c := cart.data;
    var n := cart.Len();
    if n == 0 {
      return EmptyCart;
    }
    if post.None? || !IsValid(post.value, emailValid) {
      return FormShown;
    }
    outcome := PlaceOrder(db, cart, catalogue, user, post.value);
  }

  /** The valid-form branch of order_create: the order is stored, then a line
      per iterated cart item, then the cart is cleared. */
  method PlaceOrder(db: Database, cart: Cart, catalogue: map<int, TyreVariant>, user: int, form: OrderForm)
      returns (outcome: CreateOutcome)
    requires db.Valid() && cart.Valid() && cart.session.cart.Some?
    modifies db, cart, cart.session
    ensures db.Valid()
    ensures outcome == if AllHaveProducts(Items(Refresh(old(cart.data), catalogue))) then Created(old(db.nextId)) else MissingProduct(old(db.nextId))
    ensures db.orders == old(db.orders) + [OrderFromForm(form, old(db.nextId), user)]
    ensures db.items == old(db.items) + ItemsFor(old(db.nextId), Items(Refresh(old(cart.data), catalogue)))
    ensures db.nextId == old(db.nextId) + 1
    ensures outcome.Created? ==> cart.session.cart == None
    ensures outcome.MissingProduct? ==> cart.session.cart == Some(Refresh(old(cart.data), catalogue))
  {
    var order := db.InsertOrder(OrderFromForm(form, 0, user));
    var id := order.id;
    var items := cart.Iterate(catalogue);
    var made := CreateItems(db, id, items);
    if made < |items| {
      return MissingProduct(id);
    }
    var _ := cart.Clear();
    outcome := Created(id);
  }

  /** The loop over the iterated cart: a line per item, until an item
      without a product raises. Returns how many lines were stored. */
  method CreateItems(db: Database, id: int, items: seq<Line>) returns (i: nat)
    requires db.Valid() && id < db.nextId
    modifies db
    ensures db.Valid()
    ensures db.orders == old(db.orders) && db.nextId == old(db.nextId)
    ensures db.items == old(db.items) + ItemsFor(id, items)
    ensures i == |ItemsFor(id, items)|
    ensures i < |items| <==> !AllHaveProducts(items)
  {
    ghost var items0 := db.items;
    i := 0;
    while i < |items| && items[i].tyre.Some?
      invariant i <= |items|
      invariant forall j :: 0 <= j < i ==> items[j].tyre.Some?
      invariant db.Valid() && db.nextId == old(db.nextId) && db.orders == old(db.orders)
      invariant |db.items| == |items0| + i && db.items[..|items0|] == items0
      invariant forall j :: 0 <= j < i ==> db.items[|items0| + j] == LineItem(id, items[j])
    {
      db.InsertItem(LineItem(id, items[i]));
      i := i + 1;
    }
    ghost var made := ItemsFor(id, items);
    assert |made| == i;
    assert db.items == items0 + made;
  }

  /** A line per cart line, and the lines cost together what the cart did
      after iteration refreshed its prices. */
  lemma CreatedOrderTotal(oldItems: seq<OrderItem>, c: CartData, catalogue: map<int, TyreVariant>, id: int)
    requires WellFormed(c)
    requires forall it :: it in oldItems ==> it.order < id
    requires AllHaveProducts(Items(Refresh(c, catalogue)))
    ensures |ItemsFor(id, Items(Refresh(c, catalogue)))| == |c.keys|
    ensures GetTotalCost(oldItems + ItemsFor(id, Items(Refresh(c, catalogue))), id) == TotalPrice(Refresh(c, catalogue))
  {
    var r := Refresh(c, catalogue);
    StoredLinesTotal(oldItems, Items(r), id);
    SumOfLines(r.keys, r.lines, Cost);
  }

  /** The lines stored for a new order cost, together, what the items they
      were made from do. */
  lemma StoredLinesTotal(oldItems: seq<OrderItem>, lines: seq<Line>, id: int)
    requires forall it :: it in oldItems ==> it.order < id
    requires AllHaveProducts(lines)
    ensures |ItemsFor(id, lines)| == |lines|
    ensures GetTotalCost(oldItems + ItemsFor(id, lines), id) == SumLines(lines, Cost)
  {
    var made := ItemsFor(id, lines);
    TotalCostAppend(oldItems, made, id);
    TotalCostBounds(oldItems, id);
    CostsOfItems(id, lines);
    ItemsOfOwn(made, id);
  }

  /** Lines that all belong to the order are all of its lines. */
  lemma {:induction false} ItemsOfOwn(items: seq<OrderItem>, orderId: int)
    requires forall it :: it in items ==> it.order == orderId
    ensures ItemsOf(items, orderId) == items
  {
    if items != [] {
      assert forall it :: it in items[1..] ==> it in items;
      ItemsOfOwn(items[1..], orderId);
    }
  }

  /** Each created line costs what its cart item does. */
  lemma {:induction false} CostsOfItems(id: int, lines: seq<Line>)
    requires AllHaveProducts(lines)
    ensures SumCosts(ItemsFor(id, lines)) == SumLines(lines, Cost)
    ensures forall it :: it in ItemsFor(id, lines) ==> it.order == id
  {
    if lines != [] {
      CostsOfItems(id, lines[1..]);
    }
  }

  /** When every product in the cart still exists, checkout creates the order
      with one line per cart line, each with the line's quantity and the
      product's current price. */
  lemma CreatedWhenProductsExist(c: CartData, catalogue: map<int, TyreVariant>, id: int)
    requires WellFormed(c)
    requires forall k :: k in c.lines ==> Lookup(catalogue, k).Some?
    ensures AllHaveProducts(Items(Refresh(c, catalogue)))
    ensures var made := ItemsFor(id, Items(Refresh(c, catalogue)));
            && |made| == |c.keys|
            && forall j :: 0 <= j < |made| ==>
                 var v := Lookup(catalogue, c.keys[j]).value;
                 made[j] == OrderItem(id, Some(v.id), None, v.price, c.lines[c.keys[j]].quantity)
  {
    var r := Refresh(c, catalogue);
    forall j | 0 <= j < |c.keys|
      ensures Items(r)[j].tyre == Lookup(catalogue, c.keys[j])
      ensures Items(r)[j].price == Lookup(catalogue, c.keys[j]).value.price
      ensures Items(r)[j].quantity == c.lines[c.keys[j]].quantity
    {
      RefreshEffect(c, catalogue, c.keys[j]);
    }
  }

  /** A cart whose line m is the first one whose variant has left the
      catalogue (its stored line carries no product, as every line add()
      stores does): a valid submission ends in MissingProduct, which keeps
      the cart; StoredBeforeMissing gives the lines stored by then. */
  lemma FirstMissingProduct(c: CartData, catalogue: map<int, TyreVariant>, id: int, m: nat,
                            form: OrderForm, emailValid: bool)
    requires WellFormed(c) && m < |c.keys|
    requires forall j :: 0 <= j < m ==> Lookup(catalogue, c.keys[j]).Some?
    requires Lookup(catalogue, c.keys[m]).None? && c.lines[c.keys[m]].tyre.None?
    ensures !AllHaveProducts(Items(Refresh(c, catalogue)))
    ensures TotalQuantity(c) > 0 && IsValid(form, emailValid) ==>
              CreateOutcomeOf(c, catalogue, Some(form), emailValid, id) == MissingProduct(id)
  {
    StoredBeforeMissing(c, catalogue, id, m);
  }

  /** With line m the first whose variant has left the catalogue, checkout
      stores exactly the m lines before it, each with its variant, that
      variant's current price and the cart quantity. */
  lemma StoredBeforeMissing(c: CartData, catalogue: map<int, TyreVariant>, id: int, m: nat)
    requires WellFormed(c) && m < |c.keys|
    requires forall j :: 0 <= j < m ==> Lookup(catalogue, c.keys[j]).Some?
    requires Lookup(catalogue, c.keys[m]).None? && c.lines[c.keys[m]].tyre.None?
    ensures !AllHaveProducts(Items(Refresh(c, catalogue)))
    ensures var made := ItemsFor(id, Items(Refresh(c, catalogue)));
            && |made| == m
            && forall j :: 0 <= j < m ==>
                 var v := Lookup(catalogue, c.keys[j]).value;
                 made[j] == OrderItem(id, Some(v.id), None, v.price, c.lines[c.keys[j]].quantity)
  {
    var items := Items(Refresh(c, catalogue));
    RefreshedPrefix(c, catalogue, m);
    ItemsForStopsAt(id, items, m);
  }

  /** The items up to line m after iteration: the first m carry their
      variant, line m carries none. */
  lemma RefreshedPrefix(c: CartData, catalogue: map<int, TyreVariant>, m: nat)
    requires WellFormed(c) && m < |c.keys|
    requires forall j :: 0 <= j < m ==> Lookup(catalogue, c.keys[j]).Some?
    requires Lookup(catalogue, c.keys[m]).None? && c.lines[c.keys[m]].tyre.None?
    ensures var items := Items(Refresh(c, catalogue));
            && items[m].tyre.None?
            && forall j :: 0 <= j < m ==>
                 && items[j].tyre == Lookup(catalogue, c.keys[j])
                 && items[j].price == Lookup(catalogue, c.keys[j]).value.price
                 && items[j].quantity == c.lines[c.keys[j]].quantity
  {
    var items := Items(Refresh(c, catalogue));
    forall j | 0 <= j <= m
      ensures j < m ==> items[j].tyre == Lookup(catalogue, c.keys[j])
      ensures j < m ==> items[j].price == Lookup(catalogue, c.keys[j]).value.price
      ensures j < m ==> items[j].quantity == c.lines[c.keys[j]].quantity
      ensures j == m ==> items[j].tyre.None?
    {
      RefreshEffect(c, catalogue, c.keys[j]);
    }
  }

  /** The creation loop stops exactly at the first item without a product. */
  lemma ItemsForStopsAt(id: int, lines: seq<Line>, m: nat)
    requires m < |lines| && lines[m].tyre.None?
    requires forall j :: 0 <= j < m ==> lines[j].tyre.Some?
    ensures !AllHaveProducts(lines)
    ensures |ItemsFor(id, lines)| == m
  {
    var made := ItemsFor(id, lines);
    if |made| > m {
      assert false;
    }
  }

  /** A one-line cart whose product has been deleted since it was added:
      the order is stored without lines. */
  lemma DeletedProductOrder()
    ensures var c := CartData(["7"], map["7" := Line(2, 500000, None, None)]);
            var catalogue: map<int, TyreVariant> := map[];
            && WellFormed(c) && TotalQuantity(c) == 2
            && !AllHaveProducts(Items(Refresh(c, catalogue)))
            && ItemsFor(5, Items(Refresh(c, catalogue))) == []
  {
    var c := CartData(["7"], map["7" := Line(2, 500000, None, None)]);
    var catalogue: map<int, TyreVariant> := map[];
    assert Lookup(catalogue, "7") == None;
    assert Items(Refresh(c, catalogue))[0].tyre == None;
  }

  /** Storing the new order's lines leaves every other order's total as it was. */
  lemma OtherTotalsUnchanged(oldItems: seq<OrderItem>, lines: seq<Line>, id: int, other: int)
    requires other != id
    ensures GetTotalCost(oldItems + ItemsFor(id, lines), other) == GetTotalCost(oldItems, other)
  {
    TotalCostAppend(oldItems, ItemsFor(id, lines), other);
  }

  // ---------------------------------------------------------------------
  // admin_order_detail

  /** The status after the staff form: the submitted value when it is
      non-empty, the current one otherwise. The value is not checked against
      the listed statuses. */
  function NextStatus(current: string, submitted: Option<string>): (r: string)
    ensures r == current || (submitted.Some? && r == submitted.value)
    ensures r != current <==> submitted.Some? && |submitted.value| > 0 && submitted.value != current
  {
    if submitted.Some? && |submitted.value| > 0 && submitted.value != current then submitted.value else current
  }

  /** Submitting the same status twice changes nothing the second time, and
      an empty submission keeps the status. */
  lemma NextStatusSettles(current: string, submitted: Option<string>)
    ensures NextStatus(NextStatus(current, submitted), submitted) == NextStatus(current, submitted)
    ensures submitted.Some? && |submitted.value| > 0 ==> NextStatus(current, submitted) == submitted.value
    ensures submitted.None? || |submitted.value| == 0 ==> NextStatus(current, submitted) == current
  {
  }

  /** A status outside the listed choices is stored all the same. */
  lemma UnlistedStatusStored()
    ensures "lost" !in ChoiceValues(StatusChoices)
    ensures NextStatus(DefaultStatus, Some("lost")) == "lost"
  {
    var vs := ChoiceValues(StatusChoices);
    assert vs == ["new", "processing", "shipped", "delivered", "cancelled"];
  }

  /** The position of the order with the given key. */
  function IndexOfId(orders: seq<Order>, id: int): (r: Option<nat>)
    ensures r.Some? ==> r.value < |orders| && orders[r.value].id == id
    ensures r.Some? ==> forall j :: 0 <= j < r.value ==> orders[j].id != id
    ensures r.None? <==> forall j :: 0 <= j < |orders| ==> orders[j].id != id
  {
    if orders == [] then None
    else if orders[0].id == id then Some(0)
    else match IndexOfId(orders[1..], id)
      case None => None
      case Some(j) => Some(j + 1)
  }

  /** admin_order_detail: found is false for a 404; saved tells whether the
      order was written back. */
  method AdminOrderDetail(db: Database, orderId: int, isPost: bool, submitted: Option<string>)
      returns (found: bool, saved: bool)
    requires db.Valid()
    modifies db
    ensures db.Valid()
    ensures found <==> IndexOfId(old(db.orders), orderId).Some?
    ensures db.items == old(db.items) && db.nextId == old(db.nextId)
    ensures !saved ==> db.orders == old(db.orders)
    ensures saved <==> found && isPost && var o := old(db.orders)[IndexOfId(old(db.orders), orderId).value];
                       NextStatus(o.status, submitted) != o.status
    ensures saved ==> var j := IndexOfId(old(db.orders), orderId).value;
                      var o := old(db.orders)[j];
                      db.orders == old(db.orders)[j := o.(status := NextStatus(o.status, submitted))]
  {
    var index := IndexOfId(db.orders, orderId);
    if index.None? {
      return false, false;
    }
    found := true;
    var o := db.orders[index.value];
    saved := false;
    if isPost && submitted.Some? && |submitted.value| > 0 && submitted.value != o.status {
      db.orders := db.orders[index.value := o.(status := submitted.value)];
      assert forall p :: p in db.orders ==> p in old(db.orders) || p.id == orderId;
      saved := true;
    }
  }

  // ---------------------------------------------------------------------
  // order_detail

  /** request.user.orders.get(id=order_id): the user's order with that key,
      or None where the lookup raises. */
  function OrderDetail(orders: seq<Order>, user: int, id: int): (r: Option<Order>)
    ensures r.Some? ==> r.value in orders && r.value.id == id && r.value.user == user
    ensures r.None? <==> forall o :: o in orders ==> o.id != id || o.user != user
  {
    if orders == [] then None
    else if orders[0].id == id && orders[0].user == user then Some(orders[0])
    else
      assert forall o :: o in orders <==> o == orders[0] || o in orders[1..];
      OrderDetail(orders[1..], user, id)
  }

  /** The order checkout has just stored is found by its owner and by no one
      else. */
  lemma {:induction false} NewOrderVisibleToOwnerOnly(db: seq<Order>, o: Order, other: int)
    requires forall p :: p in db ==> p.id < o.id
    requires other != o.user
    ensures OrderDetail(db + [o], o.user, o.id) == Some(o)
    ensures OrderDetail(db + [o], other, o.id) == None
  {
    if db != [] {
      assert (db + [o])[1..] == db[1..] + [o];
      assert forall p :: p in db[1..] ==> p in db;
      NewOrderVisibleToOwnerOnly(db[1..], o, other);
    } else {
      assert (db + [o])[1..] == [];
    }
  }
}
