/** Orders and their lines, after orders/models.py: an order's status
    starts at "new", a line costs its price times its quantity, an order
    costs the sum of its lines, and a line names exactly one of a tyre or a
    rim. Prices are whole kopecks. */
module OrderModels {
  import opened Wrappers
  import opened TyreModels

  const StatusChoices: seq<(string, string)> := [
    ("new", "Новый"),
    ("processing", "В обработке"),
    ("shipped", "Отправлен"),
    ("delivered", "Доставлен"),
    ("cancelled", "Отменен")
  ]

  const DefaultStatus := "new"

  datatype Order = Order(
    id: int,
    user: int,
    firstName: string,
    lastName: string,
    email: string,
    phone: string,
    address: string,
    postalCode: string,
    city: string,
    status: string,
    note: string)

  /** A line of an order. Each of tyre and rim is a variant id or empty. */
  datatype OrderItem = OrderItem(order: int, tyre: Option<int>, rim: Option<int>, price: int, quantity: int)

  /** The default of the quantity field, and what the field (a positive
      integer field, which admits zero) accepts. */
  const DefaultItemQuantity := 1

  predicate ValidItemQuantity(quantity: int) {
    quantity >= 0
  }

  /** A new order as saved from the checkout form: the status field takes
      its default, which is one of the listed statuses. */
  function NewOrder(id: int, user: int, firstName: string, lastName: string, email: string, phone: string,
                    address: string, postalCode: string, city: string, note: string): (r: Order)
    ensures r.status == DefaultStatus && r.status in ChoiceValues(StatusChoices)
    ensures r.id == id && r.user == user
    ensures r.firstName == firstName && r.lastName == lastName && r.email == email && r.phone == phone
    ensures r.address == address && r.postalCode == postalCode && r.city == city && r.note == note
  {
    assert ChoiceValues(StatusChoices)[0] == "new";
    Order(id, user, firstName, lastName, email, phone, address, postalCode, city, DefaultStatus, note)
  }

  /** A line created without a quantity gets the default one, which the field accepts. */
  function NewItem(order: int, tyre: Option<int>, rim: Option<int>, price: int): (r: OrderItem)
    ensures r.quantity == DefaultItemQuantity && ValidItemQuantity(r.quantity)
    ensures r.order == order && r.tyre == tyre && r.rim == rim && r.price == price
  {
    OrderItem(order, tyre, rim, price, DefaultItemQuantity)
  }

  /** get_cost(). */
  function GetCost(item: OrderItem): (r: int)
    ensures item.price >= 0 && item.quantity >= 1 ==> r >= item.price
    ensures item.quantity == 0 ==> r == 0
  {
    item.price * item.quantity
  }

  /** The lines of the given order, in the order they were created. */
  function ItemsOf(items: seq<OrderItem>, orderId: int): (r: seq<OrderItem>)
    ensures forall it :: it in r <==> it in items && it.order == orderId
    ensures |r| <= |items|
  {
    if items == [] then []
    else
      var rest := ItemsOf(items[1..], orderId);
      assert forall it :: it in items <==> it == items[0] || it in items[1..];
      if items[0].order == orderId then [items[0]] + rest else rest
  }

  function SumCosts(items: seq<OrderItem>): int {
    if items == [] then 0 else GetCost(items[0]) + SumCosts(items[1..])
  }

  /** get_total_cost(): the sum of the costs of the order's own lines. */
  function GetTotalCost(items: seq<OrderItem>, orderId: int): (r: int)
    ensures (forall it :: it in items ==> it.order != orderId) ==> r == 0
  {
    var own := ItemsOf(items, orderId);
    assert own != [] ==> own[0] in items && own[0].order == orderId;
    SumCosts(own)
  }

  lemma {:induction false} ItemsOfAppend(a: seq<OrderItem>, b: seq<OrderItem>, orderId: int)
    ensures ItemsOf(a + b, orderId) == ItemsOf(a, orderId) + ItemsOf(b, orderId)
  {
    if a == [] {
      assert a + b == b;
    } else {
      assert (a + b)[0] == a[0] && (a + b)[1..] == a[1..] + b;
      ItemsOfAppend(a[1..], b, orderId);
    }
  }

  lemma {:induction false} SumCostsAppend(a: seq<OrderItem>, b: seq<OrderItem>)
    ensures SumCosts(a + b) == SumCosts(a) + SumCosts(b)
  {
    if a == [] {
      assert a + b == b;
    } else {
      assert (a + b)[0] == a[0] && (a + b)[1..] == a[1..] + b;
      SumCostsAppend(a[1..], b);
    }
  }

  /** Lines added to the table add their costs to their order's total and
      leave every other order's total as it was. */
  lemma TotalCostAppend(items: seq<OrderItem>, added: seq<OrderItem>, orderId: int)
    ensures GetTotalCost(items + added, orderId) == GetTotalCost(items, orderId) + GetTotalCost(added, orderId)
    ensures (forall it :: it in added ==> it.order != orderId) ==> GetTotalCost(items + added, orderId) == GetTotalCost(items, orderId)
  {
    ItemsOfAppend(items, added, orderId);
    SumCostsAppend(ItemsOf(items, orderId), ItemsOf(added, orderId));
    if forall it :: it in added ==> it.order != orderId {
      assert ItemsOf(added, orderId) == [];
    }
  }

  /** An order without lines costs nothing, and lines with non-negative
      prices and quantities never cost less than nothing. */
  lemma {:induction false} TotalCostBounds(items: seq<OrderItem>, orderId: int)
    ensures (forall it :: it in items ==> it.order != orderId) ==> GetTotalCost(items, orderId) == 0
    ensures (forall it :: it in items ==> it.price >= 0 && it.quantity >= 0) ==> GetTotalCost(items, orderId) >= 0
  {
    if items != [] {
      TotalCostBounds(items[1..], orderId);
      assert forall it :: it in items[1..] ==> it in items;
      if items[0].order == orderId && items[0].price >= 0 && items[0].quantity >= 0 {
        assert GetCost(items[0]) >= 0;
      }
    }
  }

  /** clean(): a line must name a tyre or a rim, and not both. */
  function Clean(item: OrderItem): (r: Result<OrderItem, string>)
    ensures r.Success? <==> (item.tyre.Some? != item.rim.Some?)
    ensures r.Success? ==> r.value == item
    ensures item.tyre.None? && item.rim.None? ==> r == Failure(NeitherError)
    ensures item.tyre.Some? && item.rim.Some? ==> r == Failure(BothError)
  {
    if item.tyre.None? && item.rim.None? then Failure(NeitherError)
    else if item.tyre.Some? && item.rim.Some? then Failure(BothError)
    else Success(item)
  }

  const NeitherError := "Необходимо указать либо шину, либо диск"
  const BothError := "Нельзя указать и шину, и диск одновременно"
}
