/** The cart views of cart/views.py: the request's quantity text becomes a
    quantity of at least one, a request for more than the stock is refused,
    and otherwise the cart line is added to, overwritten or removed. */
module CartViews {
  import opened Wrappers
  import opened Text
  import opened TyreModels
  import opened CartModels

  /** int(quantity_str) on the stripped field, where anything unreadable or
      below one becomes 1. */
  function NormaliseQuantity(text: string): (q: int)
    ensures q >= 1
    ensures match ParseInt(Strip(text))
            case Some(n) => q == (if n >= 1 then n else 1)
            case None => q == 1
  {
    match ParseInt(Strip(text))
    case Some(n) => if n < 1 then 1 else n
    case None => 1
  }

  /** A number sent as the quantity field comes back as itself when it is
      at least one, and as 1 otherwise. */
  lemma NormaliseQuantityOfNumber(n: int)
    ensures NormaliseQuantity(IntToString(n)) == if n >= 1 then n else 1
  {
    var s := IntToString(n);
    var d := if n < 0 then NatToString(-n) else NatToString(n);
    assert s[|s| - 1] == d[|d| - 1];
    assert IsDigit(d[0]) && IsDigit(d[|d| - 1]);
    StripUnpadded(s);
    IntToStringParses(n);
  }

  /** update_quantity: overwrite when asked to or when more than one is sent. */
  function UpdateFlag(flag: Option<string>, quantity: int): (r: bool)
    ensures quantity > 1 ==> r
    ensures !r ==> flag != Some("true")
  {
    flag == Some("true") || quantity > 1
  }

  /** Only a single tyre sent without the flag is added on top of what the
      cart holds. */
  lemma AccumulatesOnlySingles(flag: Option<string>, quantity: int)
    requires quantity >= 1
    ensures !UpdateFlag(flag, quantity) <==> quantity == 1 && flag != Some("true")
  {
  }

  datatype Outcome = NotFound | OutOfStock(stock: int) | Added | Updated | Removed

  // ---------------------------------------------------------------------
  // What each view does to the cart it finds

  function AddOutcome(catalogue: map<int, TyreVariant>, tyreId: int, quantityText: Option<string>): (r: Outcome)
    ensures r == NotFound <==> tyreId !in catalogue
    ensures tyreId in catalogue ==> (r == Added <==> NormaliseQuantity(quantityText.GetOr("")) <= catalogue[tyreId].stock)
    ensures tyreId in catalogue && r != Added ==> r == OutOfStock(catalogue[tyreId].stock)
  {
    if tyreId !in catalogue then NotFound
    else if NormaliseQuantity(quantityText.GetOr("")) > catalogue[tyreId].stock then OutOfStock(catalogue[tyreId].stock)
    else Added
  }

  /** cart_add on the cart c. */
  function CartAddEffect(c: CartData, catalogue: map<int, TyreVariant>, tyreId: int, quantityText: Option<string>, flag: Option<string>): (r: CartData)
    requires WellFormed(c)
    ensures WellFormed(r)
    ensures AddOutcome(catalogue, tyreId, quantityText) != Added ==> r == c
  {
    if AddOutcome(catalogue, tyreId, quantityText) != Added then c
    else
      var q := NormaliseQuantity(quantityText.GetOr(""));
      AddLine(c, catalogue[tyreId], q, UpdateFlag(flag, q))
  }

  /** An accepted cart_add sets the line to the quantity sent when the flag is
      on or more than one is sent, and adds one to it otherwise. */
  lemma CartAddAccepted(c: CartData, catalogue: map<int, TyreVariant>, tyreId: int, quantityText: Option<string>, flag: Option<string>)
    requires WellFormed(c) && Keyed(catalogue)
    requires AddOutcome(catalogue, tyreId, quantityText) == Added
    ensures var q, key := NormaliseQuantity(quantityText.GetOr("")), IdKey(tyreId);
            var r := CartAddEffect(c, catalogue, tyreId, quantityText, flag);
            && 1 <= q <= catalogue[tyreId].stock
            && key in r.lines
            && r.lines[key].quantity == (if UpdateFlag(flag, q) then q else QuantityOf(c, key) + 1)
            && (key in c.lines ==> r.keys == c.keys && r.lines[key].price == c.lines[key].price)
            && (key !in c.lines ==> r.keys == c.keys + [key] && r.lines[key].price == catalogue[tyreId].price)
            && (forall k :: k != key ==> (k in r.lines <==> k in c.lines))
            && (forall k :: k != key && k in c.lines ==> r.lines[k] == c.lines[k])
  {
    var q := NormaliseQuantity(quantityText.GetOr(""));
    AddLineEffect(c, catalogue[tyreId], q, UpdateFlag(flag, q));
  }

  /** The stock gate compares only the quantity of this request with the
      stock: adding one tyre of a variant with one in stock to a cart that
      already holds it leaves two in the cart. */
  lemma StockGateIgnoresCart()
    ensures var m := TyreModel(1, "Contact", "Continental", "");
            var v := TyreVariant(7, m, 205, 55, 16, "summer", false, "V", 500000, 1);
            var catalogue := map[7 := v];
            var c := CartData(["7"], map["7" := Line(1, 500000, None, None)]);
            var r := CartAddEffect(c, catalogue, 7, Some("1"), None);
            && AddOutcome(catalogue, 7, Some("1")) == Added
            && r.lines["7"].quantity == 2 > v.stock
  {
    var m := TyreModel(1, "Contact", "Continental", "");
    var v := TyreVariant(7, m, 205, 55, 16, "summer", false, "V", 500000, 1);
    var c := CartData(["7"], map["7" := Line(1, 500000, None, None)]);
    NormaliseQuantityOfNumber(1);
    assert IntToString(1) == "1" && IdKey(7) == "7";
    AddLineEffect(c, v, 1, false);
  }

  function UpdateOutcome(catalogue: map<int, TyreVariant>, tyreId: int, quantityText: Option<string>): (r: Outcome)
    ensures r == NotFound <==> tyreId !in catalogue
    ensures tyreId in catalogue ==> (r == Updated <==> NormaliseQuantity(quantityText.GetOr("")) <= catalogue[tyreId].stock)
    ensures tyreId in catalogue && r != Updated ==> r == OutOfStock(catalogue[tyreId].stock)
  {
    if tyreId !in catalogue then NotFound
    else if NormaliseQuantity(quantityText.GetOr("")) > catalogue[tyreId].stock then OutOfStock(catalogue[tyreId].stock)
    else Updated
  }

  /** cart_update on the cart c: within the stock the line is overwritten
      with the quantity sent, whatever it held; beyond it nothing changes. */
  function CartUpdateEffect(c: CartData, catalogue: map<int, TyreVariant>, tyreId: int, quantityText: Option<string>): (r: CartData)
    requires WellFormed(c) && Keyed(catalogue)
    ensures WellFormed(r)
    ensures UpdateOutcome(catalogue, tyreId, quantityText) != Updated ==> r == c
    ensures UpdateOutcome(catalogue, tyreId, quantityText) == Updated ==>
              var key := IdKey(tyreId);
              && key in r.lines && r.lines[key].quantity == NormaliseQuantity(quantityText.GetOr(""))
              && (key in c.lines ==> r.keys == c.keys && r.lines[key].price == c.lines[key].price)
              && (key !in c.lines ==> r.keys == c.keys + [key] && r.lines[key].price == catalogue[tyreId].price)
              && (forall k :: k != key ==> (k in r.lines <==> k in c.lines))
              && (forall k :: k != key && k in c.lines ==> r.lines[k] == c.lines[k])
  {
    if UpdateOutcome(catalogue, tyreId, quantityText) != Updated then c
    else
      var q := NormaliseQuantity(quantityText.GetOr(""));
      AddLineEffect(c, catalogue[tyreId], q, true);
      AddLine(c, catalogue[tyreId], q, true)
  }

  /** cart_remove on the cart c: an unknown variant is a 404, a variant
      without a line leaves the cart as it was. */
  function CartRemoveEffect(c: CartData, catalogue: map<int, TyreVariant>, tyreId: int): (r: CartData)
    requires WellFormed(c) && Keyed(catalogue)
    ensures WellFormed(r)
    ensures tyreId in catalogue ==> IdKey(tyreId) !in r.lines
    ensures tyreId !in catalogue || IdKey(tyreId) !in c.lines ==> r == c
    ensures forall k :: k != IdKey(tyreId) && k in c.lines ==> k in r.lines && r.lines[k] == c.lines[k]
    ensures forall k :: k != IdKey(tyreId) ==> (k in r.lines <==> k in c.lines)
    ensures tyreId in catalogue && IdKey(tyreId) in c.lines ==>
              exists p :: 0 <= p < |c.keys| && c.keys[p] == IdKey(tyreId) && r.keys == c.keys[..p] + c.keys[p + 1..]
  {
    if tyreId !in catalogue then c else RemoveLine(c, IdKey(catalogue[tyreId].id))
  }

  /** The three views keep every line at one tyre or more: the quantity they
      set or add is normalised to at least one, and removal only drops a line. */
  lemma ViewsKeepPositive(c: CartData, catalogue: map<int, TyreVariant>, tyreId: int, quantityText: Option<string>, flag: Option<string>)
    requires WellFormed(c) && Keyed(catalogue) && AllPositive(c)
    ensures AllPositive(CartAddEffect(c, catalogue, tyreId, quantityText, flag))
    ensures AllPositive(CartUpdateEffect(c, catalogue, tyreId, quantityText))
    ensures AllPositive(CartRemoveEffect(c, catalogue, tyreId))
  {
    if tyreId in catalogue {
      var q := NormaliseQuantity(quantityText.GetOr(""));
      AddLineEffect(c, catalogue[tyreId], q, UpdateFlag(flag, q));
      AddLineEffect(c, catalogue[tyreId], q, true);
    }
  }

  // ---------------------------------------------------------------------
  // The views

  /** cart_add: the cart is set up first, then the variant looked up, then
      the quantity read and the stock checked. */
  method CartAdd(session: Session, catalogue: map<int, TyreVariant>, tyreId: int, quantityText: Option<string>, flag: Option<string>)
      returns (outcome: Outcome)
    requires session.cart.Some? ==> WellFormed(session.cart.value)
    modifies session
    ensures outcome == AddOutcome(catalogue, tyreId, quantityText)
    ensures session.cart == Some(CartAddEffect(StartingCart(old(session.cart)), catalogue, tyreId, quantityText, flag))
  {
    var cart := new Cart(session);
    ghost var c0 := cart.data;
    if tyreId !in catalogue {
      assert CartAddEffect(c0, catalogue, tyreId, quantityText, flag) == c0;
      return NotFound;
    }
    var v := catalogue[tyreId];
    var quantity := NormaliseQuantity(quantityText.GetOr(""));
    var update := UpdateFlag(flag, quantity);
    if quantity > v.stock {
      assert CartAddEffect(c0, catalogue, tyreId, quantityText, flag) == c0;
      return OutOfStock(v.stock);
    }
    assert AddOutcome(catalogue, tyreId, quantityText) == Added;
    cart.Add(v, quantity, update);
    assert cart.data == CartAddEffect(c0, catalogue, tyreId, quantityText, flag);
    outcome := Added;
  }

  method CartUpdate(session: Session, catalogue: map<int, TyreVariant>, tyreId: int, quantityText: Option<string>)
      returns (outcome: Outcome)
    requires session.cart.Some? ==> WellFormed(session.cart.value)
    requires Keyed(catalogue)
    modifies session
    ensures outcome == UpdateOutcome(catalogue, tyreId, quantityText)
    ensures session.cart == Some(CartUpdateEffect(StartingCart(old(session.cart)), catalogue, tyreId, quantityText))
  {
    var cart := new Cart(session);
    ghost var c0 := cart.data;
    if tyreId !in catalogue {
      return NotFound;
    }
    var v := catalogue[tyreId];
    var quantity := NormaliseQuantity(quantityText.GetOr(""));
    if quantity > v.stock {
      assert CartUpdateEffect(c0, catalogue, tyreId, quantityText) == c0;
      return OutOfStock(v.stock);
    }
    cart.Add(v, quantity, true);
    assert cart.data == CartUpdateEffect(c0, catalogue, tyreId, quantityText);
    outcome := Updated;
  }

  method CartRemove(session: Session, catalogue: map<int, TyreVariant>, tyreId: int) returns (outcome: Outcome)
    requires session.cart.Some? ==> WellFormed(session.cart.value)
    requires Keyed(catalogue)
    modifies session
    ensures outcome == if tyreId in catalogue then Removed else NotFound
    ensures session.cart == Some(CartRemoveEffect(StartingCart(old(session.cart)), catalogue, tyreId))
  {
    var cart := new Cart(session);
    if tyreId !in catalogue {
      return NotFound;
    }
    cart.Remove(catalogue[tyreId]);
    outcome := Removed;
  }
}
