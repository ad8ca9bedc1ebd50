/** The session cart of cart/models.py: a dictionary kept in the visitor's
    session under settings.CART_SESSION_ID, mapping the text of a variant id
    to its line (quantity and price snapshot). A dictionary remembers the
    order its keys were inserted in, so a cart is its keys in that order plus
    the lines they name. */
module CartModels {
  import opened Wrappers
  import opened Text
  import opened TyreModels

  /** One entry of the cart dictionary. The price is the snapshot taken when
      the line was created, replaced by the catalogue price on iteration;
      iteration also attaches the product and the line total. */
  datatype Line = Line(quantity: int, price: int, tyre: Option<TyreVariant>, totalPrice: Option<int>)

  datatype CartData = CartData(keys: seq<string>, lines: map<string, Line>)

  predicate Distinct(keys: seq<string>) {
    forall i, j :: 0 <= i < j < |keys| ==> keys[i] != keys[j]
  }

  /** The insertion order lists every key of the dictionary exactly once. */
  predicate WellFormed(c: CartData) {
    && Distinct(c.keys)
    && (forall k :: k in c.keys ==> k in c.lines)
    && (forall k :: k in c.lines ==> k in c.keys)
  }

  /** What the cart views keep: every line holds at least one tyre. */
  predicate AllPositive(c: CartData) {
    forall k :: k in c.lines ==> c.lines[k].quantity >= 1
  }

  const EmptyCart := CartData([], map[])

  /** str(tyre.id), the key a variant's line is stored under. */
  function IdKey(id: int): string {
    IntToString(id)
  }

  function QuantityOf(c: CartData, key: string): int {
    if key in c.lines then c.lines[key].quantity else 0
  }

  // ---------------------------------------------------------------------
  // The catalogue: variants by primary key

  /** Every variant is stored under its own id. */
  predicate Keyed(catalogue: map<int, TyreVariant>) {
    forall id :: id in catalogue ==> catalogue[id].id == id
  }

  /** The variant a cart key names: TyreVariant.objects.filter(id__in=keys)
      reads each key back as an integer id. */
  function Lookup(catalogue: map<int, TyreVariant>, key: string): (r: Option<TyreVariant>)
    ensures r.Some? ==> r.value in catalogue.Values
  {
    match ParseInt(key)
    case Some(id) => if id in catalogue then Some(catalogue[id]) else None
    case None => None
  }

  /** A line stored under str(id) is found again exactly when the variant
      with that id is still in the catalogue. */
  lemma LookupIdKey(catalogue: map<int, TyreVariant>, id: int)
    ensures Lookup(catalogue, IdKey(id)) == if id in catalogue then Some(catalogue[id]) else None
  {
    IntToStringParses(id);
  }

  // ---------------------------------------------------------------------
  // Sums over the lines, in insertion order

  function Qty(l: Line): int {
    l.quantity
  }

  /** float(item['price']) * item['quantity'], in kopecks. */
  function Cost(l: Line): int {
    l.price * l.quantity
  }

  function SumOf(keys: seq<string>, lines: map<string, Line>, f: Line -> int): int
    requires forall k :: k in keys ==> k in lines
  {
    if keys == [] then 0 else f(lines[keys[0]]) + SumOf(keys[1..], lines, f)
  }

  /** sum(item['quantity'] for item in self.cart.values()). */
  function TotalQuantity(c: CartData): int
    requires WellFormed(c)
  {
    SumOf(c.keys, c.lines, Qty)
  }

  /** get_total_price(). */
  function TotalPrice(c: CartData): int
    requires WellFormed(c)
  {
    SumOf(c.keys, c.lines, Cost)
  }

  /** The sum only looks at the lines its keys name, through f. */
  lemma {:induction false} SumPointwise(keys: seq<string>, a: map<string, Line>, b: map<string, Line>, f: Line -> int, g: Line -> int)
    requires forall k :: k in keys ==> k in a && k in b && f(a[k]) == g(b[k])
    ensures SumOf(keys, a, f) == SumOf(keys, b, g)
  {
    if keys != [] {
      SumPointwise(keys[1..], a, b, f, g);
    }
  }

  lemma {:induction false} SumSnoc(keys: seq<string>, key: string, lines: map<string, Line>, f: Line -> int)
    requires forall k :: k in keys + [key] ==> k in lines
    ensures SumOf(keys + [key], lines, f) == SumOf(keys, lines, f) + f(lines[key])
  {
    if keys == [] {
      assert keys + [key] == [key];
    } else {
      assert (keys + [key])[1..] == keys[1..] + [key];
      SumSnoc(keys[1..], key, lines, f);
    }
  }

  /** A sum of non-negative terms is non-negative, and a sum of terms of at
      least one is at least the number of terms. */
  lemma {:induction false} SumBounds(keys: seq<string>, lines: map<string, Line>, f: Line -> int)
    requires forall k :: k in keys ==> k in lines && f(lines[k]) >= 0
    ensures SumOf(keys, lines, f) >= 0
    ensures (forall k :: k in keys ==> f(lines[k]) >= 1) ==> SumOf(keys, lines, f) >= |keys|
  {
    if keys != [] {
      assert keys[0] in keys;
      SumBounds(keys[1..], lines, f);
    }
  }

  /** Changing one line changes the sum by the difference for that line. */
  lemma {:induction false} SumUpdate(keys: seq<string>, lines: map<string, Line>, key: string, l: Line, f: Line -> int)
    requires Distinct(keys) && key in keys
    requires forall k :: k in keys ==> k in lines
    ensures SumOf(keys, lines[key := l], f) == SumOf(keys, lines, f) - f(lines[key]) + f(l)
  {
    assert keys == [keys[0]] + keys[1..];
    if keys[0] == key {
      assert key !in keys[1..];
      SumPointwise(keys[1..], lines[key := l], lines, f, f);
    } else {
      assert key in keys[1..];
      SumUpdate(keys[1..], lines, key, l, f);
    }
  }

  /** The order of a dictionary's keys after del d[key]. */
  function RemoveKey(keys: seq<string>, key: string): (r: seq<string>)
    ensures forall k :: k in r <==> k in keys && k != key
    ensures Distinct(keys) ==> Distinct(r)
    ensures key !in keys ==> r == keys
  {
    if keys == [] then []
    else
      var rest := RemoveKey(keys[1..], key);
      assert forall k :: k in keys <==> k == keys[0] || k in keys[1..];
      assert Distinct(keys) ==> keys[0] !in keys[1..];
      if keys[0] == key then rest else ConsDistinct(keys[0], rest); [keys[0]] + rest
  }

  /** Where a key stands in the insertion order. */
  function Position(keys: seq<string>, key: string): (p: nat)
    requires key in keys
    ensures p < |keys| && keys[p] == key
  {
    if keys[0] == key then 0 else Position(keys[1..], key) + 1
  }

  /** del d[key] takes out the one place the key holds and keeps every other
      key where it was, in insertion order. */
  lemma {:induction false} RemoveKeyKeepsOrder(keys: seq<string>, key: string)
    requires Distinct(keys) && key in keys
    ensures var p := Position(keys, key); RemoveKey(keys, key) == keys[..p] + keys[p + 1..]
  {
    var tail := keys[1..];
    DistinctTail(keys);
    if keys[0] == key {
      assert Position(keys, key) == 0;
      assert RemoveKey(keys, key) == RemoveKey(tail, key) == tail;
      assert keys[..0] + keys[1..] == tail;
    } else {
      assert key in tail;
      RemoveKeyKeepsOrder(tail, key);
      var p := Position(tail, key);
      assert Position(keys, key) == p + 1;
      RemoveKeyStep(keys, key, p);
    }
  }

  /** One step of that induction: the head stays in front of what the tail keeps. */
  lemma RemoveKeyStep(keys: seq<string>, key: string, p: nat)
    requires keys != [] && keys[0] != key && p + 1 < |keys|
    requires RemoveKey(keys[1..], key) == keys[1..][..p] + keys[1..][p + 1..]
    ensures RemoveKey(keys, key) == keys[..p + 1] + keys[p + 2..]
  {
    var tail := keys[1..];
    assert RemoveKey(keys, key) == [keys[0]] + RemoveKey(tail, key);
    assert keys[..p + 1] == [keys[0]] + tail[..p];
    assert keys[p + 2..] == tail[p + 1..];
  }

  lemma DistinctTail(keys: seq<string>)
    requires Distinct(keys) && keys != []
    ensures Distinct(keys[1..]) && keys[0] !in keys[1..]
  {
    var tail := keys[1..];
    forall i, j | 0 <= i < j < |tail|
      ensures tail[i] != tail[j]
    {
      assert tail[i] == keys[i + 1] && tail[j] == keys[j + 1];
    }
  }

  lemma ConsDistinct(k: string, keys: seq<string>)
    ensures Distinct(keys) && k !in keys ==> Distinct([k] + keys)
  {
    if Distinct(keys) && k !in keys {
      forall i, j | 0 <= i < j < |keys| + 1
        ensures ([k] + keys)[i] != ([k] + keys)[j]
      {
        if i > 0 {
          assert ([k] + keys)[i] == keys[i - 1];
        }
        assert ([k] + keys)[j] == keys[j - 1];
      }
    }
  }

  /** Deleting a line takes its share out of the sum. */
  lemma {:induction false} SumRemove(keys: seq<string>, lines: map<string, Line>, key: string, f: Line -> int)
    requires Distinct(keys) && key in keys
    requires forall k :: k in keys ==> k in lines
    ensures SumOf(RemoveKey(keys, key), lines - {key}, f) == SumOf(keys, lines, f) - f(lines[key])
  {
    assert keys == [keys[0]] + keys[1..];
    if keys[0] == key {
      assert key !in keys[1..];
      SumPointwise(keys[1..], lines - {key}, lines, f, f);
    } else {
      assert key in keys[1..];
      SumRemove(keys[1..], lines, key, f);
    }
  }

  // ---------------------------------------------------------------------
  // What the methods of Cart do to the dictionary

  /** What Cart() finds in the session: the stored dictionary, or a new empty
      one when the key is missing or the stored dictionary is empty. */
  predicate NeedsFreshCart(stored: Option<CartData>) {
    stored.None? || stored.value.lines == map[]
  }

  function StartingCart(stored: Option<CartData>): (r: CartData)
    ensures NeedsFreshCart(stored) ==> r == EmptyCart
    ensures !NeedsFreshCart(stored) ==> Some(r) == stored
  {
    if NeedsFreshCart(stored) then EmptyCart else stored.value
  }

  /** add(tyre, quantity, update_quantity): a new key starts at quantity 0
      with the variant's price; then the quantity is set or increased. */
  function AddLine(c: CartData, v: TyreVariant, quantity: int, update: bool): (r: CartData)
    requires WellFormed(c)
    ensures WellFormed(r)
  {
    var key := IdKey(v.id);
    var c1 := if key in c.lines then c else CartData(c.keys + [key], c.lines[key := Line(0, v.price, None, None)]);
    assert forall k :: k in c1.keys <==> k in c.keys || k == key;
    var line := c1.lines[key];
    CartData(c1.keys, c1.lines[key := line.(quantity := if update then quantity else line.quantity + quantity)])
  }

  /** The line added for a variant: its quantity is set to, or increased by,
      the quantity given; an existing line keeps its price snapshot and a
      new one takes the variant's price and goes last; no other line changes. */
  lemma AddLineEffect(c: CartData, v: TyreVariant, quantity: int, update: bool)
    requires WellFormed(c)
    ensures var key, r := IdKey(v.id), AddLine(c, v, quantity, update);
            && key in r.lines
            && r.lines[key].quantity == (if update then quantity else QuantityOf(c, key) + quantity)
            && (key in c.lines ==> r.keys == c.keys && r.lines[key].price == c.lines[key].price)
            && (key !in c.lines ==> r.keys == c.keys + [key] && r.lines[key].price == v.price)
            && (forall k :: k != key ==> (k in r.lines <==> k in c.lines))
            && (forall k :: k != key && k in c.lines ==> r.lines[k] == c.lines[k])
  {
  }

  /** Adding changes the cart's quantity by exactly what the line gained. */
  lemma AddLineTotal(c: CartData, v: TyreVariant, quantity: int, update: bool)
    requires WellFormed(c)
    ensures update ==> TotalQuantity(AddLine(c, v, quantity, update)) == TotalQuantity(c) - QuantityOf(c, IdKey(v.id)) + quantity
    ensures !update ==> TotalQuantity(AddLine(c, v, quantity, update)) == TotalQuantity(c) + quantity
  {
    var key := IdKey(v.id);
    var r := AddLine(c, v, quantity, update);
    if key in c.lines {
      SumUpdate(c.keys, c.lines, key, r.lines[key], Qty);
    } else {
      SumPointwise(c.keys, r.lines, c.lines, Qty, Qty);
      SumSnoc(c.keys, key, r.lines, Qty);
    }
  }

  /** remove(tyre): the line goes if it is there; otherwise nothing changes. */
  function RemoveLine(c: CartData, key: string): (r: CartData)
    requires WellFormed(c)
    ensures WellFormed(r)
    ensures key !in r.lines
    ensures key !in c.lines ==> r == c
    ensures forall k :: k != key ==> (k in r.lines <==> k in c.lines)
    ensures forall k :: k != key && k in c.lines ==> r.lines[k] == c.lines[k]
    ensures key in c.lines ==>
              exists p :: 0 <= p < |c.keys| && c.keys[p] == key && r.keys == c.keys[..p] + c.keys[p + 1..]
  {
    if key in c.lines then
      RemoveKeyKeepsOrder(c.keys, key);
      assert c.keys[Position(c.keys, key)] == key;
      CartData(RemoveKey(c.keys, key), c.lines - {key})
    else c
  }

  /** In a cart whose lines all hold at least one tyre, len(cart) counts at
      least one per line, so it is 0 exactly when the cart has no lines: the
      empty-cart test of checkout sees exactly the carts without lines. */
  lemma PositiveCartEmpty(c: CartData)
    requires WellFormed(c) && AllPositive(c)
    ensures TotalQuantity(c) >= |c.keys|
    ensures TotalQuantity(c) == 0 <==> c.keys == []
    ensures TotalQuantity(c) == 0 <==> c.lines == map[]
  {
    SumBounds(c.keys, c.lines, Qty);
    if c.lines != map[] {
      var k :| k in c.lines;
      assert k in c.keys;
    }
  }

  lemma RemoveLineTotal(c: CartData, key: string)
    requires WellFormed(c)
    ensures TotalQuantity(RemoveLine(c, key)) == TotalQuantity(c) - QuantityOf(c, key)
    ensures TotalPrice(RemoveLine(c, key)) == TotalPrice(c) - (if key in c.lines then Cost(c.lines[key]) else 0)
  {
    if key in c.lines {
      SumRemove(c.keys, c.lines, key, Qty);
      SumRemove(c.keys, c.lines, key, Cost);
    }
  }

  /** One line as __iter__ leaves it: the product and its current price when
      the variant is still in the catalogue, then the line total. */
  function RefreshLine(l: Line, found: Option<TyreVariant>): Line {
    var l1 := Found(l, found);
    l1.(totalPrice := Some(Cost(l1)))
  }

  function Refresh(c: CartData, catalogue: map<int, TyreVariant>): (r: CartData)
    requires WellFormed(c)
    ensures WellFormed(r) && r.keys == c.keys
  {
    CartData(c.keys, map k | k in c.lines :: RefreshLine(c.lines[k], Lookup(catalogue, k)))
  }

  /** Iteration keeps the keys and the quantities; a line whose variant
      exists gets that variant and its price; every line's total is its
      price times its quantity. */
  lemma RefreshEffect(c: CartData, catalogue: map<int, TyreVariant>, key: string)
    requires WellFormed(c) && key in c.lines
    ensures var r := Refresh(c, catalogue).lines[key];
            var l := c.lines[key];
            && r.quantity == l.quantity
            && r.totalPrice == Some(r.price * r.quantity)
            && (Lookup(catalogue, key).Some? ==> r.tyre == Lookup(catalogue, key) && r.price == Lookup(catalogue, key).value.price)
            && (Lookup(catalogue, key).None? ==> r.tyre == l.tyre && r.price == l.price)
  {
  }

  /** Iterating leaves the number of items in the cart as it was, and the cart
      total afterwards is the sum of the line totals. */
  lemma RefreshTotals(c: CartData, catalogue: map<int, TyreVariant>)
    requires WellFormed(c)
    ensures TotalQuantity(Refresh(c, catalogue)) == TotalQuantity(c)
    ensures TotalPrice(Refresh(c, catalogue)) == SumOf(c.keys, Refresh(c, catalogue).lines, LineTotal)
  {
    var r := Refresh(c, catalogue);
    SumPointwise(c.keys, r.lines, c.lines, Qty, Qty);
    SumPointwise(c.keys, r.lines, r.lines, Cost, LineTotal);
  }

  /** With a catalogue of valid variants and stored lines of non-negative
      price and quantity, the cart total after iteration is never negative. */
  lemma RefreshedTotalNonNegative(c: CartData, catalogue: map<int, TyreVariant>)
    requires WellFormed(c)
    requires forall v :: v in catalogue.Values ==> ValidVariant(v)
    requires forall k :: k in c.lines ==> c.lines[k].price >= 0 && c.lines[k].quantity >= 0
    ensures TotalPrice(Refresh(c, catalogue)) >= 0
  {
    var r := Refresh(c, catalogue);
    forall k | k in r.keys
      ensures Cost(r.lines[k]) >= 0
    {
      RefreshEffect(c, catalogue, k);
      CostNonNegative(r.lines[k]);
    }
    SumBounds(r.keys, r.lines, Cost);
  }

  lemma CostNonNegative(l: Line)
    requires l.price >= 0 && l.quantity >= 0
    ensures Cost(l) >= 0
  {
  }

  function LineTotal(l: Line): int {
    l.totalPrice.GetOr(0)
  }

  /** The lines the keys name, in the keys' order. */
  function LinesOf(keys: seq<string>, lines: map<string, Line>): (r: seq<Line>)
    requires forall k :: k in keys ==> k in lines
    ensures |r| == |keys|
    ensures forall i :: 0 <= i < |r| ==> r[i] == lines[keys[i]]
  {
    if keys == [] then [] else [lines[keys[0]]] + LinesOf(keys[1..], lines)
  }

  /** The items iteration yields: the lines, in insertion order. */
  function Items(c: CartData): (r: seq<Line>)
    requires WellFormed(c)
    ensures |r| == |c.keys|
    ensures forall i :: 0 <= i < |r| ==> r[i] == c.lines[c.keys[i]]
  {
    LinesOf(c.keys, c.lines)
  }

  function SumLines(ls: seq<Line>, f: Line -> int): int {
    if ls == [] then 0 else f(ls[0]) + SumLines(ls[1..], f)
  }

  /** Summing over the keys is summing over the items they yield. */
  lemma {:induction false} SumOfLines(keys: seq<string>, lines: map<string, Line>, f: Line -> int)
    requires forall k :: k in keys ==> k in lines
    ensures SumOf(keys, lines, f) == SumLines(LinesOf(keys, lines), f)
  {
    if keys != [] {
      SumOfLines(keys[1..], lines, f);
    }
  }

  // ---------------------------------------------------------------------
  // The line total as the code computes it

  /** str(price) of a DecimalField with two decimal places, in kopecks. */
  function PriceText(kopecks: nat): string {
    NatToString(kopecks / 100) + "." + [DigitChar(kopecks % 100 / 10), DigitChar(kopecks % 10)]
  }

  /** Python's text * n: n copies, nothing for n <= 0. */
  function Repeat(s: string, n: int): (r: string)
    ensures n >= 0 ==> |r| == |s| * n
    decreases n
  {
    if n <= 0 then "" else s + Repeat(s, n - 1)
  }

  datatype TotalValue = Amount(kopecks: int) | Repeated(text: string)

  /** item['price'] * item['quantity'] in __iter__ as written: add() stores the
      price as text, and only lines whose variant is found get a number back,
      so the total of any other line is its price text repeated. */
  function LineTotalAsWritten(l: Line, found: Option<TyreVariant>): (r: TotalValue)
    requires l.price >= 0
    ensures found.Some? ==> r == Amount(found.value.price * l.quantity)
    ensures found.None? && l.quantity >= 1 ==> r.Repeated? && |r.text| == |PriceText(l.price)| * l.quantity
  {
    if found.Some? then Amount(found.value.price * l.quantity) else Repeated(Repeat(PriceText(l.price), l.quantity))
  }

  /** A line of two tyres at 100.00 whose variant has left the catalogue: the
      code's total is the text "100.00100.00", where the line total of the
      model is 200.00. */
  lemma MissingProductTotal()
    ensures var l := Line(2, 10000, None, None);
            && LineTotalAsWritten(l, None) == Repeated("100.00100.00")
            && RefreshLine(l, None).totalPrice == Some(20000)
  {
    assert NatToString(1) == "1";
    assert NatToString(10) == "10";
    assert NatToString(100) == "100";
    assert PriceText(10000) == "100.00";
    assert Repeat("100.00", 2) == "100.00" + Repeat("100.00", 1);
  }

  // ---------------------------------------------------------------------
  // The session and the Cart object

  /** The visitor's session, reduced to the cart entry and the flag that
      tells the framework to write the session back. */
  class Session {
    var cart: Option<CartData>
    var modified: bool

    constructor (cart: Option<CartData>)
      ensures this.cart == cart && !modified
    {
      this.cart := cart;
      modified := false;
    }
  }

  /** A Cart holds the very dictionary stored in the session: while the key
      is present, changing one changes the other. */
  class Cart {
    const session: Session
    var data: CartData

    predicate Valid()
      reads this, session
    {
      && WellFormed(data)
      && (session.cart.None? || session.cart == Some(data))
    }

    /** Cart(request). */
    constructor (session: Session)
      requires session.cart.Some? ==> WellFormed(session.cart.value)
      modifies session
      ensures this.session == session && Valid()
      ensures data == StartingCart(old(session.cart)) && session.cart == Some(data)
      ensures session.modified == (old(session.modified) || NeedsFreshCart(old(session.cart)))
    {
      this.session := session;
      var stored := session.cart;
      if stored.None? || stored.value.lines == map[] {
        session.cart := Some(EmptyCart);
        session.modified := true;
        stored := Some(EmptyCart);
      }
      data := stored.value;
    }

    /** save(): puts the dictionary under the key and marks the session. */
    method Save()
      requires WellFormed(data)
      modifies session
      ensures Valid()
      ensures session.cart == Some(data) && session.modified
    {
      session.cart := Some(data);
      session.modified := true;
    }

    method Add(v: TyreVariant, quantity: int, update: bool)
      requires Valid()
      modifies this, session
      ensures Valid()
      ensures data == AddLine(old(data), v, quantity, update)
      ensures session.cart == Some(data) && session.modified
    {
      var c := data;
      var key := IdKey(v.id);
      if key !in c.lines {
        c := CartData(c.keys + [key], c.lines[key := Line(0, v.price, None, None)]);
      }
      var line := c.lines[key];
      if update {
        line := line.(quantity := quantity);
      } else {
        line := line.(quantity := line.quantity + quantity);
      }
      c := c.(lines := c.lines[key := line]);
      assert c == AddLine(data, v, quantity, update);
      data := c;
      Save();
    }

    /** remove(tyre): only a present line is deleted and saved. */
    method Remove(v: TyreVariant)
      requires Valid()
      modifies this, session
      ensures Valid()
      ensures data == RemoveLine(old(data), IdKey(v.id))
      ensures IdKey(v.id) in old(data.lines) ==> session.cart == Some(data) && session.modified
      ensures IdKey(v.id) !in old(data.lines) ==> session.cart == old(session.cart) && session.modified == old(session.modified)
    {
      var key := IdKey(v.id);
      if key in data.lines {
        data := RemoveLine(data, key);
        Save();
      }
    }

    /** __iter__: first every line whose variant exists gets the variant and
        its current price, then every line gets its total and is yielded. */
    method Iterate(catalogue: map<int, TyreVariant>) returns (items: seq<Line>)
      requires Valid()
      modifies this, session
      ensures Valid()
      ensures data == Refresh(old(data), catalogue) && items == Items(data)
      ensures session.cart == (if old(session.cart).Some? then Some(data) else None)
      ensures session.modified == old(session.modified)
    {
      var keys := data.keys;
      var attached := AttachProducts(keys, data.lines, catalogue);
      var lines;
      lines, items := TotalLines(keys, attached);
      RefreshByLoops(data, catalogue, attached, lines);
      data := CartData(keys, lines);
      if session.cart.Some? {
        session.cart := Some(data);
      }
    }

    /** __len__: the number of items in the cart. */
    method Len() returns (n: int)
      requires Valid()
      ensures n == TotalQuantity(data)
    {
      n := 0;
      var i := 0;
      while i < |data.keys|
        invariant 0 <= i <= |data.keys|
        invariant n + SumOf(data.keys[i..], data.lines, Qty) == TotalQuantity(data)
      {
        assert data.keys[i..][1..] == data.keys[i + 1..];
        n := n + data.lines[data.keys[i]].quantity;
        i := i + 1;
      }
    }

    /** get_total_quantity(): the same sum as __len__. */
    method GetTotalQuantity() returns (n: int)
      requires Valid()
      ensures n == TotalQuantity(data)
    {
      n := Len();
    }

    method GetTotalPrice() returns (total: int)
      requires Valid()
      ensures total == TotalPrice(data)
    {
      total := 0;
      var i := 0;
      while i < |data.keys|
        invariant 0 <= i <= |data.keys|
        invariant total + SumOf(data.keys[i..], data.lines, Cost) == TotalPrice(data)
      {
        assert data.keys[i..][1..] == data.keys[i + 1..];
        var line := data.lines[data.keys[i]];
        total := total + line.price * line.quantity;
        i := i + 1;
      }
    }

    /** clear(): deletes the key from the session; deleting a key that is
        already gone is a KeyError (ok false), which changes nothing. */
    method Clear() returns (ok: bool)
      requires Valid()
      modifies session
      ensures Valid()
      ensures ok <==> old(session.cart).Some?
      ensures session.cart == None
      ensures session.modified == (old(session.modified) || ok)
    {
      if session.cart.None? {
        return false;
      }
      session.cart := None;
      session.modified := true;
      ok := true;
    }
  }

  /** The two loops of __iter__ together refresh every line. */
  lemma RefreshByLoops(c: CartData, catalogue: map<int, TyreVariant>, attached: map<string, Line>, lines: map<string, Line>)
    requires WellFormed(c)
    requires attached.Keys == c.lines.Keys && lines.Keys == c.lines.Keys
    requires forall j :: 0 <= j < |c.keys| ==> attached[c.keys[j]] == Found(c.lines[c.keys[j]], Lookup(catalogue, c.keys[j]))
    requires forall j :: 0 <= j < |c.keys| ==> lines[c.keys[j]] == attached[c.keys[j]].(totalPrice := Some(Cost(attached[c.keys[j]])))
    ensures lines == Refresh(c, catalogue).lines
  {
    forall k | k in c.lines
      ensures lines[k] == RefreshLine(c.lines[k], Lookup(catalogue, k))
    {
      var j :| 0 <= j < |c.keys| && c.keys[j] == k;
    }
  }

  /** The first loop of __iter__: each line whose variant exists gets the
      variant and its current price. */
  method AttachProducts(keys: seq<string>, lines0: map<string, Line>, catalogue: map<int, TyreVariant>) returns (lines: map<string, Line>)
    requires Distinct(keys) && forall k :: k in keys ==> k in lines0
    ensures lines.Keys == lines0.Keys
    ensures forall j :: 0 <= j < |keys| ==> lines[keys[j]] == Found(lines0[keys[j]], Lookup(catalogue, keys[j]))
  {
    lines := lines0;
    var i := 0;
    while i < |keys|
      invariant 0 <= i <= |keys|
      invariant lines.Keys == lines0.Keys
      invariant forall j :: 0 <= j < i ==> lines[keys[j]] == Found(lines0[keys[j]], Lookup(catalogue, keys[j]))
      invariant forall j :: i <= j < |keys| ==> lines[keys[j]] == lines0[keys[j]]
    {
      var key := keys[i];
      var found := Lookup(catalogue, key);
      if found.Some? {
        lines := lines[key := lines[key].(tyre := found, price := found.value.price)];
      }
      assert lines[key] == Found(lines0[key], found);
      assert forall j :: 0 <= j < |keys| && j != i ==> keys[j] != key;
      i := i + 1;
    }
  }

  /** The second loop of __iter__: each line gets its total and is yielded,
      in insertion order. */
  method TotalLines(keys: seq<string>, lines0: map<string, Line>) returns (lines: map<string, Line>, items: seq<Line>)
    requires Distinct(keys) && forall k :: k in keys ==> k in lines0
    ensures lines.Keys == lines0.Keys
    ensures forall j :: 0 <= j < |keys| ==> lines[keys[j]] == lines0[keys[j]].(totalPrice := Some(Cost(lines0[keys[j]])))
    ensures |items| == |keys| && forall j :: 0 <= j < |keys| ==> items[j] == lines[keys[j]]
  {
    lines := lines0;
    items := [];
    var i := 0;
    while i < |keys|
      invariant 0 <= i <= |keys|
      invariant lines.Keys == lines0.Keys
      invariant forall j :: 0 <= j < i ==> lines[keys[j]] == lines0[keys[j]].(totalPrice := Some(Cost(lines0[keys[j]])))
      invariant forall j :: i <= j < |keys| ==> lines[keys[j]] == lines0[keys[j]]
      invariant |items| == i && forall j :: 0 <= j < i ==> items[j] == lines[keys[j]]
    {
      var key := keys[i];
      var line := lines[key];
      line := line.(totalPrice := Some(line.price * line.quantity));
      lines := lines[key := line];
      items := items + [line];
      i := i + 1;
    }
  }

  /** The first loop of __iter__ on one line: the product and its price. */
  function Found(l: Line, found: Option<TyreVariant>): Line {
    if found.Some? then l.(tyre := found, price := found.value.price) else l
  }
}
