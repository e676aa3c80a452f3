/** The shop's data model: order statuses, orders, order lines, offers,
    offer parameters and contacts, with the constraints the schema declares
    and the values derived from them (line totals, order totals). */
module Models {

  datatype Option<T> = None | Some(value: T)

  // ---------- Order status ----------

  /** The six choices of the order status column. */
  datatype Status = Basket | New | Confirmed | Sent | Delivered | Cancelled

  /** Width of the status column. */
  const StatusMaxLength := 16

  /** The value stored in the status column for each choice. */
  function StatusCode(s: Status): string
  {
    match s
    case Basket => "basket"
    case New => "new"
    case Confirmed => "confirmed"
    case Sent => "sent"
    case Delivered => "delivered"
    case Cancelled => "cancelled"
  }

  /** The choice a stored column value denotes; None for any value outside the choices. */
  function ParseStatus(code: string): (r: Option<Status>)
    ensures r.Some? ==> StatusCode(r.value) == code
    ensures r.None? ==> forall s: Status :: StatusCode(s) != code
  {
    if code == "basket" then Some(Basket)
    else if code == "new" then Some(New)
    else if code == "confirmed" then Some(Confirmed)
    else if code == "sent" then Some(Sent)
    else if code == "delivered" then Some(Delivered)
    else if code == "cancelled" then Some(Cancelled)
    else None
  }

  /** Every choice is stored as a distinct value that fits the column and reads back as itself. */
  lemma StatusChoices(s: Status)
    ensures ParseStatus(StatusCode(s)) == Some(s)
    ensures |StatusCode(s)| <= StatusMaxLength
  {
    match s
    case Basket =>
    case New =>
    case Confirmed =>
    case Sent =>
    case Delivered =>
    case Cancelled =>
  }

  // ---------- Rows ----------

  /** A user's shipping contact; only its owner matters to orders. */
  datatype Contact = Contact(user: int)

  /** A shop-specific offer of a product; prices are integer cents. */
  datatype ProductInfo = ProductInfo(product: int, shop: int, externalId: nat, stock: nat, price: int)

  /** The value of one parameter for one offer. */
  datatype ProductParameter = ProductParameter(productInfo: int, parameter: int, value: string)

  /** An order row: its owner, its status and an optional contact. */
  datatype Order = Order(user: int, status: Status, contact: Option<int>)

  /** The row a freshly created order gets: status takes its default. */
  function NewOrder(user: int): (r: Order)
    ensures r.user == user && r.contact.None?
    ensures StatusCode(r.status) == "basket"
  {
    Order(user, Basket, None)
  }

  /** One order line: an offer and its quantity, within an order. */
  datatype OrderItem = OrderItem(order: int, productInfo: int, quantity: nat)

  /** Default quantity of a line. */
  const DefaultQuantity := 1

  // ---------- Unique constraints ----------

  /** No two offers share a (shop, external id) pair. */
  ghost predicate UniqueOffers(infos: map<int, ProductInfo>)
  {
    forall a, b :: a in infos && b in infos && a != b ==>
      infos[a].shop != infos[b].shop || infos[a].externalId != infos[b].externalId
  }

  /** Inserting a new offer row: the database refuses a duplicate (shop, external id) pair. */
  function InsertOffer(infos: map<int, ProductInfo>, id: int, info: ProductInfo): (r: Option<map<int, ProductInfo>>)
    requires id !in infos
    ensures r.None? <==> exists a :: a in infos && infos[a].shop == info.shop && infos[a].externalId == info.externalId
    ensures r.Some? ==> r.value.Keys == infos.Keys + {id} && r.value[id] == info
    ensures r.Some? ==> forall a :: a in infos ==> r.value[a] == infos[a]
    ensures UniqueOffers(infos) && r.Some? ==> UniqueOffers(r.value)
  {
    if exists a :: a in infos && infos[a].shop == info.shop && infos[a].externalId == info.externalId then None
    else Some(infos[id := info])
  }

  /** No offer has two values for the same parameter. */
  ghost predicate UniqueParameters(params: map<int, ProductParameter>)
  {
    forall a, b :: a in params && b in params && a != b ==>
      params[a].productInfo != params[b].productInfo || params[a].parameter != params[b].parameter
  }

  /** Inserting a new parameter row: the database refuses a duplicate (offer, parameter) pair. */
  function InsertParameter(params: map<int, ProductParameter>, id: int, pp: ProductParameter): (r: Option<map<int, ProductParameter>>)
    requires id !in params
    ensures r.None? <==> exists a :: a in params && params[a].productInfo == pp.productInfo && params[a].parameter == pp.parameter
    ensures r.Some? ==> r.value.Keys == params.Keys + {id} && r.value[id] == pp
    ensures r.Some? ==> forall a :: a in params ==> r.value[a] == params[a]
    ensures UniqueParameters(params) && r.Some? ==> UniqueParameters(r.value)
  {
    if exists a :: a in params && params[a].productInfo == pp.productInfo && params[a].parameter == pp.parameter then None
    else Some(params[id := pp])
  }

  /** No two lines of one order refer to the same offer. */
  ghost predicate UniqueLines(items: seq<OrderItem>)
  {
    forall i, j :: 0 <= i < j < |items| && items[i].order == items[j].order ==>
      items[i].productInfo != items[j].productInfo
  }

  // ---------- Contact deletion ----------

  /** Deleting contact `c` sets the contact of every order that referred to it to none;
      the orders themselves stay. */
  function ClearContact(orders: map<int, Order>, c: int): (r: map<int, Order>)
    ensures r.Keys == orders.Keys
    ensures forall id :: id in r ==> r[id].contact != Some(c)
    ensures forall id :: id in r ==> r[id].user == orders[id].user && r[id].status == orders[id].status
    ensures forall id :: id in r && orders[id].contact != Some(c) ==> r[id] == orders[id]
    ensures forall id :: id in r && orders[id].contact == Some(c) ==> r[id] == orders[id].(contact := None)
  {
    map id | id in orders :: if orders[id].contact == Some(c) then orders[id].(contact := None) else orders[id]
  }

  // ---------- The lines of an order ----------

  /** The rows of the line table that belong to order `o`, in table order. */
  function OrderedItems(items: seq<OrderItem>, o: int): (r: seq<OrderItem>)
    ensures |r| <= |items|
    ensures forall it :: it in r ==> it in items && it.order == o
    ensures forall it :: it in items && it.order == o ==> it in r
  {
    if items == [] then []
    else (if items[0].order == o then [items[0]] else []) + OrderedItems(items[1..], o)
  }

  /** Whether the line table holds a line of order `o` for offer `p`. */
  ghost predicate HasLine(items: seq<OrderItem>, o: int, p: int)
  {
    exists i :: 0 <= i < |items| && items[i].order == o && items[i].productInfo == p
  }

  /** The lines of order `o` as a map from offer id to quantity. */
  function Lines(items: seq<OrderItem>, o: int): (r: map<int, nat>)
    ensures forall p :: p in r <==> HasLine(items, o, p)
  {
    if items == [] then map[]
    else
      var rest := Lines(items[1..], o);
      assert forall p :: HasLine(items, o, p) <==>
        (items[0].order == o && items[0].productInfo == p) || HasLine(items[1..], o, p) by {
        forall p | HasLine(items, o, p) && !(items[0].order == o && items[0].productInfo == p)
          ensures HasLine(items[1..], o, p)
        {
          var i :| 0 <= i < |items| && items[i].order == o && items[i].productInfo == p;
          assert items[1..][i - 1] == items[i];
        }
        forall p | HasLine(items[1..], o, p) ensures HasLine(items, o, p) {
          var i :| 0 <= i < |items[1..]| && items[1..][i].order == o && items[1..][i].productInfo == p;
          assert items[i + 1] == items[1..][i];
        }
      }
      if items[0].order == o then rest[items[0].productInfo := items[0].quantity] else rest
  }

  /** An order with a line has rows. */
  lemma LineMeansRows(items: seq<OrderItem>, o: int, p: int)
    requires p in Lines(items, o)
    ensures OrderedItems(items, o) != []
  {
    var i :| 0 <= i < |items| && items[i].order == o && items[i].productInfo == p;
    assert items[i] in items;
  }

  /** The position of the line of order `o` for offer `p`, if there is one. */
  function FindLine(items: seq<OrderItem>, o: int, p: int): (r: Option<nat>)
    ensures r.Some? ==> r.value < |items| && items[r.value].order == o && items[r.value].productInfo == p
    ensures r.None? ==> !HasLine(items, o, p)
  {
    if items == [] then None
    else if items[0].order == o && items[0].productInfo == p then Some(0)
    else match FindLine(items[1..], o, p)
      case None =>
        assert !HasLine(items, o, p) by {
          forall i | 0 <= i < |items|
            ensures !(items[i].order == o && items[i].productInfo == p)
          {
            if i > 0 {
              assert items[1..][i - 1] == items[i];
            }
          }
        }
        None
      case Some(k) => Some(k + 1)
  }

  /** An order with no rows in the table has no lines. */
  lemma {:induction false} NoLines(items: seq<OrderItem>, o: int)
    requires forall i :: 0 <= i < |items| ==> items[i].order != o
    ensures Lines(items, o) == map[]
  {
    if items != [] {
      NoLines(items[1..], o);
    }
  }

  /** With unique lines, the map holds each line's own quantity. */
  lemma {:induction false} LinesAt(items: seq<OrderItem>, i: int)
    requires UniqueLines(items) && 0 <= i < |items|
    ensures items[i].productInfo in Lines(items, items[i].order)
    ensures Lines(items, items[i].order)[items[i].productInfo] == items[i].quantity
  {
    var o := items[i].order;
    if i > 0 {
      assert items[1..][i - 1] == items[i];
      LinesAt(items[1..], i - 1);
      assert items[0].order == o ==> items[0].productInfo != items[i].productInfo;
    }
  }

  /** Appending a line for an offer order `x.order` does not hold yet adds exactly that entry. */
  lemma {:induction false} LinesAppend(items: seq<OrderItem>, x: OrderItem)
    requires !HasLine(items, x.order, x.productInfo)
    ensures Lines(items + [x], x.order) == Lines(items, x.order)[x.productInfo := x.quantity]
  {
    if items == [] {
      assert [] + [x] == [x];
      assert [x][1..] == [];
    } else {
      assert (items + [x])[0] == items[0];
      assert (items + [x])[1..] == items[1..] + [x];
      LinesAppend(items[1..], x);
    }
  }

  /** Changing the quantity of line `k` in place changes that entry only. */
  lemma {:induction false} LinesUpdate(items: seq<OrderItem>, k: int, q: nat)
    requires UniqueLines(items) && 0 <= k < |items|
    ensures Lines(items[k := items[k].(quantity := q)], items[k].order)
         == Lines(items, items[k].order)[items[k].productInfo := q]
  {
    var o, p := items[k].order, items[k].productInfo;
    var items' := items[k := items[k].(quantity := q)];
    if k > 0 {
      assert items'[0] == items[0];
      assert items'[1..] == items[1..][k - 1 := items[k].(quantity := q)];
      assert items[1..][k - 1] == items[k];
      LinesUpdate(items[1..], k - 1, q);
      assert items[0].order == o ==> items[0].productInfo != p;
    } else {
      assert items'[1..] == items[1..];
    }
  }

  /** Appending a line for an offer its order does not hold yet keeps the lines unique. */
  lemma UniqueLinesAppend(items: seq<OrderItem>, x: OrderItem)
    requires UniqueLines(items) && !HasLine(items, x.order, x.productInfo)
    ensures UniqueLines(items + [x])
  {
    var s := items + [x];
    forall i, j | 0 <= i < j < |s| && s[i].order == s[j].order
      ensures s[i].productInfo != s[j].productInfo
    {
      assert s[i] == items[i];
      if j < |items| {
        assert s[j] == items[j];
      }
    }
  }

  /** Changing a line's quantity keeps the lines unique. */
  lemma UniqueLinesSetQuantity(items: seq<OrderItem>, k: int, q: nat)
    requires UniqueLines(items) && 0 <= k < |items|
    ensures UniqueLines(items[k := items[k].(quantity := q)])
  {
  }

  /** Appending a line of another order leaves order `o`'s rows as they were. */
  lemma OrderedItemsAppend(items: seq<OrderItem>, x: OrderItem, o: int)
    requires x.order != o
    ensures OrderedItems(items + [x], o) == OrderedItems(items, o)
  {
    OrderedItemsConcat(items, [x], o);
    assert [x][1..] == [];
  }

  /** Removes the lines of order `o` whose offer is in `ps`; every other row stays, in order. */
  function DropLines(items: seq<OrderItem>, o: int, ps: set<int>): (r: seq<OrderItem>)
    ensures forall it :: it in r <==> it in items && !(it.order == o && it.productInfo in ps)
  {
    if items == [] then []
    else if items[0].order == o && items[0].productInfo in ps then DropLines(items[1..], o, ps)
    else [items[0]] + DropLines(items[1..], o, ps)
  }

  /** Dropping lines of order `o` removes exactly those offers from its line map. */
  lemma {:induction false} LinesDrop(items: seq<OrderItem>, o: int, ps: set<int>)
    ensures Lines(DropLines(items, o, ps), o) == Lines(items, o) - ps
  {
    if items != [] {
      LinesDrop(items[1..], o, ps);
      var d := DropLines(items, o, ps);
      if !(items[0].order == o && items[0].productInfo in ps) {
        assert d[0] == items[0] && d[1..] == DropLines(items[1..], o, ps);
      }
    }
  }

  /** Dropping lines of order `o` leaves every other order's rows as they were. */
  lemma {:induction false} OrderedItemsDrop(items: seq<OrderItem>, o: int, ps: set<int>, o': int)
    requires o' != o
    ensures OrderedItems(DropLines(items, o, ps), o') == OrderedItems(items, o')
  {
    if items != [] {
      OrderedItemsDrop(items[1..], o, ps, o');
      var d := DropLines(items, o, ps);
      if !(items[0].order == o && items[0].productInfo in ps) {
        assert d[0] == items[0] && d[1..] == DropLines(items[1..], o, ps);
      }
    }
  }

  /** Dropping rows keeps the lines unique. */
  lemma {:induction false} UniqueLinesDrop(items: seq<OrderItem>, o: int, ps: set<int>)
    requires UniqueLines(items)
    ensures UniqueLines(DropLines(items, o, ps))
  {
    if items != [] {
      assert UniqueLines(items[1..]) by {
        forall i, j | 0 <= i < j < |items[1..]| && items[1..][i].order == items[1..][j].order
          ensures items[1..][i].productInfo != items[1..][j].productInfo
        {
          assert items[1..][i] == items[i + 1] && items[1..][j] == items[j + 1];
        }
      }
      UniqueLinesDrop(items[1..], o, ps);
      var rest := DropLines(items[1..], o, ps);
      if !(items[0].order == o && items[0].productInfo in ps) {
        var d := [items[0]] + rest;
        forall i, j | 0 <= i < j < |d| && d[i].order == d[j].order
          ensures d[i].productInfo != d[j].productInfo
        {
          if i == 0 {
            assert d[j] == rest[j - 1];
            assert d[j] in items[1..];
            var k :| 0 <= k < |items[1..]| && items[1..][k] == d[j];
            assert items[k + 1] == d[j];
          } else {
            assert d[i] == rest[i - 1] && d[j] == rest[j - 1];
          }
        }
      }
    }
  }

  /** The rows of order `o` in a concatenation are its rows in each part, in order. */
  lemma {:induction false} OrderedItemsConcat(a: seq<OrderItem>, b: seq<OrderItem>, o: int)
    ensures OrderedItems(a + b, o) == OrderedItems(a, o) + OrderedItems(b, o)
  {
    if a == [] {
      assert a + b == b;
    } else {
      assert (a + b)[0] == a[0];
      assert (a + b)[1..] == a[1..] + b;
      OrderedItemsConcat(a[1..], b, o);
    }
  }

  /** Changing the quantity of a line of another order leaves order `o'`'s rows as they were. */
  lemma {:induction false} OrderedItemsUpdate(items: seq<OrderItem>, k: int, q: nat, o': int)
    requires 0 <= k < |items| && items[k].order != o'
    ensures OrderedItems(items[k := items[k].(quantity := q)], o') == OrderedItems(items, o')
  {
    var items' := items[k := items[k].(quantity := q)];
    if k > 0 {
      assert items'[0] == items[0];
      assert items'[1..] == items[1..][k - 1 := items[k].(quantity := q)];
      assert items[1..][k - 1] == items[k];
      OrderedItemsUpdate(items[1..], k - 1, q, o');
    } else {
      assert items'[1..] == items[1..];
    }
  }

  // ---------- Totals ----------

  /** Every row refers to an existing offer. */
  ghost predicate Priced(items: seq<OrderItem>, products: map<int, ProductInfo>)
  {
    forall it :: it in items ==> it.productInfo in products
  }

  /** The total price of one line: its quantity times its offer's price. */
  function TotalPrice(it: OrderItem, products: map<int, ProductInfo>): (r: int)
    requires it.productInfo in products
    ensures it.quantity == 0 ==> r == 0
    ensures it.quantity == DefaultQuantity ==> r == products[it.productInfo].price
    ensures products[it.productInfo].price >= 0 ==> r >= 0
  {
    it.quantity * products[it.productInfo].price
  }

  /** The sum of the total prices of `lines`. */
  function LineSum(lines: seq<OrderItem>, products: map<int, ProductInfo>): (r: int)
    requires Priced(lines, products)
    ensures lines == [] ==> r == 0
    ensures (forall it :: it in lines ==> products[it.productInfo].price >= 0) ==> r >= 0
  {
    if lines == [] then 0
    else
      assert forall it :: it in lines[1..] ==> it in lines;
      TotalPrice(lines[0], products) + LineSum(lines[1..], products)
  }

  /** The sum from position `i` is line `i`'s total plus the sum after it. */
  lemma LineSumStep(lines: seq<OrderItem>, products: map<int, ProductInfo>, i: int)
    requires 0 <= i < |lines| && Priced(lines[i..], products)
    ensures Priced(lines[i + 1..], products)
    ensures LineSum(lines[i..], products) ==
      lines[i].quantity * products[lines[i].productInfo].price + LineSum(lines[i + 1..], products)
  {
    assert lines[i..][0] == lines[i] && lines[i..][1..] == lines[i + 1..];
  }

  /** The total of order `o`: the sum of the total prices of its own lines. */
  function OrderTotal(items: seq<OrderItem>, products: map<int, ProductInfo>, o: int): (r: int)
    requires Priced(items, products)
    ensures (forall it :: it in items && it.order == o ==> products[it.productInfo].price >= 0) ==> r >= 0
  {
    LineSum(OrderedItems(items, o), products)
  }

  /** The sum over a concatenation is the sum of the sums. */
  lemma {:induction false} LineSumConcat(a: seq<OrderItem>, b: seq<OrderItem>, products: map<int, ProductInfo>)
    requires Priced(a, products) && Priced(b, products)
    ensures Priced(a + b, products)
    ensures LineSum(a + b, products) == LineSum(a, products) + LineSum(b, products)
  {
    if a == [] {
      assert a + b == b;
    } else {
      assert (a + b)[0] == a[0];
      assert (a + b)[1..] == a[1..] + b;
      assert forall it :: it in a[1..] ==> it in a;
      LineSumConcat(a[1..], b, products);
    }
  }

  /** A table without rows of order `o` yields no lines for it. */
  lemma {:induction false} OrderedItemsNone(items: seq<OrderItem>, o: int)
    requires forall i :: 0 <= i < |items| ==> items[i].order != o
    ensures OrderedItems(items, o) == []
  {
    if items != [] {
      OrderedItemsNone(items[1..], o);
    }
  }

  /** An order without lines totals 0. */
  lemma OrderTotalEmpty(items: seq<OrderItem>, products: map<int, ProductInfo>, o: int)
    requires Priced(items, products)
    requires forall i :: 0 <= i < |items| ==> items[i].order != o
    ensures OrderTotal(items, products, o) == 0
  {
    OrderedItemsNone(items, o);
  }

  /** Rows of other orders never contribute to an order's total, wherever they sit in the table. */
  lemma OrderTotalOwnRows(before: seq<OrderItem>, after: seq<OrderItem>, others: seq<OrderItem>,
                          products: map<int, ProductInfo>, o: int)
    requires Priced(before + after, products) && Priced(others, products)
    requires forall i :: 0 <= i < |others| ==> others[i].order != o
    ensures Priced(before + others + after, products)
    ensures OrderTotal(before + others + after, products, o) == OrderTotal(before + after, products, o)
  {
    OrderedItemsConcat(before, after, o);
    OrderedItemsConcat(before + others, after, o);
    OrderedItemsConcat(before, others, o);
    OrderedItemsNone(others, o);
    assert OrderedItems(before, o) + [] == OrderedItems(before, o);
  }

  /** A new line of order `x.order` raises that order's total by exactly its quantity times
      its price, and leaves every other order's total as it was. */
  lemma OrderTotalAddLine(items: seq<OrderItem>, products: map<int, ProductInfo>, x: OrderItem, o: int)
    requires Priced(items, products) && x.productInfo in products
    ensures Priced(items + [x], products)
    ensures OrderTotal(items + [x], products, o) ==
      OrderTotal(items, products, o) + (if x.order == o then x.quantity * products[x.productInfo].price else 0)
  {
    OrderedItemsConcat(items, [x], o);
    assert [x][1..] == [];
    var own := OrderedItems(items, o);
    assert forall it :: it in own ==> it in items;
    LineSumConcat(own, OrderedItems([x], o), products);
  }

  // ---------- Totals over a line map ----------

  /** A non-empty set has an element. */
  lemma HasElement(s: set<int>)
    requires s != {}
    ensures exists x :: x in s
  {
    if forall y :: y !in s {
      assert false;
    }
  }

  /** Some offer of a non-empty line map. */
  ghost function PickKey(m: map<int, nat>): (k: int)
    requires |m| > 0
    ensures k in m && |m - {k}| == |m| - 1
  {
    assert |m.Keys| == |m|;
    HasElement(m.Keys);
    var k :| k in m.Keys;
    assert (m - {k}).Keys == m.Keys - {k};
    k
  }

  /** The price of offer `k`; an offer outside the catalogue, which no line of a consistent
      store refers to, counts as 0. */
  function PriceOf(products: map<int, ProductInfo>, k: int): int
  {
    if k in products then products[k].price else 0
  }

  /** The total of a line map: each offer's quantity times its price, summed. */
  ghost function MapTotal(m: map<int, nat>, products: map<int, ProductInfo>): (r: int)
    ensures |m| == 0 ==> r == 0
    decreases |m|
  {
    if |m| == 0 then 0
    else
      var k := PickKey(m);
      m[k] * PriceOf(products, k) + MapTotal(m - {k}, products)
  }

  /** The map total does not depend on which offer is summed first. */
  lemma {:induction false} MapTotalRemove(m: map<int, nat>, products: map<int, ProductInfo>, k: int)
    requires k in m
    ensures MapTotal(m, products) == m[k] * PriceOf(products, k) + MapTotal(m - {k}, products)
    decreases |m|
  {
    var j := PickKey(m);
    if j != k {
      MapTotalRemove(m - {j}, products, k);
      MapTotalRemove(m - {k}, products, j);
      RemoveCommutes(m, j, k);
    }
  }

  /** Removing two offers from a line map in either order gives the same map. */
  lemma RemoveCommutes(m: map<int, nat>, j: int, k: int)
    ensures m - {j} - {k} == m - {k} - {j}
  {
    assert m - {j} - {k} == m - {j, k};
  }

  /** Removing offer `p` lowers the map total by exactly its line total. */
  lemma MapTotalDelete(m: map<int, nat>, products: map<int, ProductInfo>, p: int)
    ensures MapTotal(m - {p}, products) ==
      MapTotal(m, products) - (if p in m then m[p] * PriceOf(products, p) else 0)
  {
    if p in m {
      MapTotalRemove(m, products, p);
    } else {
      assert m - {p} == m;
    }
  }

  /** Setting offer `p` to quantity `q` changes the map total by exactly the difference of
      the two line totals. */
  lemma MapTotalSet(m: map<int, nat>, products: map<int, ProductInfo>, p: int, q: nat)
    ensures MapTotal(m[p := q], products) ==
      MapTotal(m, products) - (if p in m then m[p] * PriceOf(products, p) else 0) + q * PriceOf(products, p)
  {
    var m' := m[p := q];
    MapTotalRemove(m', products, p);
    assert m' - {p} == m - {p};
    MapTotalDelete(m, products, p);
  }

  /** The rows after the first keep their lines unique. */
  lemma UniqueLinesTail(items: seq<OrderItem>)
    requires UniqueLines(items) && items != []
    ensures UniqueLines(items[1..])
  {
    forall i, j | 0 <= i < j < |items[1..]| && items[1..][i].order == items[1..][j].order
      ensures items[1..][i].productInfo != items[1..][j].productInfo
    {
      assert items[1..][i] == items[i + 1] && items[1..][j] == items[j + 1];
    }
  }

  /** An order's total splits into the first row's contribution and the rest's total. */
  lemma OrderTotalCons(items: seq<OrderItem>, products: map<int, ProductInfo>, o: int)
    requires Priced(items, products) && items != []
    ensures Priced(items[1..], products)
    ensures OrderTotal(items, products, o) ==
      (if items[0].order == o then TotalPrice(items[0], products) else 0) + OrderTotal(items[1..], products, o)
  {
    var x, rest := items[0], items[1..];
    assert forall it :: it in rest ==> it in items;
    var own := OrderedItems(rest, o);
    assert forall it :: it in own ==> it in items;
    if x.order == o {
      assert OrderedItems(items, o) == [x] + own;
      assert ([x] + own)[0] == x && ([x] + own)[1..] == own;
    } else {
      assert OrderedItems(items, o) == [] + own;
      assert [] + own == own;
    }
  }

  /** Under unique lines, the first row's offer has no other line of its order. */
  lemma FirstLineUnique(items: seq<OrderItem>)
    requires UniqueLines(items) && items != []
    ensures items[0].productInfo !in Lines(items[1..], items[0].order)
  {
    var x, rest := items[0], items[1..];
    forall j | 0 <= j < |rest| && rest[j].order == x.order
      ensures rest[j].productInfo != x.productInfo
    {
      assert items[j + 1] == rest[j];
    }
  }

  /** With unique (order, offer) lines, an order's total is the total of its line map: it depends
      on which offers the order holds and in what quantities, not on where its rows sit. */
  lemma {:induction false} OrderTotalIsMapTotal(items: seq<OrderItem>, products: map<int, ProductInfo>, o: int)
    requires UniqueLines(items) && Priced(items, products)
    ensures OrderTotal(items, products, o) == MapTotal(Lines(items, o), products)
  {
    if items != [] {
      var x, rest := items[0], items[1..];
      UniqueLinesTail(items);
      OrderTotalCons(items, products, o);
      OrderTotalIsMapTotal(rest, products, o);
      assert x in items;
      if x.order == o {
        FirstLineUnique(items);
        var m := Lines(items, o);
        assert m == Lines(rest, o)[x.productInfo := x.quantity];
        MapTotalRemove(m, products, x.productInfo);
        assert m - {x.productInfo} == Lines(rest, o);
      }
    }
  }

  /** Setting the line of offer `p` to quantity `q`, in whatever rows, changes the order's total
      by exactly the new line total minus the old one. */
  lemma OrderTotalSetLine(before: seq<OrderItem>, after: seq<OrderItem>, products: map<int, ProductInfo>,
                          o: int, p: int, q: nat)
    requires UniqueLines(before) && Priced(before, products)
    requires UniqueLines(after) && Priced(after, products)
    requires p in products && Lines(after, o) == Lines(before, o)[p := q]
    ensures OrderTotal(after, products, o) == OrderTotal(before, products, o)
      - (if p in Lines(before, o) then Lines(before, o)[p] * products[p].price else 0)
      + q * products[p].price
  {
    OrderTotalIsMapTotal(before, products, o);
    OrderTotalIsMapTotal(after, products, o);
    MapTotalSet(Lines(before, o), products, p, q);
  }
}
