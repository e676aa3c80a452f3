/** The order endpoint: a user's basket (get-or-create, add/update/remove lines by
    request), confirmation of the basket into a placed order, and the generic create
    and update of orders, over a store of orders, order lines and contacts. */
module Views {
  import opened Models
  import Serializers

  /** The outcomes a request can end in other than success. */
  datatype Error =
    | MultipleBaskets              // more than one basket matched a single-object lookup
    | ItemsNotNonEmptyList         // POST: "items" is missing, not a list, or empty
    | MissingProductInfo           // POST: an entry without a (truthy) offer id
    | UnknownProductInfo(id: int)  // POST: an entry naming an offer that does not exist
    | IdsNotNonEmptyList           // DELETE: "items" is missing, not a list, or empty
    | NoBasket                     // confirm: the user has no basket
    | EmptyBasket                  // confirm: the basket has no lines
    | ContactRequired              // confirm: no (truthy) contact id
    | ContactNotFound              // confirm: no such contact, or another user's
    | OrderNotFound                // generic update: not one of the user's orders

  datatype Result<T> = Ok(value: T) | Err(error: Error)

  // ---------- Request payloads ----------

  /** A request field that should hold a list; a missing field reads as the empty list. */
  datatype Payload<T> = Missing | NotAList | List(elements: seq<T>)

  predicate NonEmptyList<T>(p: Payload<T>)
  {
    p.List? && p.elements != []
  }

  /** One entry of a POST: an offer id and a quantity, either of which may be absent. */
  datatype Entry = Entry(productInfo: Option<int>, quantity: Option<int>)

  /** An id the request leaves out, or gives as 0, counts as not given. */
  predicate Falsy(id: Option<int>)
  {
    id.None? || id.value == 0
  }

  /** The requested quantity; an entry without one asks for the default. */
  function Quantity(e: Entry): (q: int)
    ensures e.quantity.None? ==> q == DefaultQuantity
    ensures e.quantity.Some? ==> q == e.quantity.value
  {
    if e.quantity.Some? then e.quantity.value else DefaultQuantity
  }

  /** Why an entry is rejected, if it is: a missing offer id first, then an unknown offer. */
  function EntryError(e: Entry, products: map<int, ProductInfo>): (r: Option<Error>)
    ensures r.None? <==> !Falsy(e.productInfo) && e.productInfo.value in products
    ensures r == Some(MissingProductInfo) <==> Falsy(e.productInfo)
    ensures r.Some? && r != Some(MissingProductInfo) ==> r == Some(UnknownProductInfo(e.productInfo.value))
  {
    if Falsy(e.productInfo) then Some(MissingProductInfo)
    else if e.productInfo.value !in products then Some(UnknownProductInfo(e.productInfo.value))
    else None
  }

  /** The effect of one accepted entry on the basket's lines: a quantity of 0 or less removes
      the offer's line, any other quantity makes it exactly that, and no other line changes. */
  function SetLine(lines: map<int, nat>, p: int, q: int): (r: map<int, nat>)
    ensures q <= 0 ==> p !in r
    ensures q >= 1 ==> p in r && r[p] == q
    ensures forall k :: k != p ==> (k in r <==> k in lines)
    ensures forall k :: k != p && k in r ==> r[k] == lines[k]
  {
    if q <= 0 then lines - {p} else lines[p := q]
  }

  /** The basket's lines after a request, and the error it answered with, if any. */
  datatype Applied = Applied(lines: map<int, nat>, error: Option<Error>)

  /** A POST's entries applied one at a time, in order, stopping at the first rejected
      entry; the entries before it stay applied. */
  function PostOutcome(lines: map<int, nat>, products: map<int, ProductInfo>, entries: seq<Entry>): (r: Applied)
    ensures forall k :: k in r.lines && (k !in lines || r.lines[k] != lines[k]) ==>
      k in products && r.lines[k] >= 1 && Named(entries, k)
    decreases |entries|
  {
    if entries == [] then Applied(lines, None)
    else match EntryError(entries[0], products)
      case Some(err) => Applied(lines, Some(err))
      case None =>
        assert forall k :: Named(entries[1..], k) ==> Named(entries, k) by {
          forall k | Named(entries[1..], k) ensures Named(entries, k) {
            var i :| 0 <= i < |entries[1..]| && entries[1..][i].productInfo == Some(k);
            assert entries[i + 1] == entries[1..][i];
          }
        }
        PostOutcome(SetLine(lines, entries[0].productInfo.value, Quantity(entries[0])), products, entries[1..])
  }

  /** Whether some entry names offer `k`. */
  ghost predicate Named(entries: seq<Entry>, k: int)
  {
    exists i :: 0 <= i < |entries| && entries[i].productInfo == Some(k)
  }

  /** The three methods of the basket endpoint. */
  datatype BasketRequest = Get | Post(items: Payload<Entry>) | Delete(ids: Payload<int>)

  function IdSet(ids: seq<int>): set<int>
  {
    set x | x in ids
  }

  /** What a basket request does to the basket's lines, and how it answers. */
  function BasketOutcome(req: BasketRequest, lines: map<int, nat>, products: map<int, ProductInfo>): (r: Applied)
    ensures req.Get? ==> r == Applied(lines, None)
    ensures r.error.Some? && !req.Post? ==> r.lines == lines
  {
    match req
    case Get => Applied(lines, None)
    case Post(items) =>
      if !NonEmptyList(items) then Applied(lines, Some(ItemsNotNonEmptyList))
      else PostOutcome(lines, products, items.elements)
    case Delete(ids) =>
      if !NonEmptyList(ids) then Applied(lines, Some(IdsNotNonEmptyList))
      else Applied(lines - IdSet(ids.elements), None)
  }

  // ---------- Properties of the basket requests ----------

  /** A DELETE only removes lines, and any line a basket request adds or changes belongs to an
      existing offer and has a quantity of at least 1. */
  lemma BasketOutcomeChanges(req: BasketRequest, lines: map<int, nat>, products: map<int, ProductInfo>)
    ensures var r := BasketOutcome(req, lines, products);
      && (req.Delete? ==> r.lines.Keys <= lines.Keys && forall k :: k in r.lines ==> r.lines[k] == lines[k])
      && (forall k :: k in r.lines && (k !in lines || r.lines[k] != lines[k]) ==> k in products && r.lines[k] >= 1)
  {
  }

  /** A POST answers without error exactly when every entry names an existing offer. */
  lemma {:induction false} PostErrorIffInvalid(lines: map<int, nat>, products: map<int, ProductInfo>, entries: seq<Entry>)
    ensures PostOutcome(lines, products, entries).error.None? <==>
      forall i :: 0 <= i < |entries| ==> EntryError(entries[i], products).None?
    decreases |entries|
  {
    if entries != [] && EntryError(entries[0], products).None? {
      var e := entries[0];
      PostErrorIffInvalid(SetLine(lines, e.productInfo.value, Quantity(e)), products, entries[1..]);
      assert forall i :: 1 <= i < |entries| ==> entries[i] == entries[1..][i - 1];
    }
  }

  /** A POST only ever answers with an entry's error. */
  lemma {:induction false} PostErrorIsEntryError(lines: map<int, nat>, products: map<int, ProductInfo>, entries: seq<Entry>)
    ensures var err := PostOutcome(lines, products, entries).error;
      err.Some? ==> err.value.MissingProductInfo? || err.value.UnknownProductInfo?
    decreases |entries|
  {
    if entries != [] && EntryError(entries[0], products).None? {
      var e := entries[0];
      PostErrorIsEntryError(SetLine(lines, e.productInfo.value, Quantity(e)), products, entries[1..]);
    }
  }

  /** A POST whose entry `k` is the first rejected one answers with that entry's error,
      keeps the entries before it applied and applies none after it. */
  lemma {:induction false} PostStopsAtFirstError(lines: map<int, nat>, products: map<int, ProductInfo>, entries: seq<Entry>, k: int)
    requires 0 <= k < |entries|
    requires forall i :: 0 <= i < k ==> EntryError(entries[i], products).None?
    requires EntryError(entries[k], products).Some?
    ensures PostOutcome(lines, products, entries)
         == Applied(PostOutcome(lines, products, entries[..k]).lines, EntryError(entries[k], products))
    decreases |entries|
  {
    if k > 0 {
      var e := entries[0];
      assert entries[1..][..k - 1] == entries[..k][1..];
      assert forall i :: 0 <= i < k - 1 ==> entries[1..][i] == entries[i + 1];
      PostStopsAtFirstError(SetLine(lines, e.productInfo.value, Quantity(e)), products, entries[1..], k - 1);
    }
  }

  /** A POST leaves the line of an offer none of its entries names exactly as it was. */
  lemma {:induction false} PostUntouched(lines: map<int, nat>, products: map<int, ProductInfo>, entries: seq<Entry>, p: int)
    requires forall i :: 0 <= i < |entries| ==> entries[i].productInfo != Some(p)
    ensures var r := PostOutcome(lines, products, entries).lines;
      (p in r <==> p in lines) && (p in r ==> r[p] == lines[p])
    decreases |entries|
  {
    if entries != [] && EntryError(entries[0], products).None? {
      var e := entries[0];
      assert forall i :: 0 <= i < |entries[1..]| ==> entries[1..][i] == entries[i + 1];
      PostUntouched(SetLine(lines, e.productInfo.value, Quantity(e)), products, entries[1..], p);
    }
  }

  /** In an accepted POST, the last entry for an offer decides its line: removed when that
      entry's quantity is 0 or less, otherwise exactly that quantity. */
  lemma {:induction false} PostLastWins(lines: map<int, nat>, products: map<int, ProductInfo>, entries: seq<Entry>, j: int)
    requires 0 <= j < |entries|
    requires PostOutcome(lines, products, entries).error.None?
    requires entries[j].productInfo.Some?
    requires forall i :: j < i < |entries| ==> entries[i].productInfo != entries[j].productInfo
    ensures var r := PostOutcome(lines, products, entries).lines;
      var p, q := entries[j].productInfo.value, Quantity(entries[j]);
      (q <= 0 ==> p !in r) && (q >= 1 ==> p in r && r[p] == q)
    decreases |entries|
  {
    var e := entries[0];
    assert EntryError(e, products).None?;
    var next := SetLine(lines, e.productInfo.value, Quantity(e));
    assert forall i :: 0 <= i < |entries[1..]| ==> entries[1..][i] == entries[i + 1];
    if j == 0 {
      PostUntouched(next, products, entries[1..], e.productInfo.value);
    } else {
      PostLastWins(next, products, entries[1..], j - 1);
    }
  }

  /** A basket request with a missing, non-list or empty "items" answers with an error and
      leaves the lines as they were. */
  lemma MalformedRequestChangesNothing(req: BasketRequest, lines: map<int, nat>, products: map<int, ProductInfo>)
    requires req.Post? ==> !NonEmptyList(req.items)
    requires req.Delete? ==> !NonEmptyList(req.ids)
    requires !req.Get?
    ensures BasketOutcome(req, lines, products).lines == lines
    ensures BasketOutcome(req, lines, products).error ==
      Some(if req.Post? then ItemsNotNonEmptyList else IdsNotNonEmptyList)
  {
  }

  /** A DELETE with a non-empty list removes exactly the lines of the listed offers; ids with
      no line are ignored and every other line keeps its quantity. */
  lemma DeleteRemovesExactly(lines: map<int, nat>, products: map<int, ProductInfo>, ids: seq<int>, p: int)
    requires ids != []
    ensures var r := BasketOutcome(Delete(List(ids)), lines, products);
      && r.error.None?
      && (p in r.lines <==> p in lines && p !in ids)
      && (p in r.lines ==> r.lines[p] == lines[p])
  {
  }

  // ---------- The store ----------

  /** An element of a non-empty set. */
  lemma Pick(s: set<int>) returns (x: int)
    requires s != {}
    ensures x in s
  {
    if forall y :: y !in s {
      assert false;
    }
    x :| x in s;
  }

  /** Cardinality of a set whose elements are all equal. */
  lemma AtMostOne(s: set<int>)
    requires forall a, b :: a in s && b in s ==> a == b
    ensures |s| <= 1
  {
    if s != {} {
      var x := Pick(s);
      assert forall y :: y in s <==> y in {x};
      assert s == {x};
    }
  }

  /** Two distinct elements make a set of at least two. */
  lemma TwoDistinct(s: set<int>, a: int, b: int)
    requires a in s && b in s && a != b
    ensures |s| >= 2
  {
    assert {a, b} <= s;
    assert |{a, b}| == 2;
    assert |s - {a, b}| == |s| - 2;
  }

  /** The orders, order lines and contacts the order endpoint works on, and the catalogue
      of offers it reads. */
  class Store {
    const products: map<int, ProductInfo>
    var contacts: map<int, Contact>
    var orders: map<int, Order>
    var items: seq<OrderItem>
    var nextOrderId: int

    /** Referential integrity, the unique (order, offer) pair of lines, and positive quantities. */
    ghost predicate Valid()
      reads this
    {
      && (forall id :: id in orders ==> id < nextOrderId)
      && (forall id :: id in orders && orders[id].contact.Some? ==> orders[id].contact.value in contacts)
      && (forall it :: it in items ==> it.order in orders && it.productInfo in products && it.quantity >= 1)
      && UniqueLines(items)
    }

    /** The baskets of `user`: its orders in basket status. */
    function BasketsOf(user: int): set<int>
      reads this
    {
      set id | id in orders && orders[id].user == user && orders[id].status == Basket
    }

    /** No user has two baskets. */
    ghost predicate AtMostOneBasket()
      reads this
    {
      forall a, b ::
        (a in orders && b in orders && orders[a].status == Basket && orders[b].status == Basket &&
         orders[a].user == orders[b].user) ==> a == b
    }

    /** The orders a user's requests can address: their own. */
    function OrdersOf(user: int): set<int>
      reads this
    {
      set id | id in orders && orders[id].user == user
    }

    /** Whether `c` is one of `user`'s contacts. */
    predicate OwnedContact(user: int, c: int)
      reads this
    {
      c in contacts && contacts[c].user == user
    }

    constructor (products: map<int, ProductInfo>, contacts: map<int, Contact>)
      ensures Valid() && AtMostOneBasket()
      ensures this.products == products && this.contacts == contacts
      ensures orders == map[] && items == []
    {
      this.products := products;
      this.contacts := contacts;
      orders := map[];
      items := [];
      nextOrderId := 1;
    }

    /** Fetches the user's basket, creating an empty one when the user has none. A lookup that
        matches more than one basket fails. */
    method GetOrCreateBasket(user: int) returns (r: Result<int>)
      requires Valid()
      modifies this`orders, this`nextOrderId
      ensures Valid()
      ensures r == Err(MultipleBaskets) <==> |old(BasketsOf(user))| > 1
      ensures r.Err? ==> r.error == MultipleBaskets && orders == old(orders)
      ensures r.Ok? ==> BasketsOf(user) == {r.value}
      ensures r.Ok? && r.value in old(orders) ==> orders == old(orders)
      ensures r.Ok? && r.value !in old(orders) ==>
        && old(BasketsOf(user)) == {}
        && orders == old(orders)[r.value := NewOrder(user)]
        && Lines(items, r.value) == map[]
      ensures old(AtMostOneBasket()) ==> r.Ok? && AtMostOneBasket()
    {
      var baskets := BasketsOf(user);
      if |baskets| > 1 {
        if AtMostOneBasket() {
          AtMostOne(baskets);
        }
        return Err(MultipleBaskets);
      }
      if baskets != {} {
        HasElement(baskets);
        var b :| b in baskets;
        forall c | c in baskets ensures c == b {
          if c != b {
            TwoDistinct(baskets, b, c);
          }
        }
        assert forall y :: y in baskets <==> y in {b};
        return Ok(b);
      }
      var b := nextOrderId;
      assert forall x :: x in orders && orders[x].user == user && orders[x].status == Basket ==> x in baskets;
      orders := orders[b := NewOrder(user)];
      nextOrderId := nextOrderId + 1;
      assert forall y :: y in BasketsOf(user) <==> y in {b};
      forall i | 0 <= i < |items| ensures items[i].order != b {
        assert items[i] in items;
      }
      NoLines(items, b);
      r := Ok(b);
    }

    /** Deletes the lines of order `b` whose offer is in `ps`. */
    method RemoveLines(b: int, ps: set<int>)
      requires Valid()
      modifies this`items
      ensures Valid()
      ensures Lines(items, b) == old(Lines(items, b)) - ps
      ensures forall o :: o != b ==> OrderedItems(items, o) == old(OrderedItems(items, o))
      ensures OrderTotal(items, products, b) == MapTotal(old(Lines(items, b)) - ps, products)
    {
      LinesDrop(items, b, ps);
      UniqueLinesDrop(items, b, ps);
      forall o | o != b
        ensures OrderedItems(DropLines(items, b, ps), o) == OrderedItems(items, o)
      {
        OrderedItemsDrop(items, b, ps, o);
      }
      items := DropLines(items, b, ps);
      OrderTotalIsMapTotal(items, products, b);
    }

    /** Gets or creates the line of order `b` for offer `p` with quantity `q`, and stores `q`
        when an existing line holds another quantity. */
    method SaveLine(b: int, p: int, q: int)
      requires Valid() && b in orders && p in products && q >= 1
      modifies this`items
      ensures Valid()
      ensures Lines(items, b) == old(Lines(items, b))[p := q]
      ensures forall o :: o != b ==> OrderedItems(items, o) == old(OrderedItems(items, o))
      ensures p !in old(Lines(items, b)) ==> items == old(items) + [OrderItem(b, p, q)]
      ensures OrderTotal(items, products, b) == old(OrderTotal(items, products, b))
        - (if p in old(Lines(items, b)) then old(Lines(items, b))[p] * products[p].price else 0)
        + q * products[p].price
    {
      ghost var before := items;
      var k := FindLine(items, b, p);
      if k.None? {
        var x := OrderItem(b, p, q);
        LinesAppend(items, x);
        forall o | o != b
          ensures OrderedItems(items + [x], o) == OrderedItems(items, o)
        {
          OrderedItemsAppend(items, x, o);
        }
        UniqueLinesAppend(items, x);
        items := items + [x];
      } else {
        var i := k.value;
        LinesAt(items, i);
        if items[i].quantity != q {
          LinesUpdate(items, i, q);
          forall o | o != b
            ensures OrderedItems(items[i := items[i].(quantity := q)], o) == OrderedItems(items, o)
          {
            OrderedItemsUpdate(items, i, q, o);
          }
          UniqueLinesSetQuantity(items, i, q);
          ghost var old' := items;
          items := items[i := items[i].(quantity := q)];
          assert forall it :: it in items ==> it in old' || it == items[i];
        }
      }
      OrderTotalSetLine(before, items, products, b, p, q);
    }

    /** The POST branch on basket `b`: applies the entries one at a time, in order, and
        answers with the first rejected entry's error, if any. */
    method PostLines(b: int, payload: Payload<Entry>) returns (r: Result<int>)
      requires Valid() && b in orders
      modifies this`items
      ensures Valid()
      ensures var out := BasketOutcome(Post(payload), old(Lines(items, b)), products);
        && Lines(items, b) == out.lines && r == (if out.error.Some? then Err(out.error.value) else Ok(b))
        && OrderTotal(items, products, b) == MapTotal(out.lines, products)
      ensures forall o :: o != b ==> OrderedItems(items, o) == old(OrderedItems(items, o))
    {
      if !NonEmptyList(payload) {
        OrderTotalIsMapTotal(items, products, b);
        return Err(ItemsNotNonEmptyList);
      }
      var entries := payload.elements;
      ghost var start := Lines(items, b);
      for i := 0 to |entries|
        invariant Valid()
        invariant PostOutcome(start, products, entries) == PostOutcome(Lines(items, b), products, entries[i..])
        invariant forall o :: o != b ==> OrderedItems(items, o) == old(OrderedItems(items, o))
      {
        var e := entries[i];
        assert entries[i..][0] == e && entries[i..][1..] == entries[i + 1..];
        var q := Quantity(e);
        if Falsy(e.productInfo) {
          OrderTotalIsMapTotal(items, products, b);
          return Err(MissingProductInfo);
        }
        var p := e.productInfo.value;
        if p !in products {
          OrderTotalIsMapTotal(items, products, b);
          return Err(UnknownProductInfo(p));
        }
        if q <= 0 {
          RemoveLines(b, {p});
        } else {
          SaveLine(b, p, q);
        }
      }
      OrderTotalIsMapTotal(items, products, b);
      r := Ok(b);
    }

    /** The DELETE branch on basket `b`: removes the lines of the listed offers. */
    method DeleteLines(b: int, payload: Payload<int>) returns (r: Result<int>)
      requires Valid() && b in orders
      modifies this`items
      ensures Valid()
      ensures var out := BasketOutcome(Delete(payload), old(Lines(items, b)), products);
        && Lines(items, b) == out.lines && r == (if out.error.Some? then Err(out.error.value) else Ok(b))
        && OrderTotal(items, products, b) == MapTotal(out.lines, products)
      ensures forall o :: o != b ==> OrderedItems(items, o) == old(OrderedItems(items, o))
    {
      if !NonEmptyList(payload) {
        OrderTotalIsMapTotal(items, products, b);
        return Err(IdsNotNonEmptyList);
      }
      ghost var start := Lines(items, b);
      RemoveLines(b, IdSet(payload.elements));
      assert BasketOutcome(Delete(payload), start, products) == Applied(start - IdSet(payload.elements), None);
      r := Ok(b);
    }

    /** The basket endpoint: gets or creates the user's basket, then serves the request on it.
        `basket` names the basket the request worked on. */
    method BasketAction(user: int, req: BasketRequest) returns (r: Result<int>, ghost basket: int)
      requires Valid()
      modifies this`orders, this`nextOrderId, this`items
      ensures Valid()
      ensures r == Err(MultipleBaskets) <==> |old(BasketsOf(user))| > 1
      ensures r == Err(MultipleBaskets) ==> orders == old(orders) && items == old(items)
      ensures r != Err(MultipleBaskets) ==>
        && BasketsOf(user) == {basket}
        && (basket in old(orders) ==> orders == old(orders))
        && (basket !in old(orders) ==>
              old(BasketsOf(user)) == {} && orders == old(orders)[basket := NewOrder(user)]
              && old(Lines(items, basket)) == map[])
        && var out := BasketOutcome(req, old(Lines(items, basket)), products);
           && Lines(items, basket) == out.lines && r == (if out.error.Some? then Err(out.error.value) else Ok(basket))
           && OrderTotal(items, products, basket) == MapTotal(out.lines, products)
      ensures req.Get? ==> items == old(items)
      ensures forall o :: o != basket ==> OrderedItems(items, o) == old(OrderedItems(items, o))
      ensures old(AtMostOneBasket()) ==> r != Err(MultipleBaskets) && AtMostOneBasket()
    {
      var g := GetOrCreateBasket(user);
      if g.Err? {
        return g, 0;
      }
      var b := g.value;
      basket := b;
      PostErrorIsEntryError(old(Lines(items, b)), products, if req.Post? && req.items.List? then req.items.elements else []);
      match req
      case Get =>
        OrderTotalIsMapTotal(items, products, b);
        r := Ok(b);
      case Post(payload) =>
        r := PostLines(b, payload);
      case Delete(ids) =>
        r := DeleteLines(b, ids);
    }

    /** The confirm endpoint: checks, in order, that the user has a basket, that it has
        lines, that a contact id is given and that it names one of the user's contacts;
        then binds the contact and moves the basket to status new. */
    method Confirm(user: int, contactId: Option<int>) returns (r: Result<int>, ghost basket: int)
      requires Valid()
      modifies this`orders
      ensures Valid()
      ensures r.Err? ==> orders == old(orders)
      ensures r == Err(NoBasket) <==> old(BasketsOf(user)) == {}
      ensures r == Err(MultipleBaskets) <==> |old(BasketsOf(user))| > 1
      ensures |old(BasketsOf(user))| == 1 ==>
        && old(BasketsOf(user)) == {basket}
        && (OrderedItems(items, basket) == [] ==> r == Err(EmptyBasket))
        && (OrderedItems(items, basket) != [] && Falsy(contactId) ==> r == Err(ContactRequired))
        && (OrderedItems(items, basket) != [] && !Falsy(contactId) && !OwnedContact(user, contactId.value) ==>
              r == Err(ContactNotFound))
        && (OrderedItems(items, basket) != [] && !Falsy(contactId) && OwnedContact(user, contactId.value) ==>
              r == Ok(basket))
      ensures r.Ok? ==>
        && orders == old(orders)[basket := old(orders)[basket].(status := New, contact := contactId)]
        && BasketsOf(user) == {}
      ensures old(AtMostOneBasket()) ==> AtMostOneBasket()
    {
      basket := 0;
      var baskets := BasketsOf(user);
      if baskets == {} {
        return Err(NoBasket), basket;
      }
      if |baskets| > 1 {
        return Err(MultipleBaskets), basket;
      }
      HasElement(baskets);
      var b :| b in baskets;
      forall c | c in baskets ensures c == b {
        if c != b {
          TwoDistinct(baskets, b, c);
        }
      }
      assert forall y :: y in baskets <==> y in {b};
      basket := b;
      if OrderedItems(items, b) == [] {
        return Err(EmptyBasket), basket;
      }
      if Falsy(contactId) {
        return Err(ContactRequired), basket;
      }
      var c := contactId.value;
      if !OwnedContact(user, c) {
        return Err(ContactNotFound), basket;
      }
      assert forall x :: x in orders && orders[x].user == user && orders[x].status == Basket ==> x in baskets;
      orders := orders[b := orders[b].(contact := Some(c), status := New)];
      assert forall y :: y in BasketsOf(user) <==> y in {};
      r := Ok(b);
    }

    /** The generic create of the order endpoint: the requesting user becomes the owner and
        the order starts as a basket, whatever the request carries. */
    method CreateOrder(user: int, input: Serializers.OrderInput) returns (id: int)
      requires Valid()
      modifies this`orders, this`nextOrderId
      ensures Valid()
      ensures id !in old(orders) && orders == old(orders)[id := NewOrder(user)]
      ensures BasketsOf(user) == old(BasketsOf(user)) + {id}
      ensures old(BasketsOf(user)) != {} ==> !AtMostOneBasket()
    {
      var data := Serializers.ValidatedOrderData(input);
      Serializers.CreateStampsOwner(user, input);
      ghost var before := BasketsOf(user);
      id := nextOrderId;
      orders := orders[id := Serializers.CreatedOrder(user, data)];
      nextOrderId := nextOrderId + 1;
      assert forall y :: y in BasketsOf(user) <==> y in before + {id};
      if before != {} {
        HasElement(before);
        var x :| x in before;
        assert x in orders && x != id && orders[x].status == Basket && orders[x].user == user;
        assert orders[id].status == Basket && orders[id].user == user;
      }
    }

    /** The generic update of the order endpoint: only the user's own orders are found, and
        the serializer keeps no field of the request, so no order changes. */
    method UpdateOrder(user: int, id: int, input: Serializers.OrderInput) returns (r: Result<int>)
      requires Valid()
      modifies this`orders
      ensures Valid() && orders == old(orders)
      ensures r.Ok? <==> id in orders && orders[id].user == user
      ensures r.Err? ==> r.error == OrderNotFound
      ensures r.Ok? ==> r.value == id
    {
      if id !in OrdersOf(user) {
        return Err(OrderNotFound);
      }
      Serializers.UpdateKeepsOwnerAndStatus(orders[id], input);
      orders := orders[id := Serializers.UpdatedOrder(orders[id], Serializers.ValidatedOrderData(input))];
      r := Ok(id);
    }

    /** Deleting a contact: orders that referred to it keep existing, with no contact. */
    method DeleteContact(c: int)
      requires Valid()
      modifies this`contacts, this`orders
      ensures Valid()
      ensures contacts == old(contacts) - {c}
      ensures orders == ClearContact(old(orders), c)
      ensures old(AtMostOneBasket()) ==> AtMostOneBasket()
    {
      contacts := contacts - {c};
      orders := ClearContact(orders, c);
    }
  }
}
