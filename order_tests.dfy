/** The three scenarios of the order endpoint's test suite (without the assertion about the
    notification task) and two basket scenarios taken from the view, stated over a fresh store:
    what each request answers and what it leaves in the store. */
module OrderTests {
  import opened Models
  import opened Views

  /** A user without orders asks for the basket: an empty basket is created and returned. */
  method GetEmptyBasketCreatesOrder(user: int, products: map<int, ProductInfo>)
    returns (r: Result<int>, status: Status, lines: map<int, nat>)
    ensures r.Ok? && status == Basket && lines == map[]
  {
    var store := new Store(products, map[]);
    ghost var basket;
    r, basket := store.BasketAction(user, Get);
    status := store.orders[r.value].status;
    lines := Lines(store.items, r.value);
  }

  /** Asking twice for the basket returns the same basket with the same lines. */
  method RepeatedGetReturnsSameBasket(user: int, products: map<int, ProductInfo>)
    returns (first: Result<int>, second: Result<int>)
    ensures first.Ok? && first == second
  {
    var store := new Store(products, map[]);
    ghost var b1, b2;
    first, b1 := store.BasketAction(user, Get);
    second, b2 := store.BasketAction(user, Get);
  }

  /** Posting one entry for an existing offer with quantity 2 stores a line of quantity 2. */
  method PostBasketAddsItems(user: int, products: map<int, ProductInfo>, p: int)
    returns (r: Result<int>, lines: map<int, nat>)
    requires p != 0 && p in products
    ensures r.Ok? && lines == map[p := 2]
  {
    var store := new Store(products, map[]);
    ghost var basket;
    var entries := [Entry(Some(p), Some(2))];
    assert entries[1..] == [];
    assert PostOutcome(map[], products, entries) == Applied(map[p := 2], None);
    r, basket := store.BasketAction(user, Post(List(entries)));
    lines := Lines(store.items, r.value);
  }

  /** Posting an entry for an offer that does not exist answers with that id and stores nothing. */
  method PostUnknownOfferIsRejected(user: int, products: map<int, ProductInfo>, p: int)
    returns (r: Result<int>, lines: map<int, nat>, basket: Option<int>)
    requires p != 0 && p !in products
    ensures r == Err(UnknownProductInfo(p)) && basket.Some? && lines == map[]
  {
    var store := new Store(products, map[]);
    ghost var b;
    r, b := store.BasketAction(user, Post(List([Entry(Some(p), None)])));
    basket := None;
    var owned := store.BasketsOf(user);
    if owned != {} {
      HasElement(owned);
      var x :| x in owned;
      basket := Some(x);
      lines := Lines(store.items, x);
    }
  }

  /** A fresh store with contact 1 of `user` and a basket of `user` holding one line for `p`. */
  method BasketWithOneLine(user: int, products: map<int, ProductInfo>, p: int)
    returns (store: Store, ghost basket: int)
    requires p != 0 && p in products
    ensures fresh(store) && store.Valid() && store.AtMostOneBasket()
    ensures store.contacts == map[1 := Contact(user)]
    ensures store.BasketsOf(user) == {basket} && OrderedItems(store.items, basket) != []
  {
    store := new Store(products, map[1 := Contact(user)]);
    var entries := [Entry(Some(p), Some(1))];
    assert entries[1..] == [];
    assert PostOutcome(map[], products, entries) == Applied(map[p := 1], None);
    var posted;
    posted, basket := store.BasketAction(user, Post(List(entries)));
    LineMeansRows(store.items, basket, p);
  }

  /** A basket with one line, confirmed with one of the user's contacts, becomes a new order
      bound to that contact, and the user no longer has a basket: the next basket request
      creates a fresh, empty one. */
  method ConfirmTurnsBasketIntoOrder(user: int, products: map<int, ProductInfo>, p: int)
    returns (r: Result<int>, order: Order, baskets: set<int>, next: Result<int>, nextLines: map<int, nat>)
    requires p != 0 && p in products
    ensures r.Ok? && order == Order(user, New, Some(1)) && baskets == {}
    ensures next.Ok? && next.value != r.value && nextLines == map[]
  {
    var store;
    ghost var basket, b, b';
    store, basket := BasketWithOneLine(user, products, p);
    r, b := store.Confirm(user, Some(1));
    order := store.orders[r.value];
    baskets := store.BasketsOf(user);
    next, b' := store.BasketAction(user, Get);
    nextLines := Lines(store.items, next.value);
  }
}
