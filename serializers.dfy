/** The order serializers: the computed total of an order's representation,
    and the fields a client may write through them. */
module Serializers {
  import opened Models

  /** The total an order's representation shows: an accumulator over the order's own
      lines, adding each line's price times its quantity. */
  method GetTotalSum(items: seq<OrderItem>, products: map<int, ProductInfo>, order: int) returns (total: int)
    requires Priced(items, products)
    ensures total == OrderTotal(items, products, order)
  {
    var lines := OrderedItems(items, order);
    total := 0;
    for i := 0 to |lines|
      invariant Priced(lines[i..], products)
      invariant total + LineSum(lines[i..], products) == LineSum(lines, products)
    {
      var item := lines[i];
      LineSumStep(lines, products, i);
      total := total + products[item.productInfo].price * item.quantity;
    }
  }

  // ---------- Writable fields ----------

  /** The fields of an order's representation. */
  datatype OrderField = IdField | UserField | StatusField | DtField | OrderedItemsField | TotalSumField

  /** The fields the order serializer lists, in order. */
  const OrderFields: seq<OrderField> := [IdField, UserField, StatusField, DtField, OrderedItemsField, TotalSumField]

  /** The fields the order serializer declares read-only: its read-only list, the nested
      lines (declared read-only) and the primary key. */
  const OrderReadOnlyFields: set<OrderField> := {UserField, StatusField, DtField, TotalSumField, OrderedItemsField, IdField}

  /** A field a client request can set through the order serializer. */
  predicate OrderFieldWritable(f: OrderField)
  {
    f in OrderFields && f !in OrderReadOnlyFields
  }

  /** What a client sends for an order: any of these may be present. */
  datatype OrderInput = OrderInput(user: Option<int>, status: Option<Status>)

  /** The validated data the serializer keeps from a request: read-only fields are dropped. */
  function ValidatedOrderData(input: OrderInput): (d: OrderInput)
    ensures d.user.Some? ==> OrderFieldWritable(UserField) && d.user == input.user
    ensures d.status.Some? ==> OrderFieldWritable(StatusField) && d.status == input.status
  {
    OrderInput(if OrderFieldWritable(UserField) then input.user else None,
               if OrderFieldWritable(StatusField) then input.status else None)
  }

  /** The row a create saves: the owner passed to save() overrides the data, the status
      takes its default unless the data carries one, and no contact is set. */
  function CreatedOrder(owner: int, d: OrderInput): Order
  {
    Order(owner, if d.status.Some? then d.status.value else NewOrder(owner).status, None)
  }

  /** The row an update saves: the validated data replaces the fields it carries. */
  function UpdatedOrder(o: Order, d: OrderInput): Order
  {
    o.(user := if d.user.Some? then d.user.value else o.user,
       status := if d.status.Some? then d.status.value else o.status)
  }

  /** Whatever a client sends, a created order belongs to the requesting user and starts
      in basket status. */
  lemma CreateStampsOwner(owner: int, input: OrderInput)
    ensures CreatedOrder(owner, ValidatedOrderData(input)) == NewOrder(owner)
  {
    assert !OrderFieldWritable(StatusField);
  }

  /** Whatever a client sends, an update changes neither the owner nor the status. */
  lemma UpdateKeepsOwnerAndStatus(o: Order, input: OrderInput)
    ensures UpdatedOrder(o, ValidatedOrderData(input)) == o
  {
    assert !OrderFieldWritable(UserField) && !OrderFieldWritable(StatusField);
  }

  /** The fields of a line's representation. */
  datatype ItemField = ItemIdField | ProductInfoField | ProductField | ShopField | PriceField | QuantityField | OrderRefField

  /** The fields the line serializer lists, in order. */
  const ItemFields: seq<ItemField> :=
    [ItemIdField, ProductInfoField, ProductField, ShopField, PriceField, QuantityField, OrderRefField]

  /** The line fields declared read-only: the denormalised product, shop and price, the
      order reference, and the primary key. */
  const ItemReadOnlyFields: set<ItemField> := {ProductField, ShopField, PriceField, OrderRefField, ItemIdField}

  predicate ItemFieldWritable(f: ItemField)
  {
    f in ItemFields && f !in ItemReadOnlyFields
  }

  /** What a client sends for a line. */
  datatype ItemInput = ItemInput(order: Option<int>, productInfo: Option<int>, quantity: Option<int>)

  /** The validated data the line serializer keeps from a request. */
  function ValidatedItemData(input: ItemInput): (d: ItemInput)
    ensures d.order.Some? ==> ItemFieldWritable(OrderRefField)
    ensures d.productInfo.Some? ==> d.productInfo == input.productInfo
    ensures d.quantity.Some? ==> d.quantity == input.quantity
  {
    ItemInput(if ItemFieldWritable(OrderRefField) then input.order else None,
              if ItemFieldWritable(ProductInfoField) then input.productInfo else None,
              if ItemFieldWritable(QuantityField) then input.quantity else None)
  }

  /** A line's order can never be set by a client; its offer and quantity pass through. */
  lemma LineOrderReadOnly(input: ItemInput)
    ensures ValidatedItemData(input).order == None
    ensures ValidatedItemData(input).productInfo == input.productInfo
    ensures ValidatedItemData(input).quantity == input.quantity
  {
    assert !ItemFieldWritable(OrderRefField);
    assert ItemFieldWritable(ProductInfoField) && ItemFieldWritable(QuantityField) by {
      assert ItemFields[1] == ProductInfoField && ItemFields[5] == QuantityField;
    }
  }
}
