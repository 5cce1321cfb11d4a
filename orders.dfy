/**
 * The bill and cart read models of `users/orderserializers.py`: the values the bill serializers
 * compute from a bill's order items, and the price of a cart line.
 */
module Orders {
  import opened Wrappers

  type BillId = nat
  type ProductId = nat

  /** The status shown for a bill that has not been paid ("awaiting payment"). */
  const AwaitingPayment: string := "결제대기"

  datatype Bill = Bill(id: BillId, isPaid: bool)

  /** An order-item row: its bill, the product it refers to, price and amount, and its status id. */
  datatype OrderItem = OrderItem(bill: BillId, productId: ProductId, price: int, amount: int, statusId: int)

  datatype Product = Product(name: string, price: int, image: string)

  datatype CartItem = CartItem(product: Product, amount: int)

  // ---------------------------------------------------------------- the bill's items

  /** `bill.orderitem_set`: the rows of the order-item table that belong to bill `b`, in table order. */
  function ItemsOf(table: seq<OrderItem>, b: BillId): (r: seq<OrderItem>)
    ensures |r| <= |table|
    ensures forall x :: x in r ==> x.bill == b && x in table
    ensures forall x :: x in table && x.bill == b ==> x in r
  {
    if table == [] then []
    else
      var last := table[|table| - 1];
      ItemsOf(table[..|table| - 1], b) + (if last.bill == b then [last] else [])
  }

  /** The positions of the table whose row belongs to bill `b`. */
  function RowsOf(table: seq<OrderItem>, b: BillId): set<int>
  {
    set i | 0 <= i < |table| && table[i].bill == b
  }

  lemma RowsOfFront(table: seq<OrderItem>, b: BillId)
    requires table != []
    ensures var n := |table| - 1;
            RowsOf(table, b) == RowsOf(table[..n], b) + (if table[n].bill == b then {n} else {})
  {
  }

  lemma {:induction false} ItemsOfCountsRows(table: seq<OrderItem>, b: BillId)
    ensures |ItemsOf(table, b)| == |RowsOf(table, b)|
  {
    if table != [] {
      var n := |table| - 1;
      ItemsOfCountsRows(table[..n], b);
      RowsOfFront(table, b);
      assert n !in RowsOf(table[..n], b);
    }
  }

  lemma {:induction false} ItemsOfConcat(s: seq<OrderItem>, t: seq<OrderItem>, b: BillId)
    ensures ItemsOf(s + t, b) == ItemsOf(s, b) + ItemsOf(t, b)
  {
    if t != [] {
      var n := |t| - 1;
      ItemsOfConcat(s, t[..n], b);
      assert (s + t)[..|s + t| - 1] == s + t[..n];
    } else {
      assert s + t == s;
    }
  }

  /** `get_order_items_count`: the number of order-item rows that belong to the bill. */
  function OrderItemsCount(bill: Bill, table: seq<OrderItem>): (n: nat)
    ensures n == |RowsOf(table, bill.id)|
  {
    ItemsOfCountsRows(table, bill.id);
    |ItemsOf(table, bill.id)|
  }

  // ---------------------------------------------------------------- total price

  function LinePrice(x: OrderItem): int
  {
    x.price * x.amount
  }

  /** The sum of price times amount over a sequence of order items. */
  function Subtotal(items: seq<OrderItem>): int
  {
    if items == [] then 0 else Subtotal(items[..|items| - 1]) + LinePrice(items[|items| - 1])
  }

  lemma {:induction false} SubtotalConcat(s: seq<OrderItem>, t: seq<OrderItem>)
    ensures Subtotal(s + t) == Subtotal(s) + Subtotal(t)
  {
    if t == [] {
      assert s + t == s;
    } else {
      var n := |t| - 1;
      SubtotalConcat(s, t[..n]);
      assert (s + t)[..|s + t| - 1] == s + t[..n];
    }
  }

  /**
   * `get_total_price` (identical in the list and the detail serializer): the accumulator loop
   * over the bill's items yields the sum of price times amount, 0 for a bill without items.
   */
  method TotalPrice(bill: Bill, table: seq<OrderItem>) returns (total: int)
    ensures total == Subtotal(ItemsOf(table, bill.id))
    ensures ItemsOf(table, bill.id) == [] ==> total == 0
  {
    var items := ItemsOf(table, bill.id);
    total := 0;
    for i := 0 to |items|
      invariant total == Subtotal(items[..i])
    {
      assert items[..i + 1][..i] == items[..i];
      total := total + items[i].price * items[i].amount;
    }
    assert items[..|items|] == items;
  }

  /**
   * Adding one order item to the table, at any position, raises the total of its bill by exactly
   * that item's price times amount and leaves the total of every other bill as it was.
   */
  lemma TotalAfterAddingItem(before: seq<OrderItem>, after: seq<OrderItem>, x: OrderItem, b: BillId)
    ensures Subtotal(ItemsOf(before + [x] + after, b))
         == Subtotal(ItemsOf(before + after, b)) + (if x.bill == b then LinePrice(x) else 0)
  {
    ItemsOfConcat(before + [x], after, b);
    ItemsOfConcat(before, [x], b);
    ItemsOfConcat(before, after, b);
    assert ItemsOf([x], b) == (if x.bill == b then [x] else []) by {
      assert [x][..0] == [];
    }
    var ib, ia := ItemsOf(before, b), ItemsOf(after, b);
    SubtotalConcat(ib + ItemsOf([x], b), ia);
    SubtotalConcat(ib, ItemsOf([x], b));
    SubtotalConcat(ib, ia);
    assert Subtotal(ItemsOf([x], b)) == (if x.bill == b then LinePrice(x) else 0) by {
      if x.bill == b { assert [x][..0] == []; }
    }
  }

  // ---------------------------------------------------------------- order status

  /** A serializer field value: the status name, or the bare integer the list serializer returns. */
  datatype StatusValue = Label(name: string) | Code(code: int)

  /** `{i.order_status.id for i in items}`. */
  function StatusIds(items: seq<OrderItem>): set<int>
  {
    set x | x in items :: x.statusId
  }

  /** `min(temp)`: the least status id among the items. */
  function MinStatusId(items: seq<OrderItem>): (m: int)
    requires items != []
    ensures m in StatusIds(items)
    ensures forall s :: s in StatusIds(items) ==> m <= s
  {
    if |items| == 1 then
      assert items == [items[0]];
      items[0].statusId
    else
      var rest := MinStatusId(items[1..]);
      assert items == [items[0]] + items[1..];
      assert StatusIds(items) == {items[0].statusId} + StatusIds(items[1..]);
      if items[0].statusId <= rest then items[0].statusId else rest
  }

  /** Every item's status id names a status category (the foreign key holds). */
  predicate CatalogCovers(items: seq<OrderItem>, catalog: map<int, string>)
  {
    forall x :: x in items ==> x.statusId in catalog
  }

  /** The name of the least advanced status among a paid bill's items, if it has any. */
  function PaidStatusName(items: seq<OrderItem>, catalog: map<int, string>): (r: Option<string>)
    requires CatalogCovers(items, catalog)
    ensures r.None? <==> items == []
    ensures r.Some? ==>
      exists x :: x in items && r.value == catalog[x.statusId] && forall y :: y in items ==> x.statusId <= y.statusId
  {
    if items == [] then None
    else
      var m := MinStatusId(items);
      var x :| x in items && x.statusId == m;
      assert forall y :: y in items ==> y.statusId in StatusIds(items);
      Some(catalog[x.statusId])
  }

  /**
   * `BillSerializer.get_bill_order_status`: "결제대기" for an unpaid bill whatever its items; for a
   * paid bill the name of the status category with the least id among its items' statuses
   * (so always one of them), and the integer 1 when it has no items.
   */
  function BillOrderStatus(bill: Bill, table: seq<OrderItem>, catalog: map<int, string>): (r: StatusValue)
    requires bill.isPaid ==> CatalogCovers(ItemsOf(table, bill.id), catalog)
    ensures !bill.isPaid ==> r == Label(AwaitingPayment)
    ensures bill.isPaid && ItemsOf(table, bill.id) == [] ==> r == Code(1)
    ensures bill.isPaid && ItemsOf(table, bill.id) != [] ==>
      r.Label? &&
      exists x :: x in ItemsOf(table, bill.id) && r.name == catalog[x.statusId] &&
        forall y :: y in ItemsOf(table, bill.id) ==> x.statusId <= y.statusId
  {
    if !bill.isPaid then Label(AwaitingPayment)
    else
      match PaidStatusName(ItemsOf(table, bill.id), catalog)
      case Some(name) => Label(name)
      case None => Code(1)
  }

  /**
   * `BillDetailSerializer.get_bill_order_status`: as the list serializer, except that a paid bill
   * without items also shows "결제대기".
   */
  function BillDetailOrderStatus(bill: Bill, table: seq<OrderItem>, catalog: map<int, string>): (r: StatusValue)
    requires bill.isPaid ==> CatalogCovers(ItemsOf(table, bill.id), catalog)
    ensures !bill.isPaid ==> r == Label(AwaitingPayment)
    ensures bill.isPaid && ItemsOf(table, bill.id) == [] ==> r == Label(AwaitingPayment)
    ensures bill.isPaid && ItemsOf(table, bill.id) != [] ==>
      r.Label? &&
      exists x :: x in ItemsOf(table, bill.id) && r.name == catalog[x.statusId] &&
        forall y :: y in ItemsOf(table, bill.id) ==> x.statusId <= y.statusId
  {
    if !bill.isPaid then Label(AwaitingPayment)
    else
      match PaidStatusName(ItemsOf(table, bill.id), catalog)
      case Some(name) => Label(name)
      case None => Label(AwaitingPayment)
  }

  /** The two serializers disagree exactly on paid bills without items. */
  lemma StatusSerializersDisagreeOnlyWhenEmpty(bill: Bill, table: seq<OrderItem>, catalog: map<int, string>)
    requires bill.isPaid ==> CatalogCovers(ItemsOf(table, bill.id), catalog)
    ensures BillOrderStatus(bill, table, catalog) != BillDetailOrderStatus(bill, table, catalog)
        <==> bill.isPaid && ItemsOf(table, bill.id) == []
  {
  }

  // ---------------------------------------------------------------- thumbnails

  /** The image of an item's product, or nothing when the product lookup fails. */
  function ImageOf(x: OrderItem, lookup: ProductId -> Option<Product>): seq<string>
  {
    match lookup(x.productId)
    case Some(p) => [p.image]
    case None => []
  }

  /** The images of the items whose product lookup succeeds, in item order. */
  function Images(items: seq<OrderItem>, lookup: ProductId -> Option<Product>): (r: seq<string>)
    ensures |r| <= |items|
  {
    if items == [] then [] else Images(items[..|items| - 1], lookup) + ImageOf(items[|items| - 1], lookup)
  }

  lemma {:induction false} ImagesConcat(s: seq<OrderItem>, t: seq<OrderItem>, lookup: ProductId -> Option<Product>)
    ensures Images(s + t, lookup) == Images(s, lookup) + Images(t, lookup)
  {
    if t == [] {
      assert s + t == s;
    } else {
      var n := |t| - 1;
      ImagesConcat(s, t[..n], lookup);
      assert (s + t)[..|s + t| - 1] == s + t[..n];
    }
  }

  /**
   * `get_thumbnail`: the loop looks each item's product up through `Product.object`, appends its
   * image when the lookup succeeds and skips the item otherwise, so the list has at most one
   * entry per item.
   */
  method Thumbnail(bill: Bill, table: seq<OrderItem>, viaObject: ProductId -> Option<Product>) returns (thumbnail: seq<string>)
    ensures thumbnail == Images(ItemsOf(table, bill.id), viaObject)
    ensures |thumbnail| <= |ItemsOf(table, bill.id)|
  {
    var items := ItemsOf(table, bill.id);
    thumbnail := [];
    for i := 0 to |items|
      invariant thumbnail == Images(items[..i], viaObject)
    {
      assert items[..i + 1][..i] == items[..i];
      match viaObject(items[i].productId) {
        case Some(product) =>
          thumbnail := thumbnail + [product.image];
        case None =>
      }
    }
    assert items[..|items|] == items;
  }

  /** An image is listed exactly when some item's product lookup succeeds with that image. */
  lemma {:induction false} ImagesMembership(items: seq<OrderItem>, lookup: ProductId -> Option<Product>, image: string)
    ensures image in Images(items, lookup) <==>
      exists x :: x in items && lookup(x.productId).Some? && lookup(x.productId).value.image == image
  {
    if items != [] {
      var n := |items| - 1;
      ImagesMembership(items[..n], lookup, image);
      assert items == items[..n] + [items[n]];
    }
  }

  /** When every lookup succeeds the list has one image per item, item by item. */
  lemma {:induction false} ImagesWhenAllFound(items: seq<OrderItem>, lookup: ProductId -> Option<Product>)
    requires forall x :: x in items ==> lookup(x.productId).Some?
    ensures |Images(items, lookup)| == |items|
    ensures forall i :: 0 <= i < |items| ==> Images(items, lookup)[i] == lookup(items[i].productId).value.image
  {
    if items != [] {
      var n := |items| - 1;
      assert forall x :: x in items[..n] ==> x in items;
      ImagesWhenAllFound(items[..n], lookup);
    }
  }

  /**
   * When every lookup fails the thumbnail list is empty whatever the items. This is what
   * `get_thumbnail` yields if `Product.object` is not a manager of the product model, in which
   * case every lookup raises and is swallowed (the product model is not part of this model).
   */
  lemma {:induction false} ImagesWhenNoneFound(items: seq<OrderItem>, lookup: ProductId -> Option<Product>)
    requires forall p :: lookup(p).None?
    ensures Images(items, lookup) == []
  {
    if items != [] {
      ImagesWhenNoneFound(items[..|items| - 1], lookup);
    }
  }

  /**
   * `get_thumbnail_name`: the name of the first item's product, looked up through
   * `Product.objects`; `None` when the bill has no items or that lookup fails.
   */
  function ThumbnailName(bill: Bill, table: seq<OrderItem>, viaObjects: ProductId -> Option<Product>): (r: Option<string>)
    ensures r.Some? <==> ItemsOf(table, bill.id) != [] && viaObjects(ItemsOf(table, bill.id)[0].productId).Some?
    ensures r.Some? ==> r.value == viaObjects(ItemsOf(table, bill.id)[0].productId).value.name
  {
    var items := ItemsOf(table, bill.id);
    if items == [] then None
    else
      match viaObjects(items[0].productId)
      case Some(product) => Some(product.name)
      case None => None
  }

  /**
   * `get_thumbnail_name` looks products up through `Product.objects` and `get_thumbnail` through
   * `Product.object`. The two fields describe the same product only when the second lookup finds,
   * for the first item, the product the first one found: then a thumbnail name comes with a
   * non-empty thumbnail list whose first image is that product's.
   */
  lemma ThumbnailNameMatchesFirstImage(bill: Bill, table: seq<OrderItem>,
                                       viaObjects: ProductId -> Option<Product>, viaObject: ProductId -> Option<Product>)
    requires ThumbnailName(bill, table, viaObjects).Some?
    requires viaObject(ItemsOf(table, bill.id)[0].productId) == viaObjects(ItemsOf(table, bill.id)[0].productId)
    ensures var items := ItemsOf(table, bill.id);
            Images(items, viaObject) != [] && Images(items, viaObject)[0] == viaObjects(items[0].productId).value.image
  {
    var items := ItemsOf(table, bill.id);
    ImagesConcat([items[0]], items[1..], viaObject);
    assert [items[0]] + items[1..] == items;
    assert Images([items[0]], viaObject) == ImageOf(items[0], viaObject) by {
      assert [items[0]][..0] == [];
    }
  }

  /**
   * When `Product.object` finds nothing, as it does if it is not a manager of the product
   * model, a bill can show a thumbnail name while its thumbnail list is empty.
   */
  lemma ThumbnailNameWithoutImages(bill: Bill, table: seq<OrderItem>,
                                   viaObjects: ProductId -> Option<Product>, viaObject: ProductId -> Option<Product>)
    requires forall p :: viaObject(p).None?
    ensures ThumbnailName(bill, table, viaObjects).Some? ==> Images(ItemsOf(table, bill.id), viaObject) == []
  {
    ImagesWhenNoneFound(ItemsOf(table, bill.id), viaObject);
  }

  // ---------------------------------------------------------------- cart

  /** `CartListSerializer.get_aggregate_price`: product price times amount. */
  function AggregatePrice(line: CartItem): (r: int)
    ensures line.amount == 0 || line.product.price == 0 ==> r == 0
    ensures line.amount >= 0 && line.product.price >= 0 ==> r >= 0
  {
    line.product.price * line.amount
  }

  /** A cart line costs what an order item with the same price and amount adds to a bill total. */
  lemma CartLineMatchesOrderLine(line: CartItem, x: OrderItem)
    requires x.price == line.product.price && x.amount == line.amount
    ensures Subtotal([x]) == AggregatePrice(line)
  {
  }
}
