/** Order creation (orders/serializers.py, `OrderSerializer.create`): the
    order row is saved with a zero total, then each requested line is
    checked against stock, saved at the variant's current price and taken
    out of stock, and finally the accumulated total is written back. Nothing
    is rolled back when a line fails. */
module OrderCreation {
  import opened Util
  import opened Text
  import opened Catalog
  import opened Orders

  /** One entry of `order_items`; a key missing from the JSON object is `None`. */
  datatype ItemRequest = ItemRequest(variantId: Option<int>, quantity: Option<int>)

  /** The validated order fields. Fields the client may omit are `None` and
      take the model's default. */
  datatype OrderInput = OrderInput(
    customerName: string, customerEmail: Option<string>, customerPhone: string,
    addressLine1: string, addressLine2: Option<string>, city: string, state: string,
    postalCode: string, country: Option<string>, status: Option<string>, notes: Option<string>)

  /** Why `create` stops. */
  datatype CreateError =
    | MissingKey(key: string)               // `item_data[...]` raises KeyError
    | VariantNotFound(message: string)      // the ValidationError for a missing variant
    | InsufficientStock(message: string)    // the ValidationError for short stock
    | IntegrityError                        // a database constraint refuses the item row

  /** The part of the database the loop changes: variants by id (their
      stock), the item rows, and the running `total_amount`. */
  datatype Ledger = Ledger(variants: map<nat, Variant>, items: seq<OrderItem>, total: int)

  /** Where processing a list of lines ends: all done, or stopped by an
      error with the state reached so far. */
  datatype Outcome = Done(ledger: Ledger) | Failed(error: CreateError, ledger: Ledger)

  datatype CreateResult = Created(order: Order) | Rejected(error: CreateError)

  /** Every variant is stored under its own id and belongs to a stored product. */
  predicate Linked(products: map<nat, Product>, variants: map<nat, Variant>) {
    forall id :: id in variants ==> variants[id].id == id && variants[id].productId in products
  }

  /** `variant.price` for the variant stored under `id`. */
  function UnitPrice(products: map<nat, Product>, variants: map<nat, Variant>, id: nat): int
    requires Linked(products, variants) && id in variants
  {
    VariantPrice(products[variants[id].productId], variants[id])
  }

  function NotFoundMessage(id: int): string {
    "Product variant " + IntToString(id) + " not found"
  }

  function InsufficientMessage(p: Product, v: Variant): string {
    "Insufficient stock for " + p.name + " (" + v.size + ", " + v.color + ")"
  }

  /** One iteration of the loop for the order with primary key `orderPk`. */
  function Step(products: map<nat, Product>, orderPk: nat, l: Ledger, req: ItemRequest): (o: Outcome)
    requires Linked(products, l.variants)
  {
    if req.variantId.None? then Failed(MissingKey("product_variant_id"), l)
    else if req.variantId.value < 0 || req.variantId.value as nat !in l.variants then
      Failed(VariantNotFound(NotFoundMessage(req.variantId.value)), l)
    else
      var id: nat := req.variantId.value;
      var v := l.variants[id];
      if req.quantity.None? then Failed(MissingKey("quantity"), l)
      else
        var q := req.quantity.value;
        if v.stock >= q then
          if q < 0 || HasKey(l.items, ItemKey, (orderPk, id)) then Failed(IntegrityError, l)
          else
            var price := UnitPrice(products, l.variants, id);
            Done(Ledger(l.variants[id := v.(stock := v.stock - q)],
                        l.items + [OrderItem(orderPk, id, q, price)],
                        l.total + price * q))
        else Failed(InsufficientStock(InsufficientMessage(products[v.productId], v)), l)
  }

  /** The loop over `reqs` from the state `l0`, stopping at the first error. */
  function Run(products: map<nat, Product>, orderPk: nat, l0: Ledger, reqs: seq<ItemRequest>): (o: Outcome)
    requires Linked(products, l0.variants)
    ensures Linked(products, o.ledger.variants)
    decreases |reqs|
  {
    if reqs == [] then Done(l0)
    else
      match Run(products, orderPk, l0, reqs[..|reqs| - 1])
      case Done(l) => Step(products, orderPk, l, reqs[|reqs| - 1])
      case Failed(e, l) => Failed(e, l)
  }

  /** Only stock changes: the same variants, each with its other fields intact. */
  predicate SameCatalogue(before: map<nat, Variant>, after: map<nat, Variant>) {
    before.Keys == after.Keys
    && forall id :: id in before ==> after[id] == before[id].(stock := after[id].stock)
  }

  /** Σ quantity over the requests for variant `id`. */
  function Requested(reqs: seq<ItemRequest>, id: nat): int
    decreases |reqs|
  {
    if reqs == [] then 0
    else Requested(reqs[..|reqs| - 1], id)
         + (if reqs[|reqs| - 1].variantId == Some(id as int) then reqs[|reqs| - 1].quantity.GetOr(0) else 0)
  }

  /** What one successful iteration does: the line is saved for this order at
      the current price, its variant loses exactly `quantity` from stock, the
      total grows by price × quantity, and nothing else changes. */
  lemma StepDone(products: map<nat, Product>, orderPk: nat, l: Ledger, req: ItemRequest)
    requires Linked(products, l.variants)
    requires Step(products, orderPk, l, req).Done?
    ensures var l' := Step(products, orderPk, l, req).ledger;
      && req.variantId.Some? && req.quantity.Some?
      && var id := req.variantId.value; var q := req.quantity.value;
      && 0 <= id && id as nat in l.variants && 0 <= q <= l.variants[id as nat].stock
      && l'.items == l.items + [OrderItem(orderPk, id as nat, q, UnitPrice(products, l.variants, id as nat))]
      && l'.total == l.total + UnitPrice(products, l.variants, id as nat) * q
      && SameCatalogue(l.variants, l'.variants)
      && (forall k :: k in l.variants ==>
            l'.variants[k].stock == l.variants[k].stock - (if k == id as nat then q else 0))
  {
  }

  /** The errors, in the order the code meets them: a missing id key, an
      unknown variant, a missing quantity, short stock, then the database
      constraints (a negative quantity, the variant already in this order). */
  lemma StepFailed(products: map<nat, Product>, orderPk: nat, l: Ledger, req: ItemRequest)
    requires Linked(products, l.variants)
    ensures var o := Step(products, orderPk, l, req);
      && (o.Failed? ==> o.ledger == l)
      && (req.variantId.None? ==> o == Failed(MissingKey("product_variant_id"), l))
      && (req.variantId.Some? && (req.variantId.value < 0 || req.variantId.value as nat !in l.variants) ==>
            o == Failed(VariantNotFound(NotFoundMessage(req.variantId.value)), l))
      && (req.variantId.Some? && req.variantId.value >= 0 && req.variantId.value as nat in l.variants ==>
            var v := l.variants[req.variantId.value as nat];
            && (req.quantity.None? ==> o == Failed(MissingKey("quantity"), l))
            && (req.quantity.Some? && v.stock < req.quantity.value ==>
                  o == Failed(InsufficientStock(InsufficientMessage(products[v.productId], v)), l))
            && (req.quantity.Some? && req.quantity.value < 0 ==> o == Failed(IntegrityError, l))
            && (req.quantity.Some? && 0 <= req.quantity.value <= v.stock ==>
                  (o.Failed? <==> HasKey(l.items, ItemKey, (orderPk, req.variantId.value as nat)))))
  {
  }

  /** Whatever happens, only stock changes in the variants table. */
  lemma {:induction false} RunCatalogue(products: map<nat, Product>, orderPk: nat, l0: Ledger, reqs: seq<ItemRequest>)
    requires Linked(products, l0.variants)
    ensures SameCatalogue(l0.variants, Run(products, orderPk, l0, reqs).ledger.variants)
    decreases |reqs|
  {
    if reqs != [] {
      var init := reqs[..|reqs| - 1];
      RunCatalogue(products, orderPk, l0, init);
      var o := Run(products, orderPk, l0, init);
      if o.Done? && Step(products, orderPk, o.ledger, reqs[|reqs| - 1]).Done? {
        StepDone(products, orderPk, o.ledger, reqs[|reqs| - 1]);
      }
    }
  }

  /** After all lines: the items already stored are kept, one item per
      request follows, and the total is Σ price × quantity over the new items. */
  lemma {:induction false} RunDoneTotal(products: map<nat, Product>, orderPk: nat, l0: Ledger, reqs: seq<ItemRequest>)
    requires Linked(products, l0.variants)
    requires Run(products, orderPk, l0, reqs).Done?
    ensures var l := Run(products, orderPk, l0, reqs).ledger;
      && |l.items| == |l0.items| + |reqs|
      && l.items[..|l0.items|] == l0.items
      && l.total == l0.total + SumItemTotals(l.items[|l0.items|..])
    decreases |reqs|
  {
    if reqs != [] {
      var init := reqs[..|reqs| - 1];
      RunDoneTotal(products, orderPk, l0, init);
      var l := Run(products, orderPk, l0, init).ledger;
      StepDone(products, orderPk, l, reqs[|reqs| - 1]);
      var l' := Step(products, orderPk, l, reqs[|reqs| - 1]).ledger;
      var it := l'.items[|l'.items| - 1];
      assert l'.items[|l0.items|..] == l.items[|l0.items|..] + [it];
      SumItemTotalsAppend(l.items[|l0.items|..], [it]);
      assert SumItemTotals([it]) == ItemTotal(it);
    }
  }

  /** The new items follow the requests in order, each for this order and at
      the price its variant had when the loop began (prices never change,
      only stock). */
  lemma {:induction false} RunDoneItems(products: map<nat, Product>, orderPk: nat, l0: Ledger, reqs: seq<ItemRequest>)
    requires Linked(products, l0.variants)
    requires Run(products, orderPk, l0, reqs).Done?
    ensures var l := Run(products, orderPk, l0, reqs).ledger;
      && |l.items| == |l0.items| + |reqs|
      && forall j :: 0 <= j < |reqs| ==>
           && reqs[j].variantId.Some? && reqs[j].quantity.Some?
           && 0 <= reqs[j].variantId.value && reqs[j].variantId.value as nat in l0.variants
           && l.items[|l0.items| + j] == OrderItem(orderPk, reqs[j].variantId.value as nat, reqs[j].quantity.value,
                UnitPrice(products, l0.variants, reqs[j].variantId.value as nat))
    decreases |reqs|
  {
    if reqs != [] {
      var init := reqs[..|reqs| - 1];
      var last := reqs[|reqs| - 1];
      RunDoneItems(products, orderPk, l0, init);
      RunCatalogue(products, orderPk, l0, init);
      var l := Run(products, orderPk, l0, init).ledger;
      StepDone(products, orderPk, l, last);
      forall j | 0 <= j < |reqs| - 1 ensures reqs[j] == init[j] { }
    }
  }

  /** Stock accounting: after all lines each variant's stock has dropped by
      exactly the quantity requested for it, and so never went below zero. */
  lemma {:induction false} RunStock(products: map<nat, Product>, orderPk: nat, l0: Ledger, reqs: seq<ItemRequest>)
    requires Linked(products, l0.variants)
    requires Run(products, orderPk, l0, reqs).Done?
    ensures var l := Run(products, orderPk, l0, reqs).ledger;
      forall k :: k in l0.variants ==> k in l.variants && l.variants[k].stock + Requested(reqs, k) == l0.variants[k].stock
    decreases |reqs|
  {
    if reqs != [] {
      var init := reqs[..|reqs| - 1];
      RunStock(products, orderPk, l0, init);
      var l := Run(products, orderPk, l0, init).ledger;
      StepDone(products, orderPk, l, reqs[|reqs| - 1]);
    }
  }

  /** Once a prefix has failed, the later lines are never looked at. */
  lemma {:induction false} RunStaysFailed(products: map<nat, Product>, orderPk: nat, l0: Ledger, reqs: seq<ItemRequest>, k: nat)
    requires Linked(products, l0.variants)
    requires k <= |reqs| && Run(products, orderPk, l0, reqs[..k]).Failed?
    ensures Run(products, orderPk, l0, reqs) == Run(products, orderPk, l0, reqs[..k])
    decreases |reqs| - k
  {
    if k < |reqs| {
      var init := reqs[..|reqs| - 1];
      assert init[..k] == reqs[..k];
      RunStaysFailed(products, orderPk, l0, init, k);
    } else {
      assert reqs[..k] == reqs;
    }
  }

  /** No rollback: when processing fails, it failed at some line `k`, and the
      state left behind is exactly what the lines before `k` produced. */
  lemma {:induction false} RunFailed(products: map<nat, Product>, orderPk: nat, l0: Ledger, reqs: seq<ItemRequest>)
    requires Linked(products, l0.variants)
    requires Run(products, orderPk, l0, reqs).Failed?
    ensures exists k ::
      (0 <= k < |reqs|
       && Run(products, orderPk, l0, reqs[..k]).Done?
       && Run(products, orderPk, l0, reqs[..k]).ledger == Run(products, orderPk, l0, reqs).ledger
       && Step(products, orderPk, Run(products, orderPk, l0, reqs[..k]).ledger, reqs[k]) == Run(products, orderPk, l0, reqs))
    decreases |reqs|
  {
    var init := reqs[..|reqs| - 1];
    var k := |reqs| - 1;
    assert reqs[..k] == init;
    match Run(products, orderPk, l0, init)
    case Done(l) =>
      assert Step(products, orderPk, l, reqs[k]).Failed?;
    case Failed(e, l) =>
      RunFailed(products, orderPk, l0, init);
      var j :| 0 <= j < |init|
        && Run(products, orderPk, l0, init[..j]).Done?
        && Run(products, orderPk, l0, init[..j]).ledger == Run(products, orderPk, l0, init).ledger
        && Step(products, orderPk, Run(products, orderPk, l0, init[..j]).ledger, init[j]) == Run(products, orderPk, l0, init);
      assert init[..j] == reqs[..j] && init[j] == reqs[j];
  }

  /** The item rows stay unique per (order, variant) and never hold a
      negative quantity, whatever the requests. */
  lemma {:induction false} RunKeepsItemsValid(products: map<nat, Product>, orderPk: nat, l0: Ledger, reqs: seq<ItemRequest>)
    requires Linked(products, l0.variants)
    requires KeysUnique(l0.items, ItemKey) && forall i :: 0 <= i < |l0.items| ==> l0.items[i].quantity >= 0
    ensures var l := Run(products, orderPk, l0, reqs).ledger;
      KeysUnique(l.items, ItemKey) && forall i :: 0 <= i < |l.items| ==> l.items[i].quantity >= 0
    decreases |reqs|
  {
    if reqs != [] {
      var init := reqs[..|reqs| - 1];
      RunKeepsItemsValid(products, orderPk, l0, init);
      var o := Run(products, orderPk, l0, init);
      if o.Done? && Step(products, orderPk, o.ledger, reqs[|reqs| - 1]).Done? {
        StepDone(products, orderPk, o.ledger, reqs[|reqs| - 1]);
      }
    }
  }

  /** A variant whose whole stock was requested is out of stock afterwards,
      and one with less requested than its stock is still in stock. */
  lemma SoldOut(products: map<nat, Product>, orderPk: nat, l0: Ledger, reqs: seq<ItemRequest>, k: nat)
    requires Linked(products, l0.variants)
    requires Run(products, orderPk, l0, reqs).Done? && k in l0.variants
    ensures var l := Run(products, orderPk, l0, reqs).ledger;
      k in l.variants && (IsInStock(l.variants[k]) <==> Requested(reqs, k) < l0.variants[k].stock)
  {
    RunStock(products, orderPk, l0, reqs);
  }

  /** A request naming the same variant twice cannot be accepted in full:
      the second line fails on stock or on the unique constraint. */
  lemma DuplicateVariantFails(products: map<nat, Product>, orderPk: nat, l0: Ledger, a: ItemRequest, b: ItemRequest)
    requires Linked(products, l0.variants)
    requires a.variantId.Some? && a.variantId == b.variantId
    ensures Run(products, orderPk, l0, [a, b]).Failed?
  {
    assert [a, b][..1] == [a] && [a][..0] == [];
    var o := Step(products, orderPk, l0, a);
    assert Run(products, orderPk, l0, [a]) == o;
    if o.Done? {
      StepDone(products, orderPk, l0, a);
      var id: nat := a.variantId.value;
      var n := |o.ledger.items| - 1;
      assert ItemKey(o.ledger.items[n]) == (orderPk, id);
      assert HasKey(o.ledger.items, ItemKey, (orderPk, id));
      assert Run(products, orderPk, l0, [a, b]) == Step(products, orderPk, o.ledger, b);
    }
  }

  /** The order row as `Order.objects.create(**validated_data)` saves it with
      the given total; omitted fields take the model's defaults. */
  function NewOrder(pk: nat, orderUuid: string, input: OrderInput, total: int): (o: Order)
    ensures o.id == pk && o.totalAmount == total && o.customerPhone == input.customerPhone
  {
    Order(pk, orderUuid, input.customerName, input.customerEmail.GetOr(""), input.customerPhone,
          input.addressLine1, input.addressLine2.GetOr(""), input.city, input.state, input.postalCode,
          input.country.GetOr(DefaultCountry), input.status.GetOr(DefaultStatus), total, input.notes.GetOr(""))
  }

  /** A new order without a status is pending, and without a country is in Pakistan. */
  lemma NewOrderDefaults(pk: nat, orderUuid: string, input: OrderInput, total: int)
    requires input.status.None? && input.country.None?
    ensures NewOrder(pk, orderUuid, input, total).status == "pending"
    ensures NewOrder(pk, orderUuid, input, total).country == "Pakistan"
    ensures NewOrder(pk, orderUuid, input, total).status in StatusChoices
  {
  }

  /** The accepted branch of one iteration, in the form the loop performs it. */
  lemma StepAccepted(products: map<nat, Product>, orderPk: nat, l: Ledger, id: nat, q: int)
    requires Linked(products, l.variants) && id in l.variants
    requires 0 <= q <= l.variants[id].stock && !HasKey(l.items, ItemKey, (orderPk, id))
    requires KeysUnique(l.items, ItemKey) && forall i :: 0 <= i < |l.items| ==> l.items[i].quantity >= 0
    ensures var v := l.variants[id]; var price := VariantPrice(products[v.productId], v);
      var items' := l.items + [OrderItem(orderPk, id, q, price)];
      && Step(products, orderPk, l, ItemRequest(Some(id as int), Some(q)))
         == Done(Ledger(l.variants[id := v.(stock := v.stock - q)], items', l.total + price * q))
      && KeysUnique(items', ItemKey) && (forall i :: 0 <= i < |items'| ==> items'[i].quantity >= 0)
  {
    var v := l.variants[id];
    var items' := l.items + [OrderItem(orderPk, id, q, VariantPrice(products[v.productId], v))];
    forall i, j | 0 <= i < j < |items'| ensures ItemKey(items'[i]) != ItemKey(items'[j]) {
      if j == |l.items| {
        assert items'[i] == l.items[i];
      }
    }
  }

  /** The tables `create` reads and writes. */
  class Database {
    var products: map<nat, Product>
    var variants: map<nat, Variant>
    var orders: seq<Order>
    var items: seq<OrderItem>

    /** Foreign keys hold, orders are numbered from 1, the item rows obey
        their unique constraint and the check on quantities. */
    predicate Valid()
      reads this
    {
      && Linked(products, variants)
      && (forall i :: 0 <= i < |orders| ==> orders[i].id == i + 1)
      && KeysUnique(items, ItemKey)
      && (forall i :: 0 <= i < |items| ==> items[i].quantity >= 0)
    }

    constructor (products: map<nat, Product>, variants: map<nat, Variant>)
      requires Linked(products, variants)
      ensures Valid()
      ensures this.products == products && this.variants == variants && orders == [] && items == []
    {
      this.products := products;
      this.variants := variants;
      orders := [];
      items := [];
    }

    /** One pass of the loop body for the order `pk`: look the variant up,
        check its stock, save the item at the variant's price, take the
        quantity out of stock; `total` is the running amount. */
    method ProcessLine(pk: nat, req: ItemRequest, total: int) returns (err: Option<CreateError>, total': int)
      requires Valid()
      modifies this
      ensures Valid() && products == old(products) && orders == old(orders)
      ensures Step(products, pk, Ledger(old(variants), old(items), total), req)
        == (if err.None? then Done(Ledger(variants, items, total')) else Failed(err.value, Ledger(variants, items, total')))
    {
      total' := total;
      if req.variantId.None? {
        return Some(MissingKey("product_variant_id")), total;
      }
      var vid := req.variantId.value;
      if vid < 0 || vid as nat !in variants {
        return Some(VariantNotFound(NotFoundMessage(vid))), total;
      }
      var id: nat := vid;
      var variant := variants[id];
      if req.quantity.None? {
        return Some(MissingKey("quantity")), total;
      }
      var quantity := req.quantity.value;
      if variant.stock >= quantity {
        if quantity < 0 || HasKey(items, ItemKey, (pk, id)) {
          return Some(IntegrityError), total;
        }
        var price := VariantPrice(products[variant.productId], variant);
        StepAccepted(products, pk, Ledger(variants, items, total), id, quantity);
        assert req == ItemRequest(Some(id as int), Some(quantity));
        items := items + [OrderItem(pk, id, quantity, price)];
        total' := total + price * quantity;
        variants := variants[id := variant.(stock := variant.stock - quantity)];
        err := None;
      } else {
        err := Some(InsufficientStock(InsufficientMessage(products[variant.productId], variant)));
      }
    }

    /** `OrderSerializer.create`. The order row is appended first with a zero
        total; the variants and item rows end as `Run` leaves them; on success
        the row's total becomes the accumulated amount, on failure it stays 0. */
    method Create(input: OrderInput, orderUuid: string, orderItems: Option<seq<ItemRequest>>) returns (result: CreateResult)
      requires Valid()
      modifies this
      ensures Valid()
      ensures products == old(products)
      ensures var pk := |old(orders)| + 1;
        var o := Run(old(products), pk, Ledger(old(variants), old(items), 0), orderItems.GetOr([]));
        && variants == o.ledger.variants && items == o.ledger.items
        && orders == old(orders) + [NewOrder(pk, orderUuid, input, if o.Done? then o.ledger.total else 0)]
        && result == (if o.Done? then Created(orders[|orders| - 1]) else Rejected(o.error))
    {
      var reqs := orderItems.GetOr([]);
      var pk := |orders| + 1;
      orders := orders + [NewOrder(pk, orderUuid, input, 0)];
      ghost var l0 := Ledger(variants, items, 0);
      var total := 0;
      var i := 0;
      while i < |reqs|
        invariant 0 <= i <= |reqs|
        invariant products == old(products) && orders == old(orders) + [NewOrder(pk, orderUuid, input, 0)]
        invariant Valid()
        invariant Run(products, pk, l0, reqs[..i]) == Done(Ledger(variants, items, total))
      {
        assert reqs[..i + 1][..i] == reqs[..i] && reqs[..i + 1][i] == reqs[i];
        var err;
        err, total := ProcessLine(pk, reqs[i], total);
        if err.Some? {
          RunStaysFailed(products, pk, l0, reqs, i + 1);
          return Rejected(err.value);
        }
        i := i + 1;
      }
      assert reqs[..|reqs|] == reqs;
      orders := orders[|orders| - 1 := NewOrder(pk, orderUuid, input, total)];
      result := Created(orders[|orders| - 1]);
    }
  }
}
