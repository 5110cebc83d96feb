/** The command that takes an order in: assemble, submit, save, then the event, then the
    snapshot. */
module CreateOrder {
  import opened Wrappers
  import opened MoneyValues
  import opened Orders
  import opened Tables
  import opened Repositories
  import opened Messaging
  import opened Protocol

  datatype ItemRequest = ItemRequest(sku: Sku, quantity: int)

  datatype CreateError = UnknownSku(sku: Sku) | BadQuantity | NoLines | MixedCurrencies | NoBroker

  /** The item is in the inventory and asked for in a positive quantity. */
  predicate Orderable(inventory: Inventory, item: ItemRequest) {
    item.sku in inventory && item.quantity > 0
  }

  /** The first item that cannot be ordered is the one at i. */
  predicate FirstBad(inventory: Inventory, items: seq<ItemRequest>, i: nat) {
    i < |items| && !Orderable(inventory, items[i]) && forall j :: 0 <= j < i ==> Orderable(inventory, items[j])
  }

  /** One line per item, in turn, at the inventory's exact price. */
  predicate LinesOf(inventory: Inventory, items: seq<ItemRequest>, ids: seq<string>, lines: seq<Line>) {
    && |lines| <= |items| == |ids|
    && forall i :: 0 <= i < |lines| ==>
         && items[i].sku in inventory
         && lines[i].id == ids[i] && lines[i].sku == items[i].sku && lines[i].quantity == items[i].quantity
         && lines[i].unitPrice.cents == inventory[items[i].sku].priceCents
         && lines[i].unitPrice.currency == inventory[items[i].sku].currency
  }

  /** Math.round(dollars * 100): the product is rounded as the hardware rounds. */
  method FromDollars(dollars: real, currency: string, ghost cents: int) returns (price: Money)
    requires -PRICE_LIMIT <= cents <= PRICE_LIMIT && IsRounded(dollars, cents as real / 100.0)
    ensures price == Money(cents, currency)
  {
    var product := Times100(dollars);
    PriceSurvivesDollars(cents, dollars, product);
    price := Money(Round(product), currency);
  }

  method Times100(dollars: real) returns (product: real)
    ensures IsRounded(product, dollars * 100.0)
  {
    product := dollars * 100.0;
  }

  /** The loop of handle(): a draft order with one line per item, or the error of the first item
      that cannot be ordered. */
  method AssembleOrder(db: Database, customer: string, items: seq<ItemRequest>, ids: seq<string>)
    returns (order: Order, error: Option<CreateError>)
    requires |ids| == |items| && PricesInRange(db.inventory)
    ensures fresh(order) && order.id == |db.rows|
    ensures error.None? <==> forall i :: 0 <= i < |items| ==> Orderable(db.inventory, items[i])
    ensures error.None? ==>
              && |order.lineItems| == |items| && LinesOf(db.inventory, items, ids, order.lineItems)
              && order.Data() == OrderData(customer, order.lineItems, Draft, 1, None)
    ensures error.Some? ==>
              exists i: nat :: FirstBad(db.inventory, items, i)
                       && error.value == if items[i].sku in db.inventory then BadQuantity else UnknownSku(items[i].sku)
  {
    order := new Order(|db.rows|, customer);
    for i := 0 to |items|
      invariant forall j :: 0 <= j < i ==> Orderable(db.inventory, items[j])
      invariant |order.lineItems| == i && LinesOf(db.inventory, items, ids, order.lineItems)
      invariant order.Data() == OrderData(customer, order.lineItems, Draft, 1, None)
    {
      var item := db.FindBySku(items[i].sku);
      if item.None? {
        assert FirstBad(db.inventory, items, i);
        return order, Some(UnknownSku(items[i].sku));
      }
      var price := FromDollars(item.value.dollars, item.value.currency, db.inventory[items[i].sku].priceCents);
      var ok := order.AddLineItem(Line(ids[i], items[i].sku, items[i].quantity, price));
      if !ok {
        assert FirstBad(db.inventory, items, i);
        return order, Some(BadQuantity);
      }
    }
    error := None;
  }

  /** save(), with line ids that are in use nowhere: every line is stored. */
  method SaveNew(db: Database, order: Order)
    requires order.id == |db.rows| && FreshIds(LineIds(db.rows), order.lineItems) && order.rejectionReason == None
    modifies db`rows
    ensures db.rows == old(db.rows) + [order.Data()]
  {
    FreshLinesAreInserted(LineIds(db.rows), order.lineItems, |order.lineItems|);
    assert order.lineItems[..|order.lineItems|] == order.lineItems;
    db.Save(order);
  }

  /** handle(): nothing is stored or published iff there are no items or one of them is unknown or
      of no positive quantity, and the error is that of the first such item. Otherwise the order is
      stored pending with one line per item, as requested and at the inventory's exact prices,
      whatever happens next. The event follows if the broker can be reached, and the snapshot if
      it still can and the lines are in one currency; else the call fails with the order stored. */
  method Handle(db: Database, broker: Broker, customer: string, items: seq<ItemRequest>, ids: seq<string>, at: int,
                eventReachable: bool, snapshotReachable: bool)
    returns (result: Result<Order, CreateError>)
    requires |ids| == |items| && PricesInRange(db.inventory)
    requires forall i :: 0 <= i < |ids| ==> ids[i] !in LineIds(db.rows)
    requires forall i, j :: 0 <= i < j < |ids| ==> ids[i] != ids[j]
    modifies db`rows, broker`main, broker`sync
    ensures items == [] || !(forall i :: 0 <= i < |items| ==> Orderable(db.inventory, items[i])) ==>
              && db.rows == old(db.rows) && broker.main == old(broker.main) && broker.sync == old(broker.sync)
              && result.Failure?
              && (items == [] ==> result.error == NoLines)
              && (items != [] ==>
                    exists i: nat :: FirstBad(db.inventory, items, i)
                             && result.error == if items[i].sku in db.inventory then BadQuantity
                                                else UnknownSku(items[i].sku))
    ensures items != [] && (forall i :: 0 <= i < |items| ==> Orderable(db.inventory, items[i])) ==>
              var o := |old(db.rows)|;
              && |db.rows| == o + 1 && db.rows[..o] == old(db.rows)
              && var stored := db.rows[o];
              && stored == OrderData(customer, stored.lines, Pending, 1, None)
              && |stored.lines| == |items|
              && (forall i :: 0 <= i < |items| ==>
                    stored.lines[i] == Line(ids[i], items[i].sku, items[i].quantity,
                                            Money(db.inventory[items[i].sku].priceCents,
                                                  db.inventory[items[i].sku].currency)))
              && broker.main == old(broker.main) + (if eventReachable then [Created(Event(o, 0))] else [])
              && (result.Success? <==> eventReachable && snapshotReachable && OneCurrency(stored.lines))
              && (result.Success? ==>
                    && fresh(result.value) && result.value.id == o && result.value.Data() == stored
                    && TakeSnapshot(o, stored, at).Some?
                    && broker.sync == old(broker.sync) + [TakeSnapshot(o, stored, at).value])
              && (result.Failure? ==>
                    && broker.sync == old(broker.sync)
                    && result.error == if eventReachable && snapshotReachable then MixedCurrencies else NoBroker)
  {
    var order, error := AssembleOrder(db, customer, items, ids);
    if error.Some? {
      return Failure(error.value);
    }
    var submitted := order.Submit();
    if !submitted {
      return Failure(NoLines);
    }
    SaveNew(db, order);
    assert db.rows[|old(db.rows)|] == order.Data();
    var ok := broker.PublishOrderCreated(order.id, eventReachable);
    if !ok {
      return Failure(NoBroker);
    }
    TotalMeaning(order.lineItems);
    var published := broker.PublishOrderSnapshot(order, at, snapshotReachable);
    if published.None? {
      return Failure(if snapshotReachable then MixedCurrencies else NoBroker);
    }
    result := Success(order);
  }
}
