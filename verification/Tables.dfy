/** The two MySQL tables and the effect of each statement the repositories send to them. */
module Tables {
  import opened Wrappers
  import opened MoneyValues
  import opened Orders
  import opened Sums
  import opened Listing

  /** Orders are numbered in the order they are inserted; the number stands for the UUID. */
  type Rows = seq<OrderData>

  datatype Item = Item(quantity: int, priceCents: int, currency: string, version: int)

  type Inventory = map<Sku, Item>

  predicate Stored(rows: Rows, order: int) {
    0 <= order < |rows|
  }

  predicate Open(rows: Rows, order: int) {
    Stored(rows, order) && rows[order].status == Pending
  }

  function Available(inventory: Inventory, sku: Sku): int {
    if sku in inventory then inventory[sku].quantity else 0
  }

  /** UPDATE inventory_items ... WHERE sku = ? AND quantity_available >= ?
      None when no row was affected. */
  function Decrement(inventory: Inventory, sku: Sku, quantity: int): Option<Inventory> {
    if sku in inventory && inventory[sku].quantity >= quantity then
      var item := inventory[sku];
      Some(inventory[sku := item.(quantity := item.quantity - quantity, version := item.version + 1)])
    else None
  }

  /** The worker's check of one line. */
  predicate Short(inventory: Inventory, line: Line) {
    line.sku !in inventory || inventory[line.sku].quantity < line.quantity
  }

  /** UPDATE orders ... version = version + 1 WHERE id = ? AND version = ?
      None when no row was affected. */
  function UpdateStatus(rows: Rows, order: int, status: Status, expectedVersion: int, reason: Option<string>)
    : Option<Rows>
  {
    if Stored(rows, order) && rows[order].version == expectedVersion then
      var row := rows[order];
      Some(rows[order := row.(status := status, reason := reason, version := row.version + 1)])
    else None
  }

  function ShortageReason(shortages: seq<Sku>): string {
    "Insufficient stock for: " + JoinComma(shortages)
  }

  /** Both ways the worker ends an order, as they change the object it holds in memory. */
  function Confirm(order: OrderData): OrderData {
    order.(status := Confirmed)
  }

  function Reject(order: OrderData, shortages: seq<Sku>): OrderData {
    order.(status := Rejected, reason := Some(ShortageReason(shortages)))
  }

  /** The reason each call to updateStatus passes: null unless the order was rejected. */
  function ReasonToStore(order: OrderData): Option<string> {
    if order.status == Rejected then order.reason else None
  }

  // ---------- snapshots ----------

  datatype SnapshotLine = SnapshotLine(sku: Sku, quantity: int, lineTotal: string)

  datatype Snapshot = Snapshot(
    order: int, customer: string, status: Status, total: string, reason: Option<string>,
    lines: seq<SnapshotLine>, updatedAt: int)

  function RenderLine(l: Line): SnapshotLine {
    SnapshotLine(l.sku, l.quantity, ToString(LineTotal(l)))
  }

  function RenderLines(lines: seq<Line>): (r: seq<SnapshotLine>)
    ensures |r| == |lines|
    ensures forall i :: 0 <= i < |r| ==> r[i] == RenderLine(lines[i])
  {
    Map(RenderLine, lines)
  }

  /** The message built from an order in memory; None when its total throws. */
  function TakeSnapshot(order: int, data: OrderData, at: int): Option<Snapshot> {
    match Total(data.lines)
    case Success(total) =>
      Some(Snapshot(order, data.customer, data.status, ToString(total), data.reason, RenderLines(data.lines), at))
    case Failure(_) => None
  }

  /** What a reader of a document line sees: its SKU, quantity and amount in cents. */
  function Shown(l: SnapshotLine): (Sku, int, int) {
    (l.sku, l.quantity, AmountShown(l.lineTotal))
  }

  /** And what the order line it stands for amounts to. */
  function Ordered(l: Line): (Sku, int, int) {
    (l.sku, l.quantity, l.unitPrice.cents * l.quantity)
  }

  lemma RenderedShown(lines: seq<Line>)
    ensures Map(Shown, RenderLines(lines)) == Map(Ordered, lines)
  {
    forall i | 0 <= i < |lines| ensures Shown(RenderLines(lines)[i]) == Ordered(lines[i]) {
      AmountRoundTrip(LineTotal(lines[i]));
    }
  }

  /** A snapshot shows the order it was taken of, line by line, and the sum of its lines, in the
      lines' currency. */
  lemma SnapshotShows(order: int, data: OrderData, at: int)
    requires TakeSnapshot(order, data, at).Some?
    ensures var v := TakeSnapshot(order, data, at).value;
            && v.order == order && v.customer == data.customer && v.updatedAt == at
            && v.status == data.status && v.reason == data.reason
            && |v.lines| == |data.lines|
            && (forall i :: 0 <= i < |v.lines| ==>
                  && v.lines[i].sku == data.lines[i].sku && v.lines[i].quantity == data.lines[i].quantity
                  && AmountShown(v.lines[i].lineTotal) == data.lines[i].unitPrice.cents * data.lines[i].quantity
                  && CurrencyShown(v.lines[i].lineTotal) == data.lines[i].unitPrice.currency)
            && AmountShown(v.total) == Sum(CentsOf(), data.lines)
            && (forall l :: l in data.lines ==> CurrencyShown(v.total) == l.unitPrice.currency)
            && (data.lines == [] ==> CurrencyShown(v.total) == "USD")
  {
    TotalMeaning(data.lines);
    AmountRoundTrip(Total(data.lines).value);
    forall i | 0 <= i < |data.lines|
      ensures AmountShown(RenderLines(data.lines)[i].lineTotal)
              == data.lines[i].unitPrice.cents * data.lines[i].quantity
      ensures CurrencyShown(RenderLines(data.lines)[i].lineTotal) == data.lines[i].unitPrice.currency
    {
      AmountRoundTrip(LineTotal(data.lines[i]));
    }
  }

  function LineAmount(): SnapshotLine -> int {
    (l: SnapshotLine) => AmountShown(l.lineTotal)
  }

  lemma {:induction false} RenderedAmounts(lines: seq<Line>)
    ensures Sum(LineAmount(), RenderLines(lines)) == Sum(CentsOf(), lines)
  {
    if lines != [] {
      AmountRoundTrip(LineTotal(lines[0]));
      RenderedAmounts(lines[1..]);
      assert RenderLines(lines)[1..] == RenderLines(lines[1..]);
    }
  }
}
