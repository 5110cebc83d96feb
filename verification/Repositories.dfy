/** The write store with the statements of its two repositories, and the read store. */
module Repositories {
  import opened Wrappers
  import opened MoneyValues
  import opened Orders
  import opened Tables
  import opened Sums

  /** What findBySku hands to the API: the price is a floating-point number of dollars. */
  datatype PricedItem = PricedItem(quantity: int, dollars: real, currency: string)

  predicate PricesInRange(inventory: Inventory) {
    forall sku :: sku in inventory ==> -PRICE_LIMIT <= inventory[sku].priceCents <= PRICE_LIMIT
  }

  /** The primary keys in use in order_line_items. */
  function LineIds(rows: Rows): set<string> {
    set r, l | r in rows && l in r.lines :: l.id
  }

  predicate HasId(lines: seq<Line>, id: string) {
    exists l :: l in lines && l.id == id
  }

  /** INSERT IGNORE of the first n lines: a line whose id is in use already is skipped. */
  function InsertIgnore(known: set<string>, lines: seq<Line>, n: nat): seq<Line>
    requires n <= |lines|
  {
    if n == 0 then []
    else
      var before := InsertIgnore(known, lines, n - 1);
      var line := lines[n - 1];
      if line.id in known || HasId(before, line.id) then before else before + [line]
  }

  lemma {:induction false} InsertedIds(known: set<string>, lines: seq<Line>, n: nat, id: string)
    requires n <= |lines| && id !in known
    ensures HasId(InsertIgnore(known, lines, n), id) <==> exists j :: 0 <= j < n && lines[j].id == id
  {
    if n > 0 {
      InsertedIds(known, lines, n - 1, id);
      var before, line := InsertIgnore(known, lines, n - 1), lines[n - 1];
      assert line in before + [line];
      assert forall l :: l in before ==> l in before + [line];
    }
  }

  predicate FirstOfId(lines: seq<Line>, i: nat)
    requires i < |lines|
  {
    forall j :: 0 <= j < i ==> lines[j].id != lines[i].id
  }

  /** A line is stored iff its id is neither in use nor that of an earlier line, and the lines
      stored keep their order. */
  lemma {:induction false} InsertIgnoreKeeps(known: set<string>, lines: seq<Line>, n: nat) returns (ks: seq<nat>)
    requires n <= |lines|
    ensures Ascending(ks, n) && InsertIgnore(known, lines, n) == At(lines, ks)
    ensures forall i: nat :: i < n ==>
              (i in ks <==> lines[i].id !in known && FirstOfId(lines, i))
  {
    ks := [];
    if n > 0 {
      ks := InsertIgnoreKeeps(known, lines, n - 1);
      OneMorePlace(lines, ks, n - 1);
      var line := lines[n - 1];
      if line.id !in known { InsertedIds(known, lines, n - 1, line.id); }
      if line.id !in known && !HasId(InsertIgnore(known, lines, n - 1), line.id) {
        ks := ks + [n - 1];
      }
    }
  }

  /** Of an order's lines, save() stores exactly those whose id no stored line has and no earlier
      line of the order. */
  lemma SavedLines(rows: Rows, lines: seq<Line>) returns (ks: seq<nat>)
    ensures Ascending(ks, |lines|) && InsertIgnore(LineIds(rows), lines, |lines|) == At(lines, ks)
    ensures forall i: nat :: i < |lines| ==>
              (i in ks <==> FirstOfId(lines, i) && forall r :: r in rows ==> !HasId(r.lines, lines[i].id))
  {
    ks := InsertIgnoreKeeps(LineIds(rows), lines, |lines|);
    forall i: nat | i < |lines|
      ensures lines[i].id in LineIds(rows) <==> exists r :: r in rows && HasId(r.lines, lines[i].id)
    {
      if lines[i].id in LineIds(rows) {
        var r, l :| r in rows && l in r.lines && l.id == lines[i].id;
        assert HasId(r.lines, lines[i].id);
      }
    }
  }

  predicate FreshIds(known: set<string>, lines: seq<Line>) {
    && (forall l :: l in lines ==> l.id !in known)
    && (forall i, j :: 0 <= i < j < |lines| ==> lines[i].id != lines[j].id)
  }

  /** With fresh ids nothing is skipped: the stored order has all its lines. */
  lemma {:induction false} FreshLinesAreInserted(known: set<string>, lines: seq<Line>, n: nat)
    requires n <= |lines| && FreshIds(known, lines)
    ensures InsertIgnore(known, lines, n) == lines[..n]
  {
    if n > 0 {
      FreshLinesAreInserted(known, lines, n - 1);
      assert lines[n - 1] in lines;
      assert lines[..n] == lines[..n - 1] + [lines[n - 1]];
    }
  }

  class Database {
    var rows: Rows
    var inventory: Inventory

    // ---------- OrderRepository ----------

    /** SELECT * FROM order_line_items: no ORDER BY, so the rows come in any order. */
    method SelectLines(id: nat) returns (lines: seq<Line>)
      requires id < |rows|
      ensures multiset(lines) == multiset(rows[id].lines)
    {
      lines := rows[id].lines;
    }

    /** Rebuilds the aggregate from its row and its line rows. */
    method FindById(id: int) returns (order: Order?)
      ensures order == null <==> !Stored(rows, id)
      ensures order != null ==>
                && fresh(order) && order.id == id
                && order.Data() == rows[id].(lines := order.lineItems)
                && multiset(order.lineItems) == multiset(rows[id].lines)
    {
      if !(0 <= id < |rows|) {
        return null;
      }
      var row := rows[id];
      var lines := SelectLines(id);
      var found := new Order(id, row.customer, row.status, row.version, row.reason);
      for i := 0 to |lines|
        invariant found.Data() == row.(lines := lines[..i])
      {
        found.lineItems := found.lineItems + [lines[i]];
        assert lines[..i + 1] == lines[..i] + [lines[i]];
      }
      assert lines[..|lines|] == lines;
      return found;
    }

    /** One transaction: the order row, then one INSERT IGNORE per line. */
    method Save(order: Order)
      requires order.id == |rows|
      modifies this`rows
      ensures rows == old(rows) + [OrderData(
                order.customer, InsertIgnore(LineIds(old(rows)), order.lineItems, |order.lineItems|),
                order.status, order.version, None)]
    {
      var inserted: seq<Line> := [];
      var known := LineIds(rows);
      for i := 0 to |order.lineItems|
        invariant inserted == InsertIgnore(known, order.lineItems, i)
      {
        var line := order.lineItems[i];
        if line.id !in known && !HasId(inserted, line.id) {
          inserted := inserted + [line];
        }
      }
      rows := rows + [OrderData(order.customer, inserted, order.status, order.version, None)];
    }

    /** The optimistic lock: no row matches when the version has moved on. */
    method UpdateStatus(id: int, status: Status, expectedVersion: int, reason: Option<string>) returns (ok: bool)
      modifies this`rows
      ensures ok <==> Stored(old(rows), id) && old(rows)[id].version == expectedVersion
      ensures match Tables.UpdateStatus(old(rows), id, status, expectedVersion, reason)
              case Some(after) => ok && rows == after
              case None => !ok && rows == old(rows)
      ensures ok ==> rows == old(rows)[id := old(rows)[id].(
                status := status, reason := reason, version := expectedVersion + 1)]
    {
      ok := 0 <= id < |rows| && rows[id].version == expectedVersion;
      if ok {
        var row := rows[id];
        rows := rows[id := row.(status := status, reason := reason, version := row.version + 1)];
      }
    }

    // ---------- InventoryRepository ----------

    /** price_cents / 100, rounded as the hardware rounds. */
    method Dollars(cents: int) returns (dollars: real)
      ensures IsRounded(dollars, cents as real / 100.0)
    {
      dollars := cents as real / 100.0;
    }

    method FindBySku(sku: Sku) returns (item: Option<PricedItem>)
      ensures item.None? <==> sku !in inventory
      ensures item.Some? ==>
                && item.value.quantity == inventory[sku].quantity
                && item.value.currency == inventory[sku].currency
                && IsRounded(item.value.dollars, inventory[sku].priceCents as real / 100.0)
    {
      if sku !in inventory {
        return None;
      }
      var dollars := Dollars(inventory[sku].priceCents);
      item := Some(PricedItem(inventory[sku].quantity, dollars, inventory[sku].currency));
    }

    method DecrementStock(sku: Sku, quantity: int) returns (ok: bool)
      modifies this`inventory
      ensures ok <==> sku in old(inventory) && old(inventory)[sku].quantity >= quantity
      ensures match Decrement(old(inventory), sku, quantity)
              case Some(after) => ok && inventory == after
              case None => !ok && inventory == old(inventory)
      ensures ok ==> inventory.Keys == old(inventory).Keys
      ensures ok ==> forall s :: s in inventory ==>
                var taken := if s == sku then quantity else 0;
                && Available(inventory, s) == Available(old(inventory), s) - taken
                && inventory[s].version == old(inventory)[s].version + (if s == sku then 1 else 0)
                && inventory[s].priceCents == old(inventory)[s].priceCents
                && inventory[s].currency == old(inventory)[s].currency
    {
      ok := sku in inventory && inventory[sku].quantity >= quantity;
      if ok {
        var item := inventory[sku];
        inventory := inventory[sku := item.(quantity := item.quantity - quantity, version := item.version + 1)];
      }
    }
  }

  class ReadStore {
    var docs: map<int, Snapshot>

    /** replaceOne with upsert: the whole document, whatever was there. */
    method Upsert(snapshot: Snapshot)
      modifies this
      ensures docs == old(docs)[snapshot.order := snapshot]
    {
      docs := docs[snapshot.order := snapshot];
    }
  }
}
