/** One worker taking deliveries one after another: exactly when a delivery changes nothing, when
    its repetition does, and when a whole sequence of them loses no stock. */
module SerialWorker {
  import opened Wrappers
  import opened Orders
  import opened Tables
  import opened Sums
  import opened Processing
  import opened ProtocolState
  import opened ProtocolStock

  datatype Store = Store(rows: Rows, inventory: Inventory)

  /** A delivered event, with the order in which that attempt's line rows come back. */
  datatype Delivery = Delivery(order: int, lines: seq<Line>, at: int)

  function Attempt(t: Store, d: Delivery): Processed {
    Process(t.rows, t.inventory, d.order, d.lines, d.at)
  }

  function ServeOne(t: Store, d: Delivery): Store {
    Store(Attempt(t, d).rows, Attempt(t, d).inventory)
  }

  function Serve(t: Store, ds: seq<Delivery>): Store
    decreases |ds|
  {
    if ds == [] then t else Serve(ServeOne(t, ds[0]), ds[1..])
  }

  /** The value returned or thrown by each attempt. */
  function Results(t: Store, ds: seq<Delivery>): (r: seq<Result<Outcome, Error>>)
    ensures |r| == |ds|
    decreases |ds|
  {
    if ds == [] then [] else [Attempt(t, ds[0]).result] + Results(ServeOne(t, ds[0]), ds[1..])
  }

  /** The deliveries without those of orders seen before. */
  function FirstOnly(ds: seq<Delivery>, seen: set<int>): seq<Delivery> {
    if ds == [] then []
    else if ds[0].order in seen then FirstOnly(ds[1..], seen)
    else [ds[0]] + FirstOnly(ds[1..], seen + {ds[0].order})
  }

  /** An event of any order, known or not, with its line rows in any arrangement. */
  predicate Deliverable(rows: Rows, d: Delivery) {
    Stored(rows, d.order) ==> multiset(d.lines) == multiset(rows[d.order].lines)
  }

  predicate AllDeliverable(rows: Rows, ds: seq<Delivery>) {
    forall i :: 0 <= i < |ds| ==> Deliverable(rows, ds[i])
  }

  /** The stock level alone decides the order: everything fits, or some single line is short. */
  predicate Settles(t: Store, o: int) {
    Open(t.rows, o) ==> Fits(t.inventory, t.rows[o].lines) || SomeShort(t.inventory, t.rows[o].lines)
  }

  /** Units of a SKU on the shelf or sold. */
  function Accounted(t: Store, sku: Sku): int {
    Available(t.inventory, sku) + Sum(ConfirmedUnits(sku), t.rows)
  }

  // ---------- one delivery ----------

  lemma OpenRows(t: Store, d: Delivery)
    requires RowsOk(t.rows) && Open(t.rows, d.order) && Deliverable(t.rows, d)
    ensures var u := ServeOne(t, d);
            && RowsOk(u.rows) && Extends(t.rows, u.rows) && |u.rows| == |t.rows|
            && u.rows == t.rows[d.order := u.rows[d.order]]
            && (Terminal(u.rows[d.order]) <==> Settles(t, d.order))
  {
    var o := d.order;
    assert RowOk(t.rows[o]);
    ExactOutcome(t.rows, t.inventory, o, d.lines, d.at);
    var u := ServeOne(t, d);
    assert u.rows == t.rows[o := u.rows[o]] && RowOk(u.rows[o]);
    forall r | r in u.rows ensures RowOk(r) {
      if r != u.rows[o] { assert r in t.rows; }
    }
  }

  lemma ServedRows(t: Store, d: Delivery)
    requires RowsOk(t.rows) && Deliverable(t.rows, d)
    ensures var u := ServeOne(t, d);
            && RowsOk(u.rows) && Extends(t.rows, u.rows) && |u.rows| == |t.rows|
            && (Open(u.rows, d.order) <==> !Settles(t, d.order))
            && (!Open(t.rows, d.order) ==> u == t)
  {
    if Open(t.rows, d.order) {
      OpenRows(t, d);
      assert RowOk(ServeOne(t, d).rows[d.order]);
    }
  }

  /** A delivery never adds to what is on the shelf or sold, and loses nothing iff the stock
      level decides its order. */
  lemma ServedStock(t: Store, d: Delivery)
    requires RowsOk(t.rows) && Deliverable(t.rows, d)
    ensures forall sku :: Accounted(ServeOne(t, d), sku) <= Accounted(t, sku)
    ensures (forall sku :: Accounted(ServeOne(t, d), sku) == Accounted(t, sku)) <==> Settles(t, d.order)
  {
    ServedRows(t, d);
    if Open(t.rows, d.order) {
      var o, u := d.order, ServeOne(t, d);
      assert RowOk(t.rows[o]);
      OpenRows(t, d);
      AttemptConservesIff(t.rows, t.inventory, o, d.lines, d.at);
      forall sku
        ensures Accounted(u, sku) == Accounted(t, sku) - Available(t.inventory, sku)
                                     + Available(u.inventory, sku) + SoldBy(u.rows[o], sku)
        ensures Available(u.inventory, sku) + SoldBy(u.rows[o], sku) <= Available(t.inventory, sku)
      {
        SumUpdate(ConfirmedUnits(sku), t.rows, o, u.rows[o]);
        NeverGains(t.rows, t.inventory, o, d.lines, d.at, sku);
      }
    }
  }

  /** A delivery leaves both tables alone exactly when its order is unknown or no longer
      pending: the check at the top of processOrder. */
  lemma NoOpIff(t: Store, d: Delivery)
    requires RowsOk(t.rows) && Deliverable(t.rows, d)
    ensures ServeOne(t, d) == t <==> !Open(t.rows, d.order)
  {
    if Open(t.rows, d.order) {
      ServedRows(t, d);
      ServedStock(t, d);
    }
  }

  /** Delivering an order twice in a row, with its rows in any two arrangements, is like
      delivering it once exactly when the stock level decides the order. */
  lemma RepeatIsNoOpIff(t: Store, d: Delivery, again: Delivery)
    requires RowsOk(t.rows) && Deliverable(t.rows, d) && Deliverable(t.rows, again) && again.order == d.order
    ensures ServeOne(ServeOne(t, d), again) == ServeOne(t, d) <==> Settles(t, d.order)
  {
    var u := ServeOne(t, d);
    ServedRows(t, d);
    DeliverableExtends(t.rows, u.rows, [again]);
    assert Deliverable(u.rows, [again][0]);
    NoOpIff(u, again);
  }

  lemma DeliverableExtends(before: Rows, after: Rows, ds: seq<Delivery>)
    requires Extends(before, after) && |before| == |after| && AllDeliverable(before, ds)
    ensures AllDeliverable(after, ds)
  {
    forall i | 0 <= i < |ds| ensures Deliverable(after, ds[i]) {
      assert Deliverable(before, ds[i]);
      if Stored(before, ds[i].order) { assert Evolves(before[ds[i].order], after[ds[i].order]); }
    }
  }

  lemma SetOnward(t: Store, ds: seq<Delivery>)
    requires RowsOk(t.rows) && AllDeliverable(t.rows, ds) && ds != []
    ensures var u := ServeOne(t, ds[0]);
            RowsOk(u.rows) && AllDeliverable(u.rows, ds[1..]) && Extends(t.rows, u.rows) && |u.rows| == |t.rows|
  {
    assert Deliverable(t.rows, ds[0]);
    ServedRows(t, ds[0]);
    DeliverableExtends(t.rows, ServeOne(t, ds[0]).rows, ds[1..]);
  }

  // ---------- sequences of deliveries: duplicates ----------

  predicate ComesAgain(ds: seq<Delivery>, o: int) {
    exists i :: 0 <= i < |ds| && ds[i].order == o
  }

  lemma {:induction false} FirstOnlyMore(ds: seq<Delivery>, d: Delivery, seen: set<int>)
    ensures FirstOnly(ds + [d], seen) ==
            FirstOnly(ds, seen) + if d.order in seen || ComesAgain(ds, d.order) then [] else [d]
    decreases |ds|
  {
    if ds == [] {
      assert ([d])[1..] == [];
    } else {
      assert (ds + [d])[1..] == ds[1..] + [d];
      FirstOnlyMore(ds[1..], d, if ds[0].order in seen then seen else seen + {ds[0].order});
      assert ComesAgain(ds, d.order) <==> ds[0].order == d.order || ComesAgain(ds[1..], d.order) by {
        if ComesAgain(ds[1..], d.order) {
          var i :| 0 <= i < |ds[1..]| && ds[1..][i].order == d.order;
          assert ds[i + 1].order == d.order;
        }
        if i :| 1 <= i < |ds| && ds[i].order == d.order { assert ds[1..][i - 1].order == d.order; }
      }
    }
  }

  /** What is left of a sequence are exactly the first deliveries of each order, in their order. */
  lemma {:induction false} FirstOnlyKeeps(ds: seq<Delivery>, n: nat) returns (ks: seq<nat>)
    requires n <= |ds|
    ensures Ascending(ks, n) && FirstOnly(ds[..n], {}) == At(ds, ks)
    ensures forall i: nat :: i < n ==> (i in ks <==> !ComesAgain(ds[..i], ds[i].order))
  {
    ks := [];
    if n > 0 {
      ks := FirstOnlyKeeps(ds, n - 1);
      OneMorePlace(ds, ks, n - 1);
      assert ds[..n] == ds[..n - 1] + [ds[n - 1]];
      FirstOnlyMore(ds[..n - 1], ds[n - 1], {});
      if !ComesAgain(ds[..n - 1], ds[n - 1].order) {
        ks := ks + [n - 1];
      }
    }
  }

  /** Whenever an order is delivered that will be delivered again, the stock level decides it. */
  predicate RepeatedSettle(t: Store, ds: seq<Delivery>)
    decreases |ds|
  {
    ds == [] || (&& (ComesAgain(ds[1..], ds[0].order) ==> Settles(t, ds[0].order))
                 && RepeatedSettle(ServeOne(t, ds[0]), ds[1..]))
  }

  /** No order seen before is still open when it comes again. */
  predicate SeenAreClosed(t: Store, ds: seq<Delivery>, seen: set<int>) {
    forall o :: o in seen && ComesAgain(ds, o) ==> !Open(t.rows, o)
  }

  lemma StaysClosed(t: Store, d: Delivery, o: int)
    requires RowsOk(t.rows) && Deliverable(t.rows, d) && !Open(t.rows, o)
    ensures !Open(ServeOne(t, d).rows, o)
  {
    ServedRows(t, d);
    if Stored(t.rows, o) { assert Evolves(t.rows[o], ServeOne(t, d).rows[o]); }
  }

  lemma SeenStayClosed(t: Store, ds: seq<Delivery>, seen: set<int>)
    requires RowsOk(t.rows) && AllDeliverable(t.rows, ds) && ds != []
    requires SeenAreClosed(t, ds, seen) && (ComesAgain(ds[1..], ds[0].order) ==> Settles(t, ds[0].order))
    ensures SeenAreClosed(ServeOne(t, ds[0]), ds[1..], seen + {ds[0].order})
  {
    var d, u := ds[0], ServeOne(t, ds[0]);
    assert Deliverable(t.rows, d);
    forall o | o in seen + {d.order} && ComesAgain(ds[1..], o) ensures !Open(u.rows, o) {
      if o == d.order {
        ServedRows(t, d);
      } else {
        var i :| 0 <= i < |ds[1..]| && ds[1..][i].order == o;
        assert ds[i + 1].order == o;
        StaysClosed(t, d, o);
      }
    }
  }

  lemma {:induction false} CollapseSeen(t: Store, ds: seq<Delivery>, seen: set<int>)
    requires RowsOk(t.rows) && AllDeliverable(t.rows, ds) && RepeatedSettle(t, ds) && SeenAreClosed(t, ds, seen)
    ensures Serve(t, ds) == Serve(t, FirstOnly(ds, seen))
    decreases |ds|
  {
    if ds != [] {
      var d, u := ds[0], ServeOne(t, ds[0]);
      SetOnward(t, ds);
      SeenStayClosed(t, ds, seen);
      CollapseSeen(u, ds[1..], seen + {d.order});
      if d.order in seen {
        assert Deliverable(t.rows, d) && ComesAgain(ds, d.order);
        NoOpIff(t, d);
        assert seen + {d.order} == seen;
      } else {
        assert FirstOnly(ds, seen)[1..] == FirstOnly(ds[1..], seen + {d.order});
      }
    }
  }

  /** Duplicate deliveries collapse: any sequence of deliveries in which the stock level decides
      every order that comes again leaves the tables of the sequence without its duplicates. */
  lemma DuplicatesCollapse(t: Store, ds: seq<Delivery>)
    requires RowsOk(t.rows) && AllDeliverable(t.rows, ds) && RepeatedSettle(t, ds)
    ensures Serve(t, ds) == Serve(t, FirstOnly(ds, {}))
  {
    CollapseSeen(t, ds, {});
  }

  // ---------- sequences of deliveries: stock ----------

  predicate AllSettle(t: Store, ds: seq<Delivery>)
    decreases |ds|
  {
    ds == [] || (Settles(t, ds[0].order) && AllSettle(ServeOne(t, ds[0]), ds[1..]))
  }

  /** Orders that name each SKU once meet that condition at every stock level. */
  lemma {:induction false} DistinctSkusSettle(t: Store, ds: seq<Delivery>)
    requires RowsOk(t.rows) && AllDeliverable(t.rows, ds)
    requires forall r :: r in t.rows ==> DistinctSkus(r.lines)
    ensures AllSettle(t, ds) && RepeatedSettle(t, ds)
    decreases |ds|
  {
    if ds != [] {
      var o, u := ds[0].order, ServeOne(t, ds[0]);
      if Stored(t.rows, o) { DistinctSkusNeverThrow(t.inventory, t.rows[o].lines); }
      SetOnward(t, ds);
      forall r | r in u.rows ensures DistinctSkus(r.lines) {
        var i :| 0 <= i < |u.rows| && u.rows[i] == r;
        assert Evolves(t.rows[i], u.rows[i]);
      }
      DistinctSkusSettle(u, ds[1..]);
    }
  }

  predicate WantedStock(r: Result<Outcome, Error>) {
    r.Failure? && r.error.CouldNotReserve?
  }

  /** How one delivery can end. It fails for want of stock exactly when the stock level does not
      decide its order. */
  lemma ServedResult(t: Store, d: Delivery)
    requires RowsOk(t.rows) && Deliverable(t.rows, d)
    ensures var r := Attempt(t, d).result;
            && (WantedStock(r) <==> !Settles(t, d.order))
            && (r == Failure(NotFound) <==> !Stored(t.rows, d.order))
            && (r == Failure(CurrencyMismatch) ==>
                  Open(t.rows, d.order) && !OneCurrency(t.rows[d.order].lines) && Settles(t, d.order))
            && r != Failure(LockConflict)
  {
    if Open(t.rows, d.order) {
      var o := d.order;
      assert RowOk(t.rows[o]);
      ExactOutcome(t.rows, t.inventory, o, d.lines, d.at);
      TotalIgnoresRowOrder(d.lines, t.rows[o].lines);
    }
  }

  /** A serial worker loses no stock, over any sequence of deliveries, iff the stock level decides
      every order when it is delivered, and iff no attempt fails for want of stock. */
  lemma {:induction false} SerialStockIff(t: Store, ds: seq<Delivery>)
    requires RowsOk(t.rows) && AllDeliverable(t.rows, ds)
    ensures forall sku :: Accounted(Serve(t, ds), sku) <= Accounted(t, sku)
    ensures (forall sku :: Accounted(Serve(t, ds), sku) == Accounted(t, sku)) <==> AllSettle(t, ds)
    ensures (forall r :: r in Results(t, ds) ==> !WantedStock(r)) <==> AllSettle(t, ds)
    decreases |ds|
  {
    if ds != [] {
      var u := ServeOne(t, ds[0]);
      assert Deliverable(t.rows, ds[0]);
      ServedStock(t, ds[0]);
      ServedResult(t, ds[0]);
      SetOnward(t, ds);
      SerialStockIff(u, ds[1..]);
      FirstResult(t, ds);
      LossesAdd(t, u, Serve(t, ds));
    }
  }

  lemma FirstResult(t: Store, ds: seq<Delivery>)
    requires ds != []
    ensures (forall r :: r in Results(t, ds) ==> !WantedStock(r)) <==>
              !WantedStock(Attempt(t, ds[0]).result)
              && forall r :: r in Results(ServeOne(t, ds[0]), ds[1..]) ==> !WantedStock(r)
  {
    var rest := Results(ServeOne(t, ds[0]), ds[1..]);
    assert Results(t, ds) == [Attempt(t, ds[0]).result] + rest;
    assert forall r :: r in Results(t, ds) <==> r == Attempt(t, ds[0]).result || r in rest;
  }

  lemma LossesAdd(t: Store, u: Store, v: Store)
    requires forall sku :: Accounted(u, sku) <= Accounted(t, sku)
    requires forall sku :: Accounted(v, sku) <= Accounted(u, sku)
    ensures forall sku :: Accounted(v, sku) <= Accounted(t, sku)
    ensures (forall sku :: Accounted(v, sku) == Accounted(t, sku)) <==>
              (forall sku :: Accounted(u, sku) == Accounted(t, sku))
              && (forall sku :: Accounted(v, sku) == Accounted(u, sku))
  {
    if forall sku :: Accounted(v, sku) == Accounted(t, sku) {
      forall sku ensures Accounted(u, sku) == Accounted(t, sku) {
        assert Accounted(v, sku) == Accounted(t, sku);
      }
      forall sku ensures Accounted(v, sku) == Accounted(u, sku) {
        assert Accounted(v, sku) == Accounted(t, sku);
      }
    }
  }

  /** In such a sequence every delivered order that is stored ends confirmed or rejected. */
  lemma {:induction false} SerialRun(t: Store, ds: seq<Delivery>)
    requires RowsOk(t.rows) && AllDeliverable(t.rows, ds) && AllSettle(t, ds)
    ensures var u := Serve(t, ds);
            && RowsOk(u.rows) && |u.rows| == |t.rows| && Extends(t.rows, u.rows)
            && forall i :: 0 <= i < |ds| && Stored(t.rows, ds[i].order) ==> Terminal(u.rows[ds[i].order])
    decreases |ds|
  {
    if ds != [] {
      var u := ServeOne(t, ds[0]);
      assert Deliverable(t.rows, ds[0]);
      ServedRows(t, ds[0]);
      SetOnward(t, ds);
      SerialRun(u, ds[1..]);
      var v := Serve(t, ds);
      ExtendsTransitive(t.rows, u.rows, v.rows);
      forall i | 0 <= i < |ds| && Stored(t.rows, ds[i].order) ensures Terminal(v.rows[ds[i].order]) {
        if i == 0 {
          assert RowOk(u.rows[ds[0].order]);
          assert Evolves(u.rows[ds[0].order], v.rows[ds[0].order]);
        } else {
          assert ds[i] == ds[1..][i - 1];
        }
      }
    }
  }
}
