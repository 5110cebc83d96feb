/** What one uninterrupted call of processOrder does, and exactly when it confirms, rejects or
    throws. */
module Processing {
  import opened Wrappers
  import opened Orders
  import opened Tables
  import opened Sums
  import opened Listing

  datatype Error = NotFound | CouldNotReserve(sku: Sku) | LockConflict | CurrencyMismatch

  datatype Outcome = SkippedAs(status: Status) | RejectedFor(reason: string) | ConfirmedNow

  /** The tables afterwards, the snapshot published if any, and the value returned or thrown. */
  datatype Processed = Processed(
    rows: Rows, inventory: Inventory, published: Option<Snapshot>, result: Result<Outcome, Error>)

  /** The SKUs of the lines among the first n that are short on their own, in line order. */
  function Shortages(inventory: Inventory, lines: seq<Line>, n: nat): seq<Sku>
    requires n <= |lines|
  {
    if n == 0 then []
    else
      Shortages(inventory, lines, n - 1) + (if Short(inventory, lines[n - 1]) then [lines[n - 1].sku] else [])
  }

  /** The inventory after decrementing for the first n lines in turn, and how many of those
      succeeded before one failed. */
  function Take(inventory: Inventory, lines: seq<Line>, n: nat): (r: (Inventory, nat))
    requires n <= |lines|
    ensures r.1 <= n
  {
    if n == 0 then (inventory, 0)
    else
      var (before, k) := Take(inventory, lines, n - 1);
      if k < n - 1 then (before, k)
      else match Decrement(before, lines[n - 1].sku, lines[n - 1].quantity)
        case Some(after) => (after, n)
        case None => (before, k)
  }

  /** updateStatus and then the snapshot, for an order object already confirmed or rejected. */
  function Finish(rows: Rows, inventory: Inventory, o: int, order: OrderData, outcome: Outcome, at: int): Processed {
    match UpdateStatus(rows, o, order.status, order.version, ReasonToStore(order))
    case None => Processed(rows, inventory, None, Failure(LockConflict))
    case Some(after) =>
      var snapshot := TakeSnapshot(o, order, at);
      Processed(after, inventory, snapshot,
                if snapshot.Some? then Success(outcome) else Failure(CurrencyMismatch))
  }

  /** processOrder, given the order in which the line rows come back. */
  function Process(rows: Rows, inventory: Inventory, o: int, lines: seq<Line>, at: int): Processed {
    if !Stored(rows, o) then Processed(rows, inventory, None, Failure(NotFound))
    else if rows[o].status != Pending then
      Processed(rows, inventory, None, Success(SkippedAs(rows[o].status)))
    else
      var order := rows[o].(lines := lines);
      var shortages := Shortages(inventory, lines, |lines|);
      if shortages != [] then
        Finish(rows, inventory, o, Reject(order, shortages), RejectedFor(ShortageReason(shortages)), at)
      else
        var (after, k) := Take(inventory, lines, |lines|);
        if k < |lines| then Processed(rows, after, None, Failure(CouldNotReserve(lines[k].sku)))
        else Finish(rows, after, o, Confirm(order), ConfirmedNow, at)
  }

  // ---------- what it means ----------

  /** All lines together can be served: no SKU is asked for more often than it is available. */
  predicate Fits(inventory: Inventory, lines: seq<Line>) {
    forall l :: l in lines ==> Demand(lines, l.sku) <= Available(inventory, l.sku)
  }

  predicate Positive(lines: seq<Line>) {
    forall l :: l in lines ==> l.quantity > 0
  }

  lemma {:induction false} ShortagesMeaning(inventory: Inventory, lines: seq<Line>, n: nat)
    requires n <= |lines|
    ensures Shortages(inventory, lines, n) == [] <==> forall i :: 0 <= i < n ==> !Short(inventory, lines[i])
    ensures forall sku :: sku in Shortages(inventory, lines, n) <==>
              exists i :: 0 <= i < n && Short(inventory, lines[i]) && lines[i].sku == sku
  {
    if n > 0 {
      ShortagesMeaning(inventory, lines, n - 1);
    }
  }

  /** They are the SKUs of the lines asking for more than there is, one for each, in line order. */
  lemma {:induction false} ShortagesInOrder(inventory: Inventory, lines: seq<Line>, n: nat) returns (ks: seq<nat>)
    requires n <= |lines| && Positive(lines)
    ensures Ascending(ks, n)
    ensures forall i: nat :: i < n ==> (i in ks <==> Available(inventory, lines[i].sku) < lines[i].quantity)
    ensures Shortages(inventory, lines, n) == SkusAt(lines, ks)
  {
    ks := [];
    if n > 0 {
      ks := ShortagesInOrder(inventory, lines, n - 1);
      OneMorePlace(lines, ks, n - 1);
      assert lines[n - 1] in lines;
      SkusMore(lines, ks, n - 1);
      if Short(inventory, lines[n - 1]) {
        ks := ks + [n - 1];
      }
    }
  }

  lemma SkusMore(lines: seq<Line>, ks: seq<nat>, k: nat)
    requires Ascending(ks, |lines|) && k < |lines|
    ensures SkusAt(lines, ks + [k]) == SkusAt(lines, ks) + [lines[k].sku]
  {
  }

  function SkusAt(lines: seq<Line>, ks: seq<nat>): (r: seq<Sku>)
    requires forall i :: 0 <= i < |ks| ==> ks[i] < |lines|
    ensures |r| == |ks| && forall i :: 0 <= i < |ks| ==> r[i] == lines[ks[i]].sku
  {
    seq(|ks|, i requires 0 <= i < |ks| => lines[ks[i]].sku)
  }

  lemma FitsOneMore(inventory: Inventory, lines: seq<Line>, k: nat)
    requires k < |lines| && Positive(lines)
    ensures Fits(inventory, lines[..k + 1]) <==>
              Fits(inventory, lines[..k]) &&
              Demand(lines[..k], lines[k].sku) + lines[k].quantity <= Available(inventory, lines[k].sku)
  {
    var front, more, last := lines[..k], lines[..k + 1], lines[k];
    assert more == front + [last];
    assert last in more;
    DemandPrefix(lines, k, last.sku);
    forall l | l in front
      ensures Demand(more, l.sku) == Demand(front, l.sku) + UnitsOf(l.sku)(last)
    {
      SumAppend(UnitsOf(l.sku), front, last);
    }
    assert Demand(more, last.sku) == Demand(front, last.sku) + last.quantity;
    if Fits(inventory, more) {
      forall l | l in front ensures Demand(front, l.sku) <= Available(inventory, l.sku) {
        assert l in more;
        assert UnitsOf(l.sku)(last) >= 0;
      }
    }
    if Fits(inventory, front) && Demand(front, last.sku) + last.quantity <= Available(inventory, last.sku) {
      forall l | l in more ensures Demand(more, l.sku) <= Available(inventory, l.sku) {
        if l.sku != last.sku {
          assert l in front;
          assert UnitsOf(l.sku)(last) == 0;
        }
      }
    }
  }

  /** The longest prefix that fits, up to n lines, is k lines long, and has been taken. */
  ghost predicate TookPrefix(inventory: Inventory, lines: seq<Line>, n: nat, after: Inventory, k: nat)
    requires k <= n <= |lines|
  {
    && Fits(inventory, lines[..k])
    && (k < n ==> !Fits(inventory, lines[..k + 1]))
    && after.Keys == inventory.Keys
    && (forall sku :: Available(after, sku) == Available(inventory, sku) - Demand(lines[..k], sku))
    && (forall sku :: sku in inventory ==> SameItem(inventory[sku], after[sku], Updates(lines[..k], sku)))
  }

  /** The price is untouched, and the version counts the updates. */
  predicate SameItem(before: Item, after: Item, updates: int) {
    after.priceCents == before.priceCents && after.currency == before.currency
    && after.version == before.version + updates
  }

  function Names(sku: Sku): Line -> int {
    (l: Line) => if l.sku == sku then 1 else 0
  }

  function Updates(lines: seq<Line>, sku: Sku): int {
    Sum(Names(sku), lines)
  }

  lemma TakeOneMore(inventory: Inventory, lines: seq<Line>, k: nat, before: Inventory)
    requires k < |lines| && Positive(lines) && TookPrefix(inventory, lines, k, before, k)
    ensures match Decrement(before, lines[k].sku, lines[k].quantity)
            case Some(after) => TookPrefix(inventory, lines, k + 1, after, k + 1)
            case None => TookPrefix(inventory, lines, k + 1, before, k)
  {
    FitsOneMore(inventory, lines, k);
    assert lines[..k + 1] == lines[..k] + [lines[k]];
    forall sku
      ensures Demand(lines[..k + 1], sku) == Demand(lines[..k], sku) + UnitsOf(sku)(lines[k])
      ensures Updates(lines[..k + 1], sku) == Updates(lines[..k], sku) + Names(sku)(lines[k])
    {
      DemandPrefix(lines, k, sku);
      SumAppend(Names(sku), lines[..k], lines[k]);
    }
  }

  lemma TookNothing(inventory: Inventory, lines: seq<Line>)
    ensures TookPrefix(inventory, lines, 0, inventory, 0)
  {
    assert lines[..0] == [];
  }

  /** Once a line has been refused, the lines after it change nothing. */
  lemma TookNoMore(inventory: Inventory, lines: seq<Line>, n: nat, after: Inventory, k: nat)
    requires k < n < |lines| && TookPrefix(inventory, lines, n, after, k)
    ensures TookPrefix(inventory, lines, n + 1, after, k)
  {
  }

  /** Decrementing takes exactly the longest prefix of the lines that fits. */
  lemma {:induction false} TakeMeaning(inventory: Inventory, lines: seq<Line>, n: nat)
    requires n <= |lines| && Positive(lines)
    ensures TookPrefix(inventory, lines, n, Take(inventory, lines, n).0, Take(inventory, lines, n).1)
  {
    if n == 0 {
      TookNothing(inventory, lines);
    } else {
      TakeMeaning(inventory, lines, n - 1);
      var before, k := Take(inventory, lines, n - 1).0, Take(inventory, lines, n - 1).1;
      if k == n - 1 {
        TakeOneMore(inventory, lines, k, before);
      } else {
        TookNoMore(inventory, lines, n - 1, before, k);
      }
    }
  }

  lemma FitsPrefix(inventory: Inventory, lines: seq<Line>, k: nat)
    requires k <= |lines| && Positive(lines) && Fits(inventory, lines)
    ensures Fits(inventory, lines[..k])
  {
    forall l | l in lines[..k] ensures Demand(lines[..k], l.sku) <= Available(inventory, l.sku) {
      assert l in lines;
      DemandPrefix(lines, k, l.sku);
    }
  }

  lemma TakesAllIffFits(inventory: Inventory, lines: seq<Line>)
    requires Positive(lines)
    ensures Take(inventory, lines, |lines|).1 == |lines| <==> Fits(inventory, lines)
  {
    TakeMeaning(inventory, lines, |lines|);
    var k := Take(inventory, lines, |lines|).1;
    assert lines[..|lines|] == lines;
    if k < |lines| && Fits(inventory, lines) {
      FitsPrefix(inventory, lines, k + 1);
    }
  }

  lemma FitsIsUnordered(inventory: Inventory, a: seq<Line>, b: seq<Line>)
    requires multiset(a) == multiset(b)
    ensures Fits(inventory, a) <==> Fits(inventory, b)
  {
    SameElements(a, b);
    forall sku ensures Demand(a, sku) == Demand(b, sku) {
      SumPermutation(UnitsOf(sku), a, b);
    }
  }

  lemma FittingLinesAreNotShort(inventory: Inventory, lines: seq<Line>)
    requires Positive(lines) && Fits(inventory, lines)
    ensures forall l :: l in lines ==> !Short(inventory, l)
  {
    forall l | l in lines ensures !Short(inventory, l) {
      DemandNonNegative(lines, l.sku);
    }
  }

  predicate SomeShort(inventory: Inventory, lines: seq<Line>) {
    exists l :: l in lines && Short(inventory, l)
  }

  lemma SomeShortIff(inventory: Inventory, lines: seq<Line>, stored: seq<Line>)
    requires multiset(lines) == multiset(stored)
    ensures SomeShort(inventory, stored) <==> Shortages(inventory, lines, |lines|) != []
  {
    SameElements(lines, stored);
    ShortagesMeaning(inventory, lines, |lines|);
    if l :| l in stored && Short(inventory, l) {
      assert l in lines;
    }
    if i :| 0 <= i < |lines| && Short(inventory, lines[i]) {
      assert lines[i] in stored;
    }
  }

  /** How an attempt that ended its order reports that: with the outcome and a snapshot of the
      ended order, unless the lines are in several currencies. */
  predicate Reports(p: Processed, o: int, ended: OrderData, at: int, outcome: Outcome) {
    if OneCurrency(ended.lines) then
      p.result == Success(outcome) && p.published.Some? && p.published == TakeSnapshot(o, ended, at)
    else p.result == Failure(CurrencyMismatch) && p.published == None
  }

  lemma FinishReports(rows: Rows, inventory: Inventory, o: int, ended: OrderData, outcome: Outcome, at: int)
    requires Stored(rows, o) && rows[o].version == ended.version
    ensures Reports(Finish(rows, inventory, o, ended, outcome, at), o, ended, at, outcome)
  {
    TotalMeaning(ended.lines);
  }

  lemma WhenItFits(rows: Rows, inventory: Inventory, o: int, lines: seq<Line>, at: int)
    requires Stored(rows, o) && rows[o].status == Pending && Positive(rows[o].lines)
    requires multiset(lines) == multiset(rows[o].lines) && Fits(inventory, rows[o].lines)
    ensures var p := Process(rows, inventory, o, lines, at);
            && p.rows == rows[o := rows[o].(status := Confirmed, reason := None, version := rows[o].version + 1)]
            && (forall sku :: Available(p.inventory, sku) == Available(inventory, sku) - Demand(rows[o].lines, sku))
            && Reports(p, o, Confirm(rows[o].(lines := lines)), at, ConfirmedNow)
  {
    var order := rows[o].(lines := lines);
    FinishReports(rows, Take(inventory, lines, |lines|).0, o, Confirm(order), ConfirmedNow, at);
    SameElements(lines, rows[o].lines);
    FitsIsUnordered(inventory, lines, rows[o].lines);
    FittingLinesAreNotShort(inventory, rows[o].lines);
    SomeShortIff(inventory, lines, rows[o].lines);
    TakesAllIffFits(inventory, lines);
    TakeMeaning(inventory, lines, |lines|);
    assert lines[..|lines|] == lines;
    forall sku ensures Demand(lines, sku) == Demand(rows[o].lines, sku) {
      SumPermutation(UnitsOf(sku), lines, rows[o].lines);
    }
  }

  lemma WhenALineIsShort(rows: Rows, inventory: Inventory, o: int, lines: seq<Line>, at: int)
    requires Stored(rows, o) && rows[o].status == Pending
    requires multiset(lines) == multiset(rows[o].lines) && SomeShort(inventory, rows[o].lines)
    ensures var p := Process(rows, inventory, o, lines, at);
            var shortages := Shortages(inventory, lines, |lines|);
            var reason := ShortageReason(shortages);
            && p.inventory == inventory
            && p.rows == rows[o := rows[o].(status := Rejected, version := rows[o].version + 1, reason := Some(reason))]
            && Reports(p, o, Reject(rows[o].(lines := lines), shortages), at, RejectedFor(reason))
  {
    SomeShortIff(inventory, lines, rows[o].lines);
    var shortages := Shortages(inventory, lines, |lines|);
    FinishReports(rows, inventory, o, Reject(rows[o].(lines := lines), shortages),
                  RejectedFor(ShortageReason(shortages)), at);
  }

  lemma WhenItJustFails(rows: Rows, inventory: Inventory, o: int, lines: seq<Line>, at: int)
    requires Stored(rows, o) && rows[o].status == Pending && Positive(rows[o].lines)
    requires multiset(lines) == multiset(rows[o].lines)
    requires !Fits(inventory, rows[o].lines) && !SomeShort(inventory, rows[o].lines)
    ensures var p := Process(rows, inventory, o, lines, at);
            var k := Take(inventory, lines, |lines|).1;
            && k < |lines| && p.rows == rows && p.published == None
            && p.result == Failure(CouldNotReserve(lines[k].sku))
            && Fits(inventory, lines[..k]) && !Fits(inventory, lines[..k + 1])
            && forall sku :: Available(p.inventory, sku) == Available(inventory, sku) - Demand(lines[..k], sku)
  {
    SameElements(lines, rows[o].lines);
    FitsIsUnordered(inventory, lines, rows[o].lines);
    SomeShortIff(inventory, lines, rows[o].lines);
    TakesAllIffFits(inventory, lines);
    TakeMeaning(inventory, lines, |lines|);
  }

  /** The exact outcome of an uninterrupted attempt at a pending order, whatever order its rows
      come back in. It is confirmed iff every SKU's summed demand fits. It is rejected iff some
      single line is short, naming those lines' SKUs in order and touching no stock. Otherwise
      it throws and stays pending, having taken the longest prefix of its lines that fits. No
      other order is touched in any case. */
  lemma ExactOutcome(rows: Rows, inventory: Inventory, o: int, lines: seq<Line>, at: int)
    requires Stored(rows, o) && rows[o].status == Pending && Positive(rows[o].lines)
    requires multiset(lines) == multiset(rows[o].lines)
    ensures var p := Process(rows, inventory, o, lines, at);
            var k := Take(inventory, lines, |lines|).1;
            if Fits(inventory, rows[o].lines) then
              && p.rows == rows[o := rows[o].(status := Confirmed, reason := None, version := rows[o].version + 1)]
              && (forall sku :: Available(p.inventory, sku) == Available(inventory, sku) - Demand(rows[o].lines, sku))
              && Reports(p, o, Confirm(rows[o].(lines := lines)), at, ConfirmedNow)
            else if SomeShort(inventory, rows[o].lines) then
              var shortages := Shortages(inventory, lines, |lines|);
              var reason := ShortageReason(shortages);
              && p.inventory == inventory
              && p.rows == rows[o := rows[o].(status := Rejected, version := rows[o].version + 1, reason := Some(reason))]
              && Reports(p, o, Reject(rows[o].(lines := lines), shortages), at, RejectedFor(reason))
            else
              && k < |lines| && p.rows == rows && p.published == None
              && p.result == Failure(CouldNotReserve(lines[k].sku))
              && Fits(inventory, lines[..k]) && !Fits(inventory, lines[..k + 1])
              && (forall sku :: Available(p.inventory, sku) == Available(inventory, sku) - Demand(lines[..k], sku))
    ensures !(Fits(inventory, rows[o].lines) && SomeShort(inventory, rows[o].lines))
  {
    if Fits(inventory, rows[o].lines) {
      FittingLinesAreNotShort(inventory, rows[o].lines);
      WhenItFits(rows, inventory, o, lines, at);
    } else if SomeShort(inventory, rows[o].lines) {
      WhenALineIsShort(rows, inventory, o, lines, at);
    } else {
      WhenItJustFails(rows, inventory, o, lines, at);
    }
  }

  /** What a rejected order is told, in its row, in its snapshot and in the worker's result: a fixed
      phrase and then the SKU of each line that asks for more than there is, in the order of the
      lines, with ", " between them. SKUs that do not contain that separator can be read back. */
  lemma RejectionReason(rows: Rows, inventory: Inventory, o: int, lines: seq<Line>, at: int) returns (ks: seq<nat>)
    requires Open(rows, o) && Positive(rows[o].lines) && multiset(lines) == multiset(rows[o].lines)
    requires Process(rows, inventory, o, lines, at).rows[o].status == Rejected
    ensures Ascending(ks, |lines|) && ks != []
    ensures forall i: nat :: i < |lines| ==> (i in ks <==> Available(inventory, lines[i].sku) < lines[i].quantity)
    ensures var p := Process(rows, inventory, o, lines, at);
            var skus := SkusAt(lines, ks);
            && p.rows[o].reason.Some?
            && var reason := p.rows[o].reason.value;
            && "Insufficient stock for: " <= reason
            && Spells(reason[24..], skus)
            && ((forall i :: 0 <= i < |skus| ==> NoSeparator(skus[i])) ==> Pieces(reason[24..]) == skus)
            && (p.published.Some? ==> p.published.value.reason == Some(reason))
            && (p.result.Success? ==> p.result.value == RejectedFor(reason))
  {
    SameElements(lines, rows[o].lines);
    ks := ShortagesInOrder(inventory, lines, |lines|);
    ExactOutcome(rows, inventory, o, lines, at);
    var skus := SkusAt(lines, ks);
    SomeShortIff(inventory, lines, rows[o].lines);
    assert ShortageReason(skus)[24..] == JoinComma(skus);
    JoinSpells(skus);
    if forall i :: 0 <= i < |skus| ==> NoSeparator(skus[i]) { PiecesOfJoin(skus); }
  }

  /** A delivery is skipped exactly when its order is stored and not pending, and says as what. */
  lemma SkippedIff(rows: Rows, inventory: Inventory, o: int, lines: seq<Line>, at: int, status: Status)
    requires Open(rows, o) ==> Positive(rows[o].lines) && multiset(lines) == multiset(rows[o].lines)
    ensures Process(rows, inventory, o, lines, at).result == Success(SkippedAs(status)) <==>
              Stored(rows, o) && rows[o].status == status && status != Pending
  {
    if Open(rows, o) { ExactOutcome(rows, inventory, o, lines, at); }
  }

  /** An attempt conserves stock exactly when every SKU's sum fits or some single line is short:
      what the order takes is then sold or nothing at all. Otherwise units are missing that no
      order has. */
  lemma AttemptConservesIff(rows: Rows, inventory: Inventory, o: int, lines: seq<Line>, at: int)
    requires Stored(rows, o) && rows[o].status == Pending && ValidLines(rows[o].lines)
    requires multiset(lines) == multiset(rows[o].lines)
    ensures var p := Process(rows, inventory, o, lines, at);
            (forall sku :: Available(inventory, sku) == Available(p.inventory, sku) + SoldBy(p.rows[o], sku))
            <==> Fits(inventory, rows[o].lines) || SomeShort(inventory, rows[o].lines)
  {
    ExactOutcome(rows, inventory, o, lines, at);
    SameElements(lines, rows[o].lines);
    if !Fits(inventory, rows[o].lines) && !SomeShort(inventory, rows[o].lines) {
      var p := Process(rows, inventory, o, lines, at);
      var k := Take(inventory, lines, |lines|).1;
      var first := lines[0];
      assert first in lines;
      FirstLineIsTaken(inventory, lines, k);
      assert lines[..k][0] == first;
      DemandNonNegative(lines[..k], first.sku);
      assert Available(inventory, first.sku) != Available(p.inventory, first.sku) + SoldBy(p.rows[o], first.sku);
    }
  }

  /** No attempt puts units back, or sells units it has not taken. */
  lemma NeverGains(rows: Rows, inventory: Inventory, o: int, lines: seq<Line>, at: int, sku: Sku)
    requires Stored(rows, o) && rows[o].status == Pending && ValidLines(rows[o].lines)
    requires multiset(lines) == multiset(rows[o].lines)
    ensures var p := Process(rows, inventory, o, lines, at);
            Available(p.inventory, sku) + SoldBy(p.rows[o], sku) <= Available(inventory, sku)
  {
    ExactOutcome(rows, inventory, o, lines, at);
    SameElements(lines, rows[o].lines);
    DemandPrefix(lines, Take(inventory, lines, |lines|).1, sku);
  }

  function SoldBy(order: OrderData, sku: Sku): int {
    if order.status == Confirmed then Demand(order.lines, sku) else 0
  }

  lemma FirstLineIsTaken(inventory: Inventory, lines: seq<Line>, k: nat)
    requires lines != [] && k < |lines| && Positive(lines) && !SomeShort(inventory, lines)
    requires Fits(inventory, lines[..k]) && !Fits(inventory, lines[..k + 1])
    ensures k > 0
  {
    if k == 0 {
      assert lines[0] in lines && !Short(inventory, lines[0]);
      FitsOneMore(inventory, lines, 0);
    }
  }

  /** It returns normally exactly when it ends the order and the order's total can be rendered:
      an order in several currencies is committed and then reported as an exception. */
  lemma ReturnsIff(rows: Rows, inventory: Inventory, o: int, lines: seq<Line>, at: int)
    requires Stored(rows, o) && rows[o].status == Pending && multiset(lines) == multiset(rows[o].lines)
    ensures var p := Process(rows, inventory, o, lines, at);
            && (p.result.Success? <==> p.rows[o].status != Pending && OneCurrency(rows[o].lines))
            && (p.published.Some? <==> p.result.Success?)
  {
    TotalIgnoresRowOrder(lines, rows[o].lines);
    TotalMeaning(rows[o].lines);
  }

  // ---------- orders that name each SKU once ----------

  predicate DistinctSkus(lines: seq<Line>) {
    forall i, j :: 0 <= i < j < |lines| ==> lines[i].sku != lines[j].sku
  }

  lemma {:induction false} DemandOfAbsent(lines: seq<Line>, sku: Sku)
    requires forall l :: l in lines ==> l.sku != sku
    ensures Demand(lines, sku) == 0
  {
    SumAllZero(UnitsOf(sku), lines);
  }

  lemma DemandOfDistinct(lines: seq<Line>, i: nat)
    requires DistinctSkus(lines) && i < |lines|
    ensures Demand(lines, lines[i].sku) == lines[i].quantity
  {
    var sku := lines[i].sku;
    SumWithout(UnitsOf(sku), lines, i);
    forall l | l in Without(lines, i) ensures l.sku != sku {
      var j :| 0 <= j < |lines| - 1 && Without(lines, i)[j] == l;
      assert l == if j < i then lines[j] else lines[j + 1];
    }
    DemandOfAbsent(Without(lines, i), sku);
  }

  lemma {:induction false} NamedOnce(lines: seq<Line>, sku: Sku)
    requires DistinctSkus(lines)
    ensures Sum(Names(sku), lines) <= 1
  {
    if lines != [] {
      if lines[0].sku == sku {
        SumAllZero(Names(sku), lines[1..]);
      } else {
        NamedOnce(lines[1..], sku);
      }
    }
  }

  /** Reading the rows back in another order keeps the SKUs distinct. */
  lemma DistinctPermutation(a: seq<Line>, b: seq<Line>)
    requires DistinctSkus(a) && multiset(a) == multiset(b)
    ensures DistinctSkus(b)
  {
    forall i, j | 0 <= i < j < |b| ensures b[i].sku != b[j].sku {
      NamedOnce(a, b[i].sku);
      SumPermutation(Names(b[i].sku), a, b);
      SumOfTwo(Names(b[i].sku), b, i, j);
    }
  }

  /** The per-line check is enough exactly for such orders: one of them never throws halfway. */
  lemma DistinctSkusNeverThrow(inventory: Inventory, lines: seq<Line>)
    requires DistinctSkus(lines)
    ensures Fits(inventory, lines) || SomeShort(inventory, lines)
  {
    if !SomeShort(inventory, lines) {
      forall l | l in lines ensures Demand(lines, l.sku) <= Available(inventory, l.sku) {
        var i :| 0 <= i < |lines| && lines[i] == l;
        DemandOfDistinct(lines, i);
        assert !Short(inventory, l);
      }
    }
  }

  /** A repeated SKU can slip past it: some stock makes every line pass and the sum fail. */
  lemma RepeatedSkuCanThrow(lines: seq<Line>, i: nat, j: nat)
    requires i < j < |lines| && Positive(lines) && lines[i].sku == lines[j].sku
    ensures exists inventory: Inventory :: !SomeShort(inventory, lines) && !Fits(inventory, lines)
  {
    var skus := set l | l in lines :: l.sku;
    var enough: Inventory := map sku | sku in skus :: Item(Demand(lines, sku), 0, "", 1);
    var sku := lines[i].sku;
    var tight := enough[sku := Item(Demand(lines, sku) - 1, 0, "", 1)];
    forall l | l in lines ensures !Short(tight, l) {
      DemandNonNegative(lines, l.sku);
      if l.sku == sku {
        var m :| 0 <= m < |lines| && lines[m] == l;
        var other := if m == i then j else i;
        forall x | x in lines ensures 0 <= UnitsOf(sku)(x) { }
        SumOfTwo(UnitsOf(sku), lines, if m < other then m else other, if m < other then other else m);
        assert lines[other] in lines;
      }
    }
    assert lines[i] in lines;
    assert !SomeShort(tight, lines) && !Fits(tight, lines);
  }
}
