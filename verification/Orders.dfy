/** The order aggregate: its stored form, its lines, demand and total, and the mutable object
    that the handlers work on. */
module Orders {
  import opened Wrappers
  import opened MoneyValues
  import opened Sums

  type Sku = string

  datatype Status = Draft | Pending | Confirmed | Rejected | Cancelled

  datatype Line = Line(id: string, sku: Sku, quantity: int, unitPrice: Money)

  /** One order with its line items, as held in memory and as stored. */
  datatype OrderData = OrderData(
    customer: string, lines: seq<Line>, status: Status, version: int, reason: Option<string>)

  predicate Terminal(order: OrderData) {
    order.status == Confirmed || order.status == Rejected
  }

  /** What OrderLineItem's constructor and submit() leave possible. */
  predicate ValidLines(lines: seq<Line>) {
    lines != [] && forall l :: l in lines ==> l.quantity > 0
  }

  // ---------- demand ----------

  function UnitsOf(sku: Sku): Line -> int {
    (l: Line) => if l.sku == sku then l.quantity else 0
  }

  /** The quantity of one SKU that some lines ask for together. */
  function Demand(lines: seq<Line>, sku: Sku): int {
    Sum(UnitsOf(sku), lines)
  }

  lemma DemandNonNegative(lines: seq<Line>, sku: Sku)
    requires forall l :: l in lines ==> l.quantity > 0
    ensures 0 <= Demand(lines, sku)
    ensures forall l :: l in lines && l.sku == sku ==> l.quantity <= Demand(lines, sku)
  {
    SumNonNegative(UnitsOf(sku), lines);
    forall l | l in lines && l.sku == sku
      ensures l.quantity <= Demand(lines, sku)
    {
      assert UnitsOf(sku)(l) == l.quantity;
    }
  }

  lemma DemandPrefix(lines: seq<Line>, k: nat, sku: Sku)
    requires k <= |lines|
    requires forall l :: l in lines ==> l.quantity > 0
    ensures 0 <= Demand(lines[..k], sku) <= Demand(lines, sku)
    ensures k < |lines| ==> Demand(lines[..k + 1], sku) == Demand(lines[..k], sku) + UnitsOf(sku)(lines[k])
  {
    assert lines == lines[..k] + lines[k..];
    SumConcat(UnitsOf(sku), lines[..k], lines[k..]);
    DemandNonNegative(lines[..k], sku);
    DemandNonNegative(lines[k..], sku);
    if k < |lines| {
      assert lines[..k + 1] == lines[..k] + [lines[k]];
      SumAppend(UnitsOf(sku), lines[..k], lines[k]);
    }
  }

  // ---------- totals ----------

  function LineTotal(l: Line): Money {
    Multiply(l.unitPrice, l.quantity)
  }

  function StartCurrency(lines: seq<Line>): string {
    if lines == [] || lines[0].unitPrice.currency == "" then DEFAULT_CURRENCY
    else lines[0].unitPrice.currency
  }

  function AddLines(sum: Money, lines: seq<Line>): Result<Money, string>
    decreases |lines|
  {
    if lines == [] then Success(sum)
    else match Add(sum, LineTotal(lines[0]))
      case Success(next) => AddLines(next, lines[1..])
      case Failure(e) => Failure(e)
  }

  /** The `total` getter: a reduce from zero in the first line's currency. */
  function Total(lines: seq<Line>): Result<Money, string> {
    AddLines(Money(0, StartCurrency(lines)), lines)
  }

  function CentsOf(): Line -> int {
    (l: Line) => l.unitPrice.cents * l.quantity
  }

  predicate AllIn(lines: seq<Line>, currency: string) {
    forall l :: l in lines ==> l.unitPrice.currency == currency
  }

  lemma {:induction false} AddLinesMeaning(sum: Money, lines: seq<Line>)
    ensures AddLines(sum, lines).Success? <==> AllIn(lines, sum.currency)
    ensures AllIn(lines, sum.currency) ==>
              AddLines(sum, lines) == Success(Money(sum.cents + Sum(CentsOf(), lines), sum.currency))
    decreases |lines|
  {
    if lines != [] {
      assert lines == [lines[0]] + lines[1..];
      if sum.currency == lines[0].unitPrice.currency {
        AddLinesMeaning(Add(sum, LineTotal(lines[0])).value, lines[1..]);
        assert AllIn(lines, sum.currency) <==> AllIn(lines[1..], sum.currency);
      } else {
        assert lines[0] in lines;
      }
    }
  }

  /** All lines are in one currency that is not the empty string. */
  predicate OneCurrency(lines: seq<Line>) {
    forall l, m :: l in lines && m in lines ==>
      l.unitPrice.currency == m.unitPrice.currency && l.unitPrice.currency != ""
  }

  /** The total exists exactly for one shared currency, and is then the sum over the lines. */
  lemma TotalMeaning(lines: seq<Line>)
    ensures Total(lines).Success? <==> OneCurrency(lines)
    ensures OneCurrency(lines) ==>
              && Total(lines).value.cents == Sum(CentsOf(), lines)
              && AllIn(lines, Total(lines).value.currency)
              && (lines == [] ==> Total(lines).value.currency == "USD")
  {
    AddLinesMeaning(Money(0, StartCurrency(lines)), lines);
    if lines != [] {
      assert lines[0] in lines;
      assert AllIn(lines, StartCurrency(lines)) <==> OneCurrency(lines);
    }
  }

  lemma {:induction false} FirstMismatch(sum: Money, lines: seq<Line>) returns (i: nat)
    requires !AllIn(lines, sum.currency)
    ensures i < |lines| && AllIn(lines[..i], sum.currency) && lines[i].unitPrice.currency != sum.currency
    ensures AddLines(sum, lines) ==
            Failure("Currency mismatch: " + sum.currency + " vs " + lines[i].unitPrice.currency)
    decreases |lines|
  {
    i := 0;
    if lines[0].unitPrice.currency == sum.currency {
      i := FirstMismatch(Add(sum, LineTotal(lines[0])).value, lines[1..]);
      assert lines[..i + 1] == [lines[0]] + lines[1..][..i];
      i := i + 1;
    }
  }

  /** Otherwise it fails at the first line that is not in the currency of the first one, US dollars
      if that is empty, and names the two. */
  lemma MixedTotal(lines: seq<Line>) returns (i: nat)
    requires !OneCurrency(lines)
    ensures i < |lines|
    ensures var start := if lines[0].unitPrice.currency == "" then "USD" else lines[0].unitPrice.currency;
            && AllIn(lines[..i], start) && lines[i].unitPrice.currency != start
            && Total(lines) == Failure("Currency mismatch: " + start + " vs " + lines[i].unitPrice.currency)
  {
    TotalMeaning(lines);
    AddLinesMeaning(Money(0, StartCurrency(lines)), lines);
    i := FirstMismatch(Money(0, StartCurrency(lines)), lines);
  }

  /** Rows come back in any order, and the total does not depend on which. */
  lemma TotalIgnoresRowOrder(lines: seq<Line>, rows: seq<Line>)
    requires multiset(lines) == multiset(rows)
    ensures OneCurrency(lines) <==> OneCurrency(rows)
    ensures Total(lines).Success? <==> Total(rows).Success?
    ensures Total(lines).Success? ==> Total(lines) == Total(rows)
  {
    SameElements(lines, rows);
    TotalMeaning(lines);
    TotalMeaning(rows);
    SumPermutation(CentsOf(), lines, rows);
    if lines != [] {
      assert lines[0] in rows;
      assert rows[0] in lines;
    }
  }

  lemma SameElements<T>(a: seq<T>, b: seq<T>)
    requires multiset(a) == multiset(b)
    ensures |a| == |b|
    ensures forall x :: x in a <==> x in b
  {
    assert |multiset(a)| == |a| && |multiset(b)| == |b|;
    forall x
      ensures x in a <==> x in b
    {
      assert x in a <==> x in multiset(a);
      assert x in b <==> x in multiset(b);
    }
  }

  // ---------- the mutable aggregate ----------

  class Order {
    const id: nat
    const customer: string
    var status: Status
    var lineItems: seq<Line>
    var version: int
    var rejectionReason: Option<string>

    ghost function Data(): OrderData
      reads this
    {
      OrderData(customer, lineItems, status, version, rejectionReason)
    }

    constructor (id: nat, customer: string, status: Status := Draft, version: int := 1,
                 rejectionReason: Option<string> := None)
      ensures this.id == id
      ensures Data() == OrderData(customer, [], status, version, rejectionReason)
    {
      this.id, this.customer := id, customer;
      this.status, this.lineItems, this.version, this.rejectionReason := status, [], version, rejectionReason;
    }

    method AddLineItem(line: Line) returns (ok: bool)
      modifies this`lineItems
      ensures ok <==> old(status) == Draft && line.quantity > 0
      ensures lineItems == if ok then old(lineItems) + [line] else old(lineItems)
    {
      ok := status == Draft && line.quantity > 0;
      if ok {
        lineItems := lineItems + [line];
      }
    }

    method Submit() returns (ok: bool)
      modifies this`status
      ensures ok <==> old(status) == Draft && lineItems != []
      ensures status == if ok then Pending else old(status)
    {
      ok := status == Draft && lineItems != [];
      if ok {
        status := Pending;
      }
    }

    method Confirm() returns (ok: bool)
      modifies this`status
      ensures ok <==> old(status) == Pending
      ensures status == if ok then Confirmed else old(status)
    {
      ok := status == Pending;
      if ok {
        status := Confirmed;
      }
    }

    method Reject(reason: string) returns (ok: bool)
      modifies this`status, this`rejectionReason
      ensures ok <==> old(status) == Pending
      ensures Data() == if ok then old(Data()).(status := Rejected, reason := Some(reason)) else old(Data())
    {
      ok := status == Pending;
      if ok {
        status, rejectionReason := Rejected, Some(reason);
      }
    }

    method Cancel() returns (ok: bool)
      modifies this`status
      ensures ok <==> old(status) != Confirmed
      ensures status == if ok then Cancelled else old(status)
    {
      ok := status != Confirmed;
      if ok {
        status := Cancelled;
      }
    }
  }
}
