/** The daily report's three aggregate queries:
    `SELECT SUM(quantity) FROM stockin WHERE date = ?` and
    `SELECT SUM(quantity), SUM(totalPrice) FROM stockout WHERE date = ?`,
    read through the `|| 0` defaults of the handler. */
module LedgerReport {
  import opened Js
  import opened LedgerTables

  datatype DailyReport = DailyReport(
    date: string,
    totalStockIn: int,
    totalStockOut: int,
    totalSales: int,
    remainingStock: seq<SparePart>)

  function Sum(xs: seq<int>): int {
    if xs == [] then 0 else xs[0] + Sum(xs[1..])
  }

  lemma {:induction false} SumAppend(a: seq<int>, b: seq<int>)
    ensures Sum(a + b) == Sum(a) + Sum(b)
  {
    if a != [] {
      assert (a + b)[1..] == a[1..] + b;
      SumAppend(a[1..], b);
    } else {
      assert a + b == b;
    }
  }

  /** SQL `SUM`: NULL over no rows, the sum otherwise. */
  function SqlSum(column: seq<int>): Option<int> {
    if column == [] then None else Some(Sum(column))
  }

  /** JavaScript `v || 0` for what the driver returns: NULL and 0 both give 0. */
  function OrZero(v: Option<int>): int {
    if v.Some? && v.value != 0 then v.value else 0
  }

  /** The `|| 0` default only replaces the NULL of an empty selection: the
      total is the plain sum of the selected column, 0 when nothing matches. */
  lemma SqlTotal(column: seq<int>)
    ensures OrZero(SqlSum(column)) == Sum(column)
    ensures column == [] ==> OrZero(SqlSum(column)) == 0
  {
  }

  /** The `quantity` column of the stock-in rows dated `d`, in table order. */
  function StockInQuantities(ins: seq<StockInRow>, d: string): seq<int> {
    if ins == [] then []
    else (if ins[0].date == d then [ins[0].quantity] else []) + StockInQuantities(ins[1..], d)
  }

  /** The `quantity` column of the stock-out rows dated `d`. */
  function StockOutQuantities(outs: seq<StockOutRow>, d: string): seq<int> {
    if outs == [] then []
    else (if outs[0].date == d then [outs[0].quantity] else []) + StockOutQuantities(outs[1..], d)
  }

  /** The stored `totalPrice` column of the stock-out rows dated `d`. */
  function StockOutTotalPrices(outs: seq<StockOutRow>, d: string): seq<int> {
    if outs == [] then []
    else (if outs[0].date == d then [outs[0].totalPrice] else []) + StockOutTotalPrices(outs[1..], d)
  }

  /** What the handler answers for date `d` when all three queries succeed. */
  function Report(d: string, parts: seq<SparePart>, ins: seq<StockInRow>, outs: seq<StockOutRow>): DailyReport {
    DailyReport(
      d,
      OrZero(SqlSum(StockInQuantities(ins, d))),
      OrZero(SqlSum(StockOutQuantities(outs, d))),
      OrZero(SqlSum(StockOutTotalPrices(outs, d))),
      parts)
  }

  // ----- Reference definitions: plain sums over the rows of a day -----

  function StockInOn(ins: seq<StockInRow>, d: string): int {
    if ins == [] then 0 else (if ins[0].date == d then ins[0].quantity else 0) + StockInOn(ins[1..], d)
  }

  function StockOutOn(outs: seq<StockOutRow>, d: string): int {
    if outs == [] then 0 else (if outs[0].date == d then outs[0].quantity else 0) + StockOutOn(outs[1..], d)
  }

  /** Sales of a day: quantity times unit price over the day's stock-out rows. */
  function SalesOn(outs: seq<StockOutRow>, d: string): int {
    if outs == [] then 0
    else (if outs[0].date == d then outs[0].quantity * outs[0].unitPrice else 0) + SalesOn(outs[1..], d)
  }

  lemma {:induction false} StockInColumnSum(ins: seq<StockInRow>, d: string)
    ensures Sum(StockInQuantities(ins, d)) == StockInOn(ins, d)
  {
    if ins != [] {
      StockInColumnSum(ins[1..], d);
      SumAppend(if ins[0].date == d then [ins[0].quantity] else [], StockInQuantities(ins[1..], d));
    }
  }

  lemma {:induction false} StockOutColumnSum(outs: seq<StockOutRow>, d: string)
    ensures Sum(StockOutQuantities(outs, d)) == StockOutOn(outs, d)
  {
    if outs != [] {
      StockOutColumnSum(outs[1..], d);
      SumAppend(if outs[0].date == d then [outs[0].quantity] else [], StockOutQuantities(outs[1..], d));
    }
  }

  lemma {:induction false} SalesColumnSum(outs: seq<StockOutRow>, d: string)
    requires PricesConsistent(outs)
    ensures Sum(StockOutTotalPrices(outs, d)) == SalesOn(outs, d)
  {
    if outs != [] {
      assert PricesConsistent(outs[1..]) by {
        forall i | 0 <= i < |outs[1..]| ensures outs[1..][i].totalPrice == outs[1..][i].quantity * outs[1..][i].unitPrice {
          assert outs[1..][i] == outs[i + 1];
        }
      }
      SalesColumnSum(outs[1..], d);
      SumAppend(if outs[0].date == d then [outs[0].totalPrice] else [], StockOutTotalPrices(outs[1..], d));
    }
  }

  /** The report for `d`: total stock in, stock out and sales are the sums over
      the rows dated `d` (0 when there are none), sales being quantity times
      unit price, and the stock snapshot is the parts table as it stands. */
  lemma ReportMeaning(d: string, parts: seq<SparePart>, ins: seq<StockInRow>, outs: seq<StockOutRow>)
    requires PricesConsistent(outs)
    ensures Report(d, parts, ins, outs) ==
            DailyReport(d, StockInOn(ins, d), StockOutOn(outs, d), SalesOn(outs, d), parts)
  {
    SqlTotal(StockInQuantities(ins, d));
    SqlTotal(StockOutQuantities(outs, d));
    SqlTotal(StockOutTotalPrices(outs, d));
    StockInColumnSum(ins, d);
    StockOutColumnSum(outs, d);
    SalesColumnSum(outs, d);
  }

  /** A day without movements reports zeros. */
  lemma {:induction false} ReportOfQuietDay(d: string, parts: seq<SparePart>, ins: seq<StockInRow>, outs: seq<StockOutRow>)
    requires forall i :: 0 <= i < |ins| ==> ins[i].date != d
    requires forall i :: 0 <= i < |outs| ==> outs[i].date != d
    ensures Report(d, parts, ins, outs) == DailyReport(d, 0, 0, 0, parts)
  {
    QuietStockIn(ins, d);
    QuietStockOut(outs, d);
  }

  lemma {:induction false} QuietStockIn(ins: seq<StockInRow>, d: string)
    requires forall i :: 0 <= i < |ins| ==> ins[i].date != d
    ensures StockInQuantities(ins, d) == []
  {
    if ins != [] {
      QuietStockIn(ins[1..], d);
    }
  }

  lemma {:induction false} QuietStockOut(outs: seq<StockOutRow>, d: string)
    requires forall i :: 0 <= i < |outs| ==> outs[i].date != d
    ensures StockOutQuantities(outs, d) == [] && StockOutTotalPrices(outs, d) == []
  {
    if outs != [] {
      QuietStockOut(outs[1..], d);
    }
  }

  // ----- How each write moves the report -----

  lemma {:induction false} StockInOnAppend(ins: seq<StockInRow>, e: StockInRow, d: string)
    ensures StockInOn(ins + [e], d) == StockInOn(ins, d) + (if e.date == d then e.quantity else 0)
  {
    if ins != [] {
      assert (ins + [e])[1..] == ins[1..] + [e];
      StockInOnAppend(ins[1..], e, d);
    } else {
      assert ins + [e] == [e];
    }
  }

  lemma {:induction false} StockOutOnAppend(outs: seq<StockOutRow>, e: StockOutRow, d: string)
    ensures StockOutOn(outs + [e], d) == StockOutOn(outs, d) + (if e.date == d then e.quantity else 0)
    ensures SalesOn(outs + [e], d) == SalesOn(outs, d) + (if e.date == d then e.quantity * e.unitPrice else 0)
  {
    if outs != [] {
      assert (outs + [e])[1..] == outs[1..] + [e];
      StockOutOnAppend(outs[1..], e, d);
    } else {
      assert outs + [e] == [e];
    }
  }

  lemma {:induction false} StockOutOnSplit(a: seq<StockOutRow>, b: seq<StockOutRow>, d: string)
    ensures StockOutOn(a + b, d) == StockOutOn(a, d) + StockOutOn(b, d)
    ensures SalesOn(a + b, d) == SalesOn(a, d) + SalesOn(b, d)
  {
    if a != [] {
      assert (a + b)[1..] == a[1..] + b;
      StockOutOnSplit(a[1..], b, d);
    } else {
      assert a + b == b;
    }
  }

  /** Deleting row `i` (ids unique) takes its quantity and its sales off its
      own day and leaves every other day's totals as they were. */
  lemma DeleteMovesReport(outs: seq<StockOutRow>, i: nat, d: string)
    requires i < |outs|
    requires forall j :: 0 <= j < |outs| && j != i ==> outs[j].stockOutId != outs[i].stockOutId
    ensures StockOutOn(Remove(outs, outs[i].stockOutId), d) == StockOutOn(outs, d) - (if outs[i].date == d then outs[i].quantity else 0)
    ensures SalesOn(Remove(outs, outs[i].stockOutId), d) == SalesOn(outs, d) - (if outs[i].date == d then outs[i].quantity * outs[i].unitPrice else 0)
  {
    RemoveOne(outs, i);
    assert outs == outs[..i] + [outs[i]] + outs[i + 1..];
    StockOutOnSplit(outs[..i] + [outs[i]], outs[i + 1..], d);
    StockOutOnSplit(outs[..i], [outs[i]], d);
    StockOutOnSplit(outs[..i], outs[i + 1..], d);
  }

  /** Editing row `i` (ids unique) moves its quantity and sales from its old day
      to its new one. */
  lemma UpdateMovesReport(outs: seq<StockOutRow>, i: nat, quantity: int, unitPrice: int, date: string, d: string)
    requires i < |outs|
    requires forall j :: 0 <= j < |outs| && j != i ==> outs[j].stockOutId != outs[i].stockOutId
    ensures StockOutOn(Overwrite(outs, outs[i].stockOutId, quantity, unitPrice, date), d)
         == StockOutOn(outs, d) - (if outs[i].date == d then outs[i].quantity else 0) + (if date == d then quantity else 0)
    ensures SalesOn(Overwrite(outs, outs[i].stockOutId, quantity, unitPrice, date), d)
         == SalesOn(outs, d) - (if outs[i].date == d then outs[i].quantity * outs[i].unitPrice else 0)
                             + (if date == d then quantity * unitPrice else 0)
  {
    var id := outs[i].stockOutId;
    var edited := Overwrite(outs, id, quantity, unitPrice, date);
    OverwriteAt(outs, id, quantity, unitPrice, date);
    var row := Overwritten(outs[i], quantity, unitPrice, date);
    assert edited == outs[..i] + [row] + outs[i + 1..];
    assert outs == outs[..i] + [outs[i]] + outs[i + 1..];
    StockOutOnSplit(outs[..i] + [row], outs[i + 1..], d);
    StockOutOnSplit(outs[..i], [row], d);
    StockOutOnSplit(outs[..i] + [outs[i]], outs[i + 1..], d);
    StockOutOnSplit(outs[..i], [outs[i]], d);
  }
}
