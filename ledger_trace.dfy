/** Ledger consistency: how far each part's stored quantity agrees with its
    stock movements. Stock in and stock out move the quantity in step with the
    ledger; editing or deleting a stock-out row, and a write cut short by a
    failing second query, do not. */
module LedgerTrace {
  import opened LedgerTables

  /** Total stock-in quantity recorded for part `id`. */
  function StockInFor(ins: seq<StockInRow>, id: int): int {
    if ins == [] then 0 else (if ins[0].spareId == id then ins[0].quantity else 0) + StockInFor(ins[1..], id)
  }

  /** Total stock-out quantity recorded for part `id`. */
  function StockOutFor(outs: seq<StockOutRow>, id: int): int {
    if outs == [] then 0 else (if outs[0].spareId == id then outs[0].quantity else 0) + StockOutFor(outs[1..], id)
  }

  /** Every part equals its initial row with quantity moved by its recorded
      stock in minus its recorded stock out. */
  ghost predicate Balanced(initial: seq<SparePart>, parts: seq<SparePart>, ins: seq<StockInRow>, outs: seq<StockOutRow>) {
    |parts| == |initial| &&
    forall i :: 0 <= i < |initial| ==>
      parts[i] == initial[i].(quantity := initial[i].quantity + StockInFor(ins, initial[i].spareId) - StockOutFor(outs, initial[i].spareId))
  }

  lemma {:induction false} StockInForAppend(ins: seq<StockInRow>, e: StockInRow, id: int)
    ensures StockInFor(ins + [e], id) == StockInFor(ins, id) + (if e.spareId == id then e.quantity else 0)
  {
    if ins != [] {
      assert (ins + [e])[1..] == ins[1..] + [e];
      StockInForAppend(ins[1..], e, id);
    } else {
      assert ins + [e] == [e];
    }
  }

  lemma {:induction false} StockOutForAppend(outs: seq<StockOutRow>, e: StockOutRow, id: int)
    ensures StockOutFor(outs + [e], id) == StockOutFor(outs, id) + (if e.spareId == id then e.quantity else 0)
  {
    if outs != [] {
      assert (outs + [e])[1..] == outs[1..] + [e];
      StockOutForAppend(outs[1..], e, id);
    } else {
      assert outs + [e] == [e];
    }
  }

  /** A completed stock in (event appended, quantity raised) keeps the balance,
      also when no part has the event's id. */
  lemma StockInKeepsBalance(initial: seq<SparePart>, parts: seq<SparePart>, ins: seq<StockInRow>, outs: seq<StockOutRow>, e: StockInRow)
    requires Balanced(initial, parts, ins, outs)
    ensures Balanced(initial, Adjust(parts, e.spareId, e.quantity), ins + [e], outs)
  {
    AdjustAt(parts, e.spareId, e.quantity);
    forall i | 0 <= i < |initial| {
      StockInForAppend(ins, e, initial[i].spareId);
    }
  }

  /** A completed stock out (event appended, quantity lowered) keeps the balance. */
  lemma StockOutKeepsBalance(initial: seq<SparePart>, parts: seq<SparePart>, ins: seq<StockInRow>, outs: seq<StockOutRow>, e: StockOutRow)
    requires Balanced(initial, parts, ins, outs)
    ensures Balanced(initial, Adjust(parts, e.spareId, -e.quantity), ins, outs + [e])
  {
    AdjustAt(parts, e.spareId, -e.quantity);
    forall i | 0 <= i < |initial| {
      StockOutForAppend(outs, e, initial[i].spareId);
    }
  }

  /** A stock movement as the stock-in and stock-out handlers record it. */
  datatype Movement = In(inRow: StockInRow) | Out(outRow: StockOutRow)

  datatype Tables = Tables(parts: seq<SparePart>, ins: seq<StockInRow>, outs: seq<StockOutRow>)

  /** The tables after each movement of `ms` in turn has completed both of
      its queries. */
  function Replay(t: Tables, ms: seq<Movement>): Tables
    decreases |ms|
  {
    if ms == [] then t
    else
      var next := match ms[0]
        case In(e) => Tables(Adjust(t.parts, e.spareId, e.quantity), t.ins + [e], t.outs)
        case Out(e) => Tables(Adjust(t.parts, e.spareId, -e.quantity), t.ins, t.outs + [e]);
      Replay(next, ms[1..])
  }

  /** For any trace of completed stock-in and stock-out calls, each part's
      quantity is its initial quantity plus its stock in minus its stock out. */
  lemma {:induction false} LedgerConsistency(initial: seq<SparePart>, ms: seq<Movement>)
    ensures var t := Replay(Tables(initial, [], []), ms); Balanced(initial, t.parts, t.ins, t.outs)
  {
    ReplayKeepsBalance(initial, Tables(initial, [], []), ms);
  }

  lemma {:induction false} ReplayKeepsBalance(initial: seq<SparePart>, t: Tables, ms: seq<Movement>)
    requires Balanced(initial, t.parts, t.ins, t.outs)
    ensures var r := Replay(t, ms); Balanced(initial, r.parts, r.ins, r.outs)
    decreases |ms|
  {
    if ms != [] {
      match ms[0]
      case In(e) =>
        StockInKeepsBalance(initial, t.parts, t.ins, t.outs, e);
        ReplayKeepsBalance(initial, Tables(Adjust(t.parts, e.spareId, e.quantity), t.ins + [e], t.outs), ms[1..]);
      case Out(e) =>
        StockOutKeepsBalance(initial, t.parts, t.ins, t.outs, e);
        ReplayKeepsBalance(initial, Tables(Adjust(t.parts, e.spareId, -e.quantity), t.ins, t.outs + [e]), ms[1..]);
    }
  }

  // ----- Where the balance breaks -----

  lemma {:induction false} StockOutForSplit(a: seq<StockOutRow>, b: seq<StockOutRow>, id: int)
    ensures StockOutFor(a + b, id) == StockOutFor(a, id) + StockOutFor(b, id)
  {
    if a != [] {
      assert (a + b)[1..] == a[1..] + b;
      StockOutForSplit(a[1..], b, id);
    } else {
      assert a + b == b;
    }
  }

  /** There is no stock-sufficiency check: a stock out larger than a part's
      stock is applied in full, keeps the balance, and leaves the quantity
      negative. */
  lemma StockOutCanGoNegative(initial: seq<SparePart>, parts: seq<SparePart>, ins: seq<StockInRow>, outs: seq<StockOutRow>, e: StockOutRow, k: nat)
    requires Balanced(initial, parts, ins, outs)
    requires k < |parts| && parts[k].spareId == e.spareId && e.quantity > parts[k].quantity
    ensures Balanced(initial, Adjust(parts, e.spareId, -e.quantity), ins, outs + [e])
    ensures Adjust(parts, e.spareId, -e.quantity)[k].quantity < 0
  {
    StockOutKeepsBalance(initial, parts, ins, outs, e);
    AdjustAt(parts, e.spareId, -e.quantity);
  }

  /** Editing a stock-out row of an existing part to another quantity leaves
      the part's quantity as it was, so the balance is lost. */
  lemma UpdateBreaksBalance(initial: seq<SparePart>, parts: seq<SparePart>, ins: seq<StockInRow>, outs: seq<StockOutRow>,
                            i: nat, k: nat, quantity: int, unitPrice: int, date: string)
    requires Balanced(initial, parts, ins, outs)
    requires i < |outs| && forall j :: 0 <= j < |outs| && j != i ==> outs[j].stockOutId != outs[i].stockOutId
    requires k < |initial| && initial[k].spareId == outs[i].spareId
    requires quantity != outs[i].quantity
    ensures !Balanced(initial, parts, ins, Overwrite(outs, outs[i].stockOutId, quantity, unitPrice, date))
  {
    var id := outs[i].stockOutId;
    var edited := Overwrite(outs, id, quantity, unitPrice, date);
    OverwriteAt(outs, id, quantity, unitPrice, date);
    var row := Overwritten(outs[i], quantity, unitPrice, date);
    assert edited == outs[..i] + [row] + outs[i + 1..];
    assert outs == outs[..i] + [outs[i]] + outs[i + 1..];
    var sid := initial[k].spareId;
    StockOutForSplit(outs[..i] + [row], outs[i + 1..], sid);
    StockOutForSplit(outs[..i], [row], sid);
    StockOutForSplit(outs[..i] + [outs[i]], outs[i + 1..], sid);
    StockOutForSplit(outs[..i], [outs[i]], sid);
    assert StockOutFor(edited, sid) != StockOutFor(outs, sid);
  }

  /** Deleting a non-empty stock-out row of an existing part does not restore
      the part's quantity, so the balance is lost. */
  lemma DeleteBreaksBalance(initial: seq<SparePart>, parts: seq<SparePart>, ins: seq<StockInRow>, outs: seq<StockOutRow>, i: nat, k: nat)
    requires Balanced(initial, parts, ins, outs)
    requires i < |outs| && forall j :: 0 <= j < |outs| && j != i ==> outs[j].stockOutId != outs[i].stockOutId
    requires k < |initial| && initial[k].spareId == outs[i].spareId
    requires outs[i].quantity != 0
    ensures !Balanced(initial, parts, ins, Remove(outs, outs[i].stockOutId))
  {
    RemoveOne(outs, i);
    assert outs == outs[..i] + [outs[i]] + outs[i + 1..];
    var sid := initial[k].spareId;
    StockOutForSplit(outs[..i] + [outs[i]], outs[i + 1..], sid);
    StockOutForSplit(outs[..i], [outs[i]], sid);
    StockOutForSplit(outs[..i], outs[i + 1..], sid);
    assert StockOutFor(Remove(outs, outs[i].stockOutId), sid) != StockOutFor(outs, sid);
  }

  /** A stock in whose quantity update fails after its insert succeeded leaves
      an event for an existing part that the part's quantity does not reflect. */
  lemma PartialStockInBreaksBalance(initial: seq<SparePart>, parts: seq<SparePart>, ins: seq<StockInRow>, outs: seq<StockOutRow>, e: StockInRow, k: nat)
    requires Balanced(initial, parts, ins, outs)
    requires k < |initial| && initial[k].spareId == e.spareId && e.quantity != 0
    ensures !Balanced(initial, parts, ins + [e], outs)
  {
    StockInForAppend(ins, e, e.spareId);
  }

  /** Likewise a stock out whose quantity update fails after its insert. */
  lemma PartialStockOutBreaksBalance(initial: seq<SparePart>, parts: seq<SparePart>, ins: seq<StockInRow>, outs: seq<StockOutRow>, e: StockOutRow, k: nat)
    requires Balanced(initial, parts, ins, outs)
    requires k < |initial| && initial[k].spareId == e.spareId && e.quantity != 0
    ensures !Balanced(initial, parts, ins, outs + [e])
  {
    StockOutForAppend(outs, e, e.spareId);
  }
}
