/** The four tables of the inventory database (`users`, `sparepart`, `stockin`,
    `stockout`) as sequences of rows, and the effect of each SQL statement the
    route handlers in backend-project/server.js issue against them. */
module LedgerTables {

  /** Prices and totals are integers (for example cents). */
  datatype SparePart = SparePart(spareId: int, name: string, category: string, quantity: int, unitPrice: int)
  datatype StockInRow = StockInRow(spareId: int, quantity: int, date: string)
  datatype StockOutRow = StockOutRow(stockOutId: int, spareId: int, quantity: int, unitPrice: int, totalPrice: int, date: string)
  /** `password` holds the stored hash, opaque here. */
  datatype User = User(userId: int, username: string, password: string)

  // ----- SELECT ... WHERE -----

  /** `SELECT * FROM sparepart WHERE name = ? AND category = ?`. */
  function PartsNamed(parts: seq<SparePart>, name: string, category: string): seq<SparePart> {
    if parts == [] then []
    else (if parts[0].name == name && parts[0].category == category then [parts[0]] else [])
         + PartsNamed(parts[1..], name, category)
  }

  lemma {:induction false} PartsNamedFinds(parts: seq<SparePart>, name: string, category: string)
    ensures PartsNamed(parts, name, category) != [] <==>
            exists i :: 0 <= i < |parts| && parts[i].name == name && parts[i].category == category
  {
    if parts != [] {
      PartsNamedFinds(parts[1..], name, category);
      if parts[0].name != name || parts[0].category != category {
        assert (exists i :: 0 <= i < |parts| && parts[i].name == name && parts[i].category == category)
           ==> (exists i :: 0 <= i < |parts[1..]| && parts[1..][i].name == name && parts[1..][i].category == category) by {
          forall i | 0 <= i < |parts| && parts[i].name == name && parts[i].category == category
            ensures 0 <= i - 1 < |parts[1..]| && parts[1..][i - 1].name == name && parts[1..][i - 1].category == category
          {
          }
        }
      }
    }
  }

  /** `SELECT * FROM users WHERE username = ?`. */
  function UsersNamed(users: seq<User>, username: string): seq<User> {
    if users == [] then []
    else (if users[0].username == username then [users[0]] else []) + UsersNamed(users[1..], username)
  }

  lemma {:induction false} UsersNamedFinds(users: seq<User>, username: string)
    ensures UsersNamed(users, username) != [] <==> exists i :: 0 <= i < |users| && users[i].username == username
    ensures UsersNamed(users, username) != [] ==> UsersNamed(users, username)[0] in users
    ensures UsersNamed(users, username) != [] ==> UsersNamed(users, username)[0].username == username
  {
    if users != [] {
      UsersNamedFinds(users[1..], username);
      if users[0].username != username {
        forall i | 0 <= i < |users| && users[i].username == username
          ensures 0 <= i - 1 < |users[1..]| && users[1..][i - 1].username == username
        {
        }
      }
    }
  }

  /** After a user row is appended for a name nobody had, looking the name up
      yields exactly that row. */
  lemma {:induction false} UsersNamedAfterInsert(users: seq<User>, u: User)
    requires UsersNamed(users, u.username) == []
    ensures UsersNamed(users + [u], u.username) == [u]
  {
    if users != [] {
      assert (users + [u])[1..] == users[1..] + [u];
      UsersNamedAfterInsert(users[1..], u);
    } else {
      assert users + [u] == [u];
    }
  }

  // ----- UPDATE sparepart SET quantity = quantity + ? WHERE spareId = ? -----

  /** Every row whose `spareId` is `id` gets `quantity + delta`; no other column
      and no other row changes. */
  function Adjust(parts: seq<SparePart>, id: int, delta: int): seq<SparePart> {
    if parts == [] then []
    else [if parts[0].spareId == id then parts[0].(quantity := parts[0].quantity + delta) else parts[0]]
         + Adjust(parts[1..], id, delta)
  }

  lemma {:induction false} AdjustAt(parts: seq<SparePart>, id: int, delta: int)
    ensures |Adjust(parts, id, delta)| == |parts|
    ensures forall i :: 0 <= i < |parts| && parts[i].spareId == id ==>
              Adjust(parts, id, delta)[i] == parts[i].(quantity := parts[i].quantity + delta)
    ensures forall i :: 0 <= i < |parts| && parts[i].spareId != id ==> Adjust(parts, id, delta)[i] == parts[i]
  {
    if parts != [] {
      AdjustAt(parts[1..], id, delta);
      var r := Adjust(parts, id, delta);
      forall i | 1 <= i < |parts| ensures r[i] == Adjust(parts[1..], id, delta)[i - 1] {
      }
    }
  }

  /** An id no row has: the update matches nothing and the table is unchanged. */
  lemma {:induction false} AdjustUnknownId(parts: seq<SparePart>, id: int, delta: int)
    requires forall i :: 0 <= i < |parts| ==> parts[i].spareId != id
    ensures Adjust(parts, id, delta) == parts
  {
    if parts != [] {
      AdjustUnknownId(parts[1..], id, delta);
    }
  }

  /** Two quantity updates of one part add up; a stock in followed by a stock
      out of the same amount restores the table. */
  lemma {:induction false} AdjustTwice(parts: seq<SparePart>, id: int, a: int, b: int)
    ensures Adjust(Adjust(parts, id, a), id, b) == Adjust(parts, id, a + b)
    ensures Adjust(Adjust(parts, id, a), id, -a) == parts
  {
    if parts != [] {
      AdjustTwice(parts[1..], id, a, b);
    }
  }

  // ----- UPDATE stockout SET ... WHERE stockoutId = ? -----

  function Overwritten(row: StockOutRow, quantity: int, unitPrice: int, date: string): StockOutRow {
    row.(quantity := quantity, unitPrice := unitPrice, totalPrice := quantity * unitPrice, date := date)
  }

  /** Every row whose `stockoutId` is `id` gets the new quantity, unit price,
      date and `totalPrice = quantity * unitPrice`; its id and `spareId` stay. */
  function Overwrite(outs: seq<StockOutRow>, id: int, quantity: int, unitPrice: int, date: string): seq<StockOutRow> {
    if outs == [] then []
    else [if outs[0].stockOutId == id then Overwritten(outs[0], quantity, unitPrice, date) else outs[0]]
         + Overwrite(outs[1..], id, quantity, unitPrice, date)
  }

  lemma {:induction false} OverwriteAt(outs: seq<StockOutRow>, id: int, quantity: int, unitPrice: int, date: string)
    ensures |Overwrite(outs, id, quantity, unitPrice, date)| == |outs|
    ensures forall i :: 0 <= i < |outs| && outs[i].stockOutId != id ==> Overwrite(outs, id, quantity, unitPrice, date)[i] == outs[i]
    ensures forall i :: 0 <= i < |outs| && outs[i].stockOutId == id ==>
              var r := Overwrite(outs, id, quantity, unitPrice, date)[i];
              r.stockOutId == id && r.spareId == outs[i].spareId && r.quantity == quantity &&
              r.unitPrice == unitPrice && r.totalPrice == quantity * unitPrice && r.date == date
  {
    if outs != [] {
      OverwriteAt(outs[1..], id, quantity, unitPrice, date);
      var r := Overwrite(outs, id, quantity, unitPrice, date);
      forall i | 1 <= i < |outs| ensures r[i] == Overwrite(outs[1..], id, quantity, unitPrice, date)[i - 1] {
      }
    }
  }

  lemma {:induction false} OverwriteUnknownId(outs: seq<StockOutRow>, id: int, quantity: int, unitPrice: int, date: string)
    requires forall i :: 0 <= i < |outs| ==> outs[i].stockOutId != id
    ensures Overwrite(outs, id, quantity, unitPrice, date) == outs
  {
    if outs != [] {
      OverwriteUnknownId(outs[1..], id, quantity, unitPrice, date);
    }
  }

  /** Every stored total is its row's quantity times its unit price. */
  ghost predicate PricesConsistent(outs: seq<StockOutRow>) {
    forall i :: 0 <= i < |outs| ==> outs[i].totalPrice == outs[i].quantity * outs[i].unitPrice
  }

  /** Editing a row back to the values it had restores the table. */
  lemma {:induction false} OverwriteRestores(outs: seq<StockOutRow>, row: StockOutRow, quantity: int, unitPrice: int, date: string)
    requires PricesConsistent(outs)
    requires forall i :: 0 <= i < |outs| && outs[i].stockOutId == row.stockOutId ==> outs[i] == row
    ensures Overwrite(Overwrite(outs, row.stockOutId, quantity, unitPrice, date), row.stockOutId, row.quantity, row.unitPrice, row.date) == outs
  {
    if outs != [] {
      OverwriteRestores(outs[1..], row, quantity, unitPrice, date);
    }
  }

  lemma {:induction false} OverwriteKeepsPrices(outs: seq<StockOutRow>, id: int, quantity: int, unitPrice: int, date: string)
    requires PricesConsistent(outs)
    ensures PricesConsistent(Overwrite(outs, id, quantity, unitPrice, date))
  {
    OverwriteAt(outs, id, quantity, unitPrice, date);
  }

  // ----- DELETE FROM stockout WHERE stockoutId = ? -----

  /** The rows whose `stockoutId` is not `id`, in their order. */
  function Remove(outs: seq<StockOutRow>, id: int): seq<StockOutRow> {
    if outs == [] then []
    else (if outs[0].stockOutId == id then [] else [outs[0]]) + Remove(outs[1..], id)
  }

  /** Removal keeps exactly the rows with another id. */
  lemma {:induction false} RemoveKeeps(outs: seq<StockOutRow>, id: int)
    ensures forall r :: r in Remove(outs, id) <==> r in outs && r.stockOutId != id
    ensures |Remove(outs, id)| <= |outs|
  {
    if outs != [] {
      RemoveKeeps(outs[1..], id);
      assert outs == [outs[0]] + outs[1..];
    }
  }

  /** An unknown id deletes nothing. */
  lemma {:induction false} RemoveUnknownId(outs: seq<StockOutRow>, id: int)
    requires forall i :: 0 <= i < |outs| ==> outs[i].stockOutId != id
    ensures Remove(outs, id) == outs
  {
    if outs != [] {
      RemoveUnknownId(outs[1..], id);
    }
  }

  /** With unique ids, a present id deletes exactly one row and keeps the order
      of the others. */
  lemma {:induction false} RemoveOne(outs: seq<StockOutRow>, i: nat)
    requires i < |outs|
    requires forall j :: 0 <= j < |outs| && j != i ==> outs[j].stockOutId != outs[i].stockOutId
    ensures Remove(outs, outs[i].stockOutId) == outs[..i] + outs[i + 1..]
  {
    var id := outs[i].stockOutId;
    if i == 0 {
      RemoveUnknownId(outs[1..], id);
    } else {
      RemoveOne(outs[1..], i - 1);
      assert outs[1..][..i - 1] + outs[1..][i..] == outs[1..i] + outs[i + 1..];
      assert outs[..i] == [outs[0]] + outs[1..i];
    }
  }

  lemma {:induction false} RemoveKeepsPrices(outs: seq<StockOutRow>, id: int)
    requires PricesConsistent(outs)
    ensures PricesConsistent(Remove(outs, id))
  {
    RemoveKeeps(outs, id);
    var r := Remove(outs, id);
    forall i | 0 <= i < |r| ensures r[i].totalPrice == r[i].quantity * r[i].unitPrice {
      assert r[i] in outs;
    }
  }

  // ----- Table invariants the handlers keep -----

  ghost predicate UniqueSpareIds(parts: seq<SparePart>) {
    forall i, j :: 0 <= i < j < |parts| ==> parts[i].spareId != parts[j].spareId
  }

  /** No two parts share a (name, category) pair. */
  ghost predicate UniquePartKeys(parts: seq<SparePart>) {
    forall i, j :: 0 <= i < j < |parts| ==> parts[i].name != parts[j].name || parts[i].category != parts[j].category
  }

  ghost predicate UniqueStockOutIds(outs: seq<StockOutRow>) {
    forall i, j :: 0 <= i < j < |outs| ==> outs[i].stockOutId != outs[j].stockOutId
  }

  ghost predicate UniqueUsernames(users: seq<User>) {
    forall i, j :: 0 <= i < j < |users| ==> users[i].username != users[j].username
  }

  /** A quantity update changes no id, name or category. */
  lemma AdjustKeepsKeys(parts: seq<SparePart>, id: int, delta: int)
    ensures |Adjust(parts, id, delta)| == |parts|
    ensures forall i :: 0 <= i < |parts| ==>
      Adjust(parts, id, delta)[i].spareId == parts[i].spareId &&
      Adjust(parts, id, delta)[i].name == parts[i].name &&
      Adjust(parts, id, delta)[i].category == parts[i].category
  {
    AdjustAt(parts, id, delta);
  }

  lemma {:induction false} RemoveKeepsUniqueIds(outs: seq<StockOutRow>, id: int)
    requires UniqueStockOutIds(outs)
    ensures UniqueStockOutIds(Remove(outs, id))
  {
    if outs != [] {
      assert UniqueStockOutIds(outs[1..]) by {
        forall i, j | 0 <= i < j < |outs[1..]| ensures outs[1..][i].stockOutId != outs[1..][j].stockOutId {
          assert outs[1..][i] == outs[i + 1] && outs[1..][j] == outs[j + 1];
        }
      }
      RemoveKeepsUniqueIds(outs[1..], id);
      RemoveKeeps(outs[1..], id);
      var rest := Remove(outs[1..], id);
      forall j | 0 <= j < |rest| ensures rest[j].stockOutId != outs[0].stockOutId {
        assert rest[j] in outs[1..];
        var k :| 0 <= k < |outs[1..]| && outs[1..][k] == rest[j];
        assert outs[k + 1] == rest[j];
      }
    }
  }
}
