/** The inventory store behind the route handlers of backend-project/server.js:
    four tables and the auto-increment counters of the three tables whose ids
    the handlers use. Each handler is a method; the database's error callbacks
    are modelled by a `Fault` argument naming the query whose callback receives
    an error. Handlers issue their queries one after another with no
    transaction, so a fault in a second query leaves the first one's write. */
module LedgerStore {
  import opened Js
  import opened LedgerTables
  import opened LedgerReport

  /** `FailsAt(k)`: the handler's `k`-th query (counted from 0) reports an error. */
  datatype Fault = NoFault | FailsAt(query: nat)

  datatype Body = Message(text: string) | Error(text: string) | ReportBody(report: DailyReport)

  /** An HTTP status with its JSON body. */
  datatype Reply = Reply(status: int, body: Body)

  /** The login handler's first step: a reply that ends it, or the user row
      whose password hash it goes on to compare. */
  datatype LoginLookup = Stop(reply: Reply) | Found(user: User)

  /** The invariants of the parts table: unique ids below the counter and
      unique (name, category) keys. */
  ghost predicate PartsValid(parts: seq<SparePart>, nextSpareId: int) {
    && 0 < nextSpareId
    && UniqueSpareIds(parts)
    && (forall i :: 0 <= i < |parts| ==> 0 < parts[i].spareId < nextSpareId)
    && UniquePartKeys(parts)
  }

  /** The invariants of the stock-out table: unique ids below the counter and
      stored totals equal to quantity times unit price. */
  ghost predicate StockOutsValid(outs: seq<StockOutRow>, nextStockOutId: int) {
    && 0 < nextStockOutId
    && UniqueStockOutIds(outs)
    && (forall i :: 0 <= i < |outs| ==> 0 < outs[i].stockOutId < nextStockOutId)
    && PricesConsistent(outs)
  }

  ghost predicate UsersValid(users: seq<User>, nextUserId: int) {
    && 0 < nextUserId
    && UniqueUsernames(users)
    && (forall i :: 0 <= i < |users| ==> 0 < users[i].userId < nextUserId)
  }

  lemma AdjustKeepsPartsValid(parts: seq<SparePart>, nextSpareId: int, id: int, delta: int)
    requires PartsValid(parts, nextSpareId)
    ensures PartsValid(Adjust(parts, id, delta), nextSpareId)
  {
    AdjustKeepsKeys(parts, id, delta);
  }

  lemma StockOutAppendKeepsValid(outs: seq<StockOutRow>, next: int, row: StockOutRow)
    requires StockOutsValid(outs, next)
    requires row.stockOutId == next && row.totalPrice == row.quantity * row.unitPrice
    ensures StockOutsValid(outs + [row], next + 1)
  {
  }

  class Store {
    var parts: seq<SparePart>
    var stockIns: seq<StockInRow>
    var stockOuts: seq<StockOutRow>
    var users: seq<User>
    /** Next AUTO_INCREMENT values of `sparepart`, `stockout` and `users`; each
        advances by one per row inserted, so the next insert's id is known. */
    var nextSpareId: int
    var nextStockOutId: int
    var nextUserId: int

    ghost predicate Valid()
      reads this
    {
      && PartsValid(parts, nextSpareId)
      && StockOutsValid(stockOuts, nextStockOutId)
      && UsersValid(users, nextUserId)
    }

    /** An empty database; every AUTO_INCREMENT counter starts at 1. */
    constructor ()
      ensures Valid()
      ensures parts == [] && stockIns == [] && stockOuts == [] && users == []
      ensures nextSpareId == 1 && nextStockOutId == 1 && nextUserId == 1
    {
      parts, stockIns, stockOuts, users := [], [], [], [];
      nextSpareId, nextStockOutId, nextUserId := 1, 1, 1;
    }

    /** POST /api/signup. `hash` is what `bcrypt.hash` yields, `None` when it throws. */
    method Signup(username: string, hash: Option<string>, fault: Fault) returns (reply: Reply)
      requires Valid()
      modifies this`users, this`nextUserId
      ensures Valid()
      ensures nextUserId == old(nextUserId) + |users| - |old(users)|
      ensures fault == FailsAt(0) ==> reply == Reply(500, Error("Database error")) && users == old(users)
      ensures fault != FailsAt(0) && UsersNamed(old(users), username) != [] ==>
                reply == Reply(400, Message("User already exists")) && users == old(users)
      ensures fault != FailsAt(0) && UsersNamed(old(users), username) == [] && hash.None? ==>
                reply == Reply(500, Error("Hashing error")) && users == old(users)
      ensures fault != FailsAt(0) && UsersNamed(old(users), username) == [] && hash.Some? && fault == FailsAt(1) ==>
                reply == Reply(500, Error("Signup failed")) && users == old(users)
      ensures fault != FailsAt(0) && UsersNamed(old(users), username) == [] && hash.Some? && fault != FailsAt(1) ==>
                reply == Reply(201, Message("Signup successful!")) &&
                users == old(users) + [User(old(nextUserId), username, hash.value)]
    {
      if fault == FailsAt(0) {
        return Reply(500, Error("Database error"));
      }
      var results := UsersNamed(users, username);
      if |results| > 0 {
        return Reply(400, Message("User already exists"));
      }
      if hash.None? {
        return Reply(500, Error("Hashing error"));
      }
      if fault == FailsAt(1) {
        return Reply(500, Error("Signup failed"));
      }
      UsersNamedFinds(users, username);
      var row := User(nextUserId, username, hash.value);
      users := users + [row];
      nextUserId := nextUserId + 1;
      reply := Reply(201, Message("Signup successful!"));
    }

    /** POST /api/login up to the password comparison: the user lookup. */
    method LookUpUser(username: string, fault: Fault) returns (r: LoginLookup)
      requires Valid()
      ensures fault == FailsAt(0) ==> r == Stop(Reply(500, Error("Database error")))
      ensures fault != FailsAt(0) && (forall i :: 0 <= i < |users| ==> users[i].username != username) ==>
                r == Stop(Reply(404, Error("User not found")))
      ensures fault != FailsAt(0) && (exists i :: 0 <= i < |users| && users[i].username == username) ==>
                r.Found? && r.user in users && r.user.username == username
      ensures r.Found? ==> forall k :: 0 <= k < |users| && users[k].username == username ==> users[k] == r.user
    {
      if fault == FailsAt(0) {
        return Stop(Reply(500, Error("Database error")));
      }
      var results := UsersNamed(users, username);
      UsersNamedFinds(users, username);
      if |results| == 0 {
        return Stop(Reply(404, Error("User not found")));
      }
      r := Found(results[0]);
    }

    /** POST /api/spareparts: rejects a (name, category) pair already present,
        otherwise inserts one row. */
    method AddSparePart(name: string, category: string, quantity: int, unitPrice: int, fault: Fault) returns (reply: Reply)
      requires Valid()
      modifies this`parts, this`nextSpareId
      ensures Valid()
      ensures nextSpareId == old(nextSpareId) + |parts| - |old(parts)|
      ensures fault == FailsAt(0) ==> reply == Reply(500, Error("Database error during check")) && parts == old(parts)
      ensures fault != FailsAt(0) && PartsNamed(old(parts), name, category) != [] ==>
                reply == Reply(400, Message("Spare part already exists")) && parts == old(parts)
      ensures fault != FailsAt(0) && PartsNamed(old(parts), name, category) == [] && fault == FailsAt(1) ==>
                reply == Reply(500, Error("Failed to add spare part")) && parts == old(parts)
      ensures fault != FailsAt(0) && PartsNamed(old(parts), name, category) == [] && fault != FailsAt(1) ==>
                reply == Reply(201, Message("Spare part added successfully")) &&
                parts == old(parts) + [SparePart(old(nextSpareId), name, category, quantity, unitPrice)]
    {
      if fault == FailsAt(0) {
        return Reply(500, Error("Database error during check"));
      }
      var results := PartsNamed(parts, name, category);
      if |results| > 0 {
        return Reply(400, Message("Spare part already exists"));
      }
      if fault == FailsAt(1) {
        return Reply(500, Error("Failed to add spare part"));
      }
      PartsNamedFinds(parts, name, category);
      var row := SparePart(nextSpareId, name, category, quantity, unitPrice);
      parts := parts + [row];
      nextSpareId := nextSpareId + 1;
      reply := Reply(201, Message("Spare part added successfully"));
    }

    /** POST /api/stockin: inserts the event, then raises the quantity of the
        part with `spareId` (if any). No check that the part exists. */
    method StockIn(spareId: int, quantity: int, date: string, fault: Fault) returns (reply: Reply)
      requires Valid()
      modifies this`stockIns, this`parts
      ensures Valid()
      ensures fault == FailsAt(0) ==>
                reply == Reply(500, Error("Stock in failed")) && stockIns == old(stockIns) && parts == old(parts)
      ensures fault != FailsAt(0) ==> stockIns == old(stockIns) + [StockInRow(spareId, quantity, date)]
      ensures fault == FailsAt(1) ==> reply == Reply(500, Error("Failed to update spare quantity")) && parts == old(parts)
      ensures fault != FailsAt(0) && fault != FailsAt(1) ==>
                reply == Reply(200, Message("Stock in successful")) && parts == Adjust(old(parts), spareId, quantity)
    {
      if fault == FailsAt(0) {
        return Reply(500, Error("Stock in failed"));
      }
      stockIns := stockIns + [StockInRow(spareId, quantity, date)];
      if fault == FailsAt(1) {
        return Reply(500, Error("Failed to update spare quantity"));
      }
      AdjustKeepsPartsValid(parts, nextSpareId, spareId, quantity);
      parts := Adjust(parts, spareId, quantity);
      reply := Reply(200, Message("Stock in successful"));
    }

    /** POST /api/stockout: inserts the event with `totalPrice = quantity *
        unitPrice`, then lowers the part's quantity. No stock-sufficiency check
        and no check that the part exists. */
    method StockOut(spareId: int, quantity: int, unitPrice: int, date: string, fault: Fault) returns (reply: Reply)
      requires Valid()
      modifies this`stockOuts, this`nextStockOutId, this`parts
      ensures Valid()
      ensures nextStockOutId == old(nextStockOutId) + |stockOuts| - |old(stockOuts)|
      ensures fault == FailsAt(0) ==>
                reply == Reply(500, Error("Stock out failed")) && stockOuts == old(stockOuts) && parts == old(parts)
      ensures fault != FailsAt(0) ==>
                stockOuts == old(stockOuts) + [StockOutRow(old(nextStockOutId), spareId, quantity, unitPrice, quantity * unitPrice, date)]
      ensures fault == FailsAt(1) ==> reply == Reply(500, Error("Failed to update spare quantity")) && parts == old(parts)
      ensures fault != FailsAt(0) && fault != FailsAt(1) ==>
                reply == Reply(200, Message("Stock out successful")) && parts == Adjust(old(parts), spareId, -quantity)
    {
      var totalPrice := quantity * unitPrice;
      if fault == FailsAt(0) {
        return Reply(500, Error("Stock out failed"));
      }
      var row := StockOutRow(nextStockOutId, spareId, quantity, unitPrice, totalPrice, date);
      StockOutAppendKeepsValid(stockOuts, nextStockOutId, row);
      stockOuts := stockOuts + [row];
      nextStockOutId := nextStockOutId + 1;
      if fault == FailsAt(1) {
        return Reply(500, Error("Failed to update spare quantity"));
      }
      AdjustKeepsPartsValid(parts, nextSpareId, spareId, -quantity);
      parts := Adjust(parts, spareId, -quantity);
      reply := Reply(200, Message("Stock out successful"));
    }

    /** PUT /api/stockout/:id: overwrites the row's quantity, unit price, total
        and date in place. Part quantities are not touched; an unknown id
        matches nothing and still succeeds. */
    method UpdateStockOut(id: int, quantity: int, unitPrice: int, date: string, fault: Fault) returns (reply: Reply)
      requires Valid()
      modifies this`stockOuts
      ensures Valid()
      ensures parts == old(parts)
      ensures fault == FailsAt(0) ==>
                reply == Reply(500, Error("Failed to update stock out record")) && stockOuts == old(stockOuts)
      ensures fault != FailsAt(0) ==>
                reply == Reply(200, Message("Stock out updated successfully")) &&
                stockOuts == Overwrite(old(stockOuts), id, quantity, unitPrice, date)
    {
      var totalPrice := quantity * unitPrice;
      if fault == FailsAt(0) {
        return Reply(500, Error("Failed to update stock out record"));
      }
      OverwriteAt(stockOuts, id, quantity, unitPrice, date);
      OverwriteKeepsPrices(stockOuts, id, quantity, unitPrice, date);
      stockOuts := Overwrite(stockOuts, id, quantity, unitPrice, date);
      reply := Reply(200, Message("Stock out updated successfully"));
    }

    /** DELETE /api/stockout/:id: removes the row. Part quantities are not
        restored; an unknown id deletes nothing and still succeeds. */
    method DeleteStockOut(id: int, fault: Fault) returns (reply: Reply)
      requires Valid()
      modifies this`stockOuts
      ensures Valid()
      ensures parts == old(parts)
      ensures fault == FailsAt(0) ==>
                reply == Reply(500, Error("Failed to delete stock out record")) && stockOuts == old(stockOuts)
      ensures fault != FailsAt(0) ==>
                reply == Reply(200, Message("Stock out deleted successfully")) && stockOuts == Remove(old(stockOuts), id)
    {
      if fault == FailsAt(0) {
        return Reply(500, Error("Failed to delete stock out record"));
      }
      RemoveKeeps(stockOuts, id);
      RemoveKeepsUniqueIds(stockOuts, id);
      RemoveKeepsPrices(stockOuts, id);
      stockOuts := Remove(stockOuts, id);
      reply := Reply(200, Message("Stock out deleted successfully"));
    }

    /** GET /api/report/daily: the day's totals (0 when no rows match) and the
        parts table as it stands. Changes nothing. */
    method GetDailyReport(date: string, fault: Fault) returns (reply: Reply)
      requires Valid()
      ensures fault == FailsAt(0) ==> reply == Reply(500, Error("Error fetching stock in data"))
      ensures fault == FailsAt(1) ==> reply == Reply(500, Error("Error fetching stock out data"))
      ensures fault == FailsAt(2) ==> reply == Reply(500, Error("Error fetching spare parts"))
      ensures fault != FailsAt(0) && fault != FailsAt(1) && fault != FailsAt(2) ==>
                reply == Reply(200, ReportBody(DailyReport(date, StockInOn(stockIns, date), StockOutOn(stockOuts, date),
                                                           SalesOn(stockOuts, date), parts)))
    {
      if fault == FailsAt(0) {
        return Reply(500, Error("Error fetching stock in data"));
      }
      var totalStockIn := SqlSum(StockInQuantities(stockIns, date));
      if fault == FailsAt(1) {
        return Reply(500, Error("Error fetching stock out data"));
      }
      var totalStockOut := SqlSum(StockOutQuantities(stockOuts, date));
      var totalSales := SqlSum(StockOutTotalPrices(stockOuts, date));
      if fault == FailsAt(2) {
        return Reply(500, Error("Error fetching spare parts"));
      }
      ReportMeaning(date, parts, stockIns, stockOuts);
      reply := Reply(200, ReportBody(DailyReport(date, OrZero(totalStockIn), OrZero(totalStockOut), OrZero(totalSales), parts)));
    }
  }
}
