/** The orders table (models/Order.js), held in memory as rows in insertion order. */
module Order {
  import opened Wrappers
  import opened JsValues

  /** An order header; `totalAmount` in cents, `orderDate` the insertion time given by the database clock. */
  datatype OrderRow = OrderRow(
    id: int, userId: int, totalAmount: real, paymentMethod: Option<string>, status: string, orderDate: int)

  /** Auto-increment ids: all positive, all below the next id, all distinct. */
  predicate TableValid(rows: seq<OrderRow>, nextId: int) {
    && 1 <= nextId
    && (forall k | 0 <= k < |rows| :: 1 <= rows[k].id < nextId)
    && (forall i, j | 0 <= i < j < |rows| :: rows[i].id != rows[j].id)
  }

  /**
   * The row `create` inserts: a falsy status becomes 'PENDING' and a falsy payment method
   * becomes null, so a stored order never has an empty status or payment method.
   */
  function NewOrder(
    id: int, userId: int, totalAmount: real, paymentMethod: Option<string>, status: Option<string>, orderDate: int)
    : (r: OrderRow)
    ensures r.status == if Present(status) then status.value else "PENDING"
    ensures r.paymentMethod == if Present(paymentMethod) then paymentMethod else None
    ensures r.status != "" && r.paymentMethod != Some("")
    ensures r.id == id && r.userId == userId && r.totalAmount == totalAmount && r.orderDate == orderDate
  {
    OrderRow(id, userId, totalAmount, OrNull(paymentMethod), if Present(status) then status.value else "PENDING",
             orderDate)
  }

  /** `getById` (`LIMIT 1`): the first row with that id, or nothing. */
  function Lookup(rows: seq<OrderRow>, id: int): (r: Option<OrderRow>)
    ensures r.Some? ==> r.value in rows && r.value.id == id
    ensures r.None? <==> forall k | 0 <= k < |rows| :: rows[k].id != id
  {
    if rows == [] then None
    else if rows[0].id == id then Some(rows[0])
    else
      assert forall k | 1 <= k < |rows| :: rows[k] == rows[1..][k - 1];
      Lookup(rows[1..], id)
  }

  /** `updateStatus`: every row with that id gets the new status; no other field and no other row changes. */
  function WithStatus(rows: seq<OrderRow>, id: int, status: string): (r: seq<OrderRow>)
    ensures |r| == |rows|
    ensures forall k | 0 <= k < |rows| :: r[k].(status := rows[k].status) == rows[k]
    ensures forall k | 0 <= k < |rows| && rows[k].id == id :: r[k].status == status
    ensures forall k | 0 <= k < |rows| && rows[k].id != id :: r[k] == rows[k]
  {
    seq(|rows|, k requires 0 <= k < |rows| => if rows[k].id == id then rows[k].(status := status) else rows[k])
  }

  /** Rows newest first, as `ORDER BY orderDate DESC` returns them. */
  predicate NewestFirst(rows: seq<OrderRow>) {
    forall i, j | 0 <= i < j < |rows| :: rows[i].orderDate >= rows[j].orderDate
  }

  function InsertByDate(o: OrderRow, rows: seq<OrderRow>): (r: seq<OrderRow>)
    requires NewestFirst(rows)
    ensures NewestFirst(r)
    ensures multiset(r) == multiset(rows) + multiset{o}
    ensures forall x | x in r :: x == o || x in rows
  {
    if rows == [] then [o]
    else if o.orderDate >= rows[0].orderDate then
      NewestFirstCons(o, rows);
      [o] + rows
    else
      var rest := InsertByDate(o, rows[1..]);
      assert rows == [rows[0]] + rows[1..];
      NewestFirstCons(rows[0], rest);
      [rows[0]] + rest
  }

  lemma NewestFirstCons(x: OrderRow, s: seq<OrderRow>)
    requires NewestFirst(s)
    requires forall y | y in s :: y.orderDate <= x.orderDate
    ensures NewestFirst([x] + s)
  {
    var c := [x] + s;
    forall i, j | 0 <= i < j < |c| ensures c[i].orderDate >= c[j].orderDate {
      assert c[j] == s[j - 1];
      if i > 0 {
        assert c[i] == s[i - 1];
      }
    }
  }

  /** The rows sorted newest first (ties keep no particular order in SQL; here, insertion order). */
  function SortByDateDesc(rows: seq<OrderRow>): (r: seq<OrderRow>)
    ensures NewestFirst(r)
    ensures multiset(r) == multiset(rows)
  {
    if rows == [] then []
    else
      assert rows == [rows[0]] + rows[1..];
      InsertByDate(rows[0], SortByDateDesc(rows[1..]))
  }

  /** `WHERE o.userId = ?`: exactly the rows of that user, each as often as in the table. */
  function OfUser(rows: seq<OrderRow>, userId: int): (r: seq<OrderRow>)
    ensures forall o | o in r :: o.userId == userId
    ensures forall o :: multiset(r)[o] == if o.userId == userId then multiset(rows)[o] else 0
  {
    if rows == [] then []
    else
      assert rows == [rows[0]] + rows[1..];
      (if rows[0].userId == userId then [rows[0]] else []) + OfUser(rows[1..], userId)
  }

  /** `updateStatus` changes no id, so it keeps the ids in range and distinct. */
  lemma WithStatusKeepsTableValid(rows: seq<OrderRow>, nextId: int, id: int, status: string)
    requires TableValid(rows, nextId)
    ensures TableValid(WithStatus(rows, id, status), nextId)
  {
    var r := WithStatus(rows, id, status);
    assert forall k | 0 <= k < |rows| :: r[k].id == rows[k].id;
  }

  /** Appending a row that carries the next id keeps the ids in range and distinct. */
  lemma AppendKeepsTableValid(rows: seq<OrderRow>, nextId: int, row: OrderRow)
    requires TableValid(rows, nextId) && row.id == nextId
    ensures TableValid(rows + [row], nextId + 1)
  {
    var after := rows + [row];
    forall i, j | 0 <= i < j < |after| ensures after[i].id != after[j].id {
      if j == |rows| {
        assert after[i] == rows[i];
      }
    }
  }

  /** With distinct ids, `getById` finds the one row that has the id. */
  lemma LookupUnique(rows: seq<OrderRow>, k: nat)
    requires k < |rows|
    requires forall i, j | 0 <= i < j < |rows| :: rows[i].id != rows[j].id
    ensures Lookup(rows, rows[k].id) == Some(rows[k])
  {
    var r := Lookup(rows, rows[k].id);
    var j :| 0 <= j < |rows| && rows[j] == r.value;
    assert j == k;
  }

  /** `updateStatus` on an id no row has changes nothing. */
  lemma WithStatusUnknownId(rows: seq<OrderRow>, id: int, status: string)
    requires Lookup(rows, id).None?
    ensures WithStatus(rows, id, status) == rows
  {
  }

  /** After `updateStatus(id, s)`, `getById(id)` reads status `s`, and every other id reads as before. */
  lemma {:induction false} LookupAfterWithStatus(rows: seq<OrderRow>, id: int, status: string, other: int)
    ensures Lookup(WithStatus(rows, id, status), id) ==
      match Lookup(rows, id) case Some(o) => Some(o.(status := status)) case None => None
    ensures other != id ==> Lookup(WithStatus(rows, id, status), other) == Lookup(rows, other)
  {
    if rows != [] {
      var r := WithStatus(rows, id, status);
      assert r[1..] == WithStatus(rows[1..], id, status);
      LookupAfterWithStatus(rows[1..], id, status, other);
    }
  }

  class OrderTable {
    var rows: seq<OrderRow>
    var nextId: int

    predicate Valid()
      reads this
    {
      TableValid(rows, nextId)
    }

    constructor ()
      ensures Valid() && rows == [] && nextId == 1
    {
      rows, nextId := [], 1;
    }

    /** `create`: inserts one row with a fresh id and returns that id (`insertId`). */
    method Create(userId: int, totalAmount: real, paymentMethod: Option<string>, status: Option<string>, orderDate: int)
      returns (id: int)
      requires Valid()
      modifies this
      ensures Valid()
      ensures id == old(nextId) && nextId == old(nextId) + 1 && Lookup(old(rows), id).None?
      ensures rows == old(rows) + [NewOrder(id, userId, totalAmount, paymentMethod, status, orderDate)]
    {
      id := nextId;
      rows := rows + [NewOrder(id, userId, totalAmount, paymentMethod, status, orderDate)];
      nextId := nextId + 1;
    }

    /** `getById`: a row with that id if there is one; with `Valid()` it is the only one. */
    function GetById(id: int): (r: Option<OrderRow>)
      reads this
      ensures r.Some? ==> r.value in rows && r.value.id == id
      ensures r.None? <==> forall k | 0 <= k < |rows| :: rows[k].id != id
    {
      Lookup(rows, id)
    }

    method UpdateStatus(id: int, status: string)
      requires Valid()
      modifies this
      ensures Valid()
      ensures rows == WithStatus(old(rows), id, status) && nextId == old(nextId)
    {
      rows := WithStatus(rows, id, status);
    }

    /** `getAllByUser`: exactly the user's orders, newest first. */
    function GetAllByUser(userId: int): (r: seq<OrderRow>)
      reads this
      ensures forall o | o in r :: o.userId == userId
      ensures NewestFirst(r)
      ensures forall o :: multiset(r)[o] == if o.userId == userId then multiset(rows)[o] else 0
    {
      SortByDateDesc(OfUser(rows, userId))
    }

    /** `getAll`: every order, newest first. */
    function GetAll(): (r: seq<OrderRow>)
      reads this
      ensures NewestFirst(r)
      ensures multiset(r) == multiset(rows)
    {
      SortByDateDesc(rows)
    }
  }
}
