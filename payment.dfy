/** The payments table (models/Payment.js), held in memory as rows in insertion order. */
module Payment {
  import opened Wrappers
  import opened JsValues

  /** One payment attempt; `amount` in cents. */
  datatype PaymentRow = PaymentRow(
    id: int, orderId: int, userId: int, provider: string, providerRef: Option<string>,
    amount: real, currency: string, status: string, payerEmail: Option<string>)

  /** The `fields` argument of `updateByOrder`; `None` is a field the caller left out. */
  datatype PaymentFields = PaymentFields(status: Option<string>, providerRef: Option<string>, payerEmail: Option<string>)

  predicate TableValid(rows: seq<PaymentRow>, nextId: int) {
    && 1 <= nextId
    && (forall k | 0 <= k < |rows| :: 1 <= rows[k].id < nextId)
    && (forall i, j | 0 <= i < j < |rows| :: rows[i].id != rows[j].id)
  }

  /** The row `create` inserts: an absent or empty provider reference or payer e-mail is stored as null. */
  function NewPayment(
    id: int, orderId: int, userId: int, provider: string, amount: real, currency: string, status: string,
    payerEmail: Option<string>, providerRef: Option<string>)
    : (r: PaymentRow)
    ensures r.providerRef == (if Present(providerRef) then providerRef else None) && r.providerRef != Some("")
    ensures r.payerEmail == (if Present(payerEmail) then payerEmail else None) && r.payerEmail != Some("")
    ensures r.(providerRef := None, payerEmail := None) ==
            PaymentRow(id, orderId, userId, provider, None, amount, currency, status, None)
  {
    PaymentRow(id, orderId, userId, provider, OrNull(providerRef), amount, currency, status, OrNull(payerEmail))
  }

  /**
   * `COALESCE(? , column)` with the argument `x || null`: each of status, provider_ref and
   * payer_email takes the new value when one is given (truthy) and keeps the old one otherwise;
   * no other column changes.
   */
  function Coalesced(row: PaymentRow, f: PaymentFields): (r: PaymentRow)
    ensures r.status == if Present(f.status) then f.status.value else row.status
    ensures r.providerRef == if Present(f.providerRef) then f.providerRef else row.providerRef
    ensures r.payerEmail == if Present(f.payerEmail) then f.payerEmail else row.payerEmail
    ensures r.(status := row.status, providerRef := row.providerRef, payerEmail := row.payerEmail) == row
  {
    row.(status := if Present(f.status) then f.status.value else row.status,
         providerRef := OrElse(f.providerRef, row.providerRef),
         payerEmail := OrElse(f.payerEmail, row.payerEmail))
  }

  /** `updateByOrder`: the coalescing update on exactly the rows `WHERE order_id = ?`. */
  function UpdatedByOrder(rows: seq<PaymentRow>, orderId: int, f: PaymentFields): (r: seq<PaymentRow>)
    ensures |r| == |rows|
    ensures forall k | 0 <= k < |rows| && rows[k].orderId == orderId :: r[k] == Coalesced(rows[k], f)
    ensures forall k | 0 <= k < |rows| && rows[k].orderId != orderId :: r[k] == rows[k]
  {
    seq(|rows|, k requires 0 <= k < |rows| => if rows[k].orderId == orderId then Coalesced(rows[k], f) else rows[k])
  }

  /** `getByProviderRef` (`LIMIT 1`): a row with that reference; `provider_ref = NULL` matches no row. */
  function ByProviderRef(rows: seq<PaymentRow>, providerRef: Option<string>): (r: Option<PaymentRow>)
    ensures r.Some? ==> providerRef.Some? && r.value in rows && r.value.providerRef == providerRef
    ensures r.None? <==> providerRef.None? || forall k | 0 <= k < |rows| :: rows[k].providerRef != providerRef
  {
    if providerRef.None? || rows == [] then None
    else if rows[0].providerRef == providerRef then Some(rows[0])
    else
      assert forall k | 1 <= k < |rows| :: rows[k] == rows[1..][k - 1];
      ByProviderRef(rows[1..], providerRef)
  }

  /** `updateByOrder` changes no id, so it keeps the ids in range and distinct. */
  lemma UpdatedByOrderKeepsTableValid(rows: seq<PaymentRow>, nextId: int, orderId: int, f: PaymentFields)
    requires TableValid(rows, nextId)
    ensures TableValid(UpdatedByOrder(rows, orderId, f), nextId)
  {
    var r := UpdatedByOrder(rows, orderId, f);
    assert forall k | 0 <= k < |rows| :: r[k].id == rows[k].id;
  }

  /** Appending a row that carries the next id keeps the ids in range and distinct. */
  lemma AppendKeepsTableValid(rows: seq<PaymentRow>, nextId: int, row: PaymentRow)
    requires TableValid(rows, nextId) && row.id == nextId
    ensures TableValid(rows + [row], nextId + 1)
  {
    var after := rows + [row];
    forall i, j | 0 <= i < j < |after| ensures after[i].id != after[j].id {
      if j == |rows| {
        assert after[i] == rows[i];
      }
    }
  }

  /** Applying the same update twice leaves the table as applying it once. */
  lemma UpdateIdempotent(rows: seq<PaymentRow>, orderId: int, f: PaymentFields)
    ensures UpdatedByOrder(UpdatedByOrder(rows, orderId, f), orderId, f) == UpdatedByOrder(rows, orderId, f)
  {
    var once := UpdatedByOrder(rows, orderId, f);
    var twice := UpdatedByOrder(once, orderId, f);
    forall k | 0 <= k < |rows| ensures twice[k] == once[k] {
      if rows[k].orderId == orderId {
        assert once[k].orderId == orderId;
      }
    }
  }

  /** An update that provides no field is a no-op. */
  lemma EmptyUpdateNoOp(rows: seq<PaymentRow>, orderId: int, f: PaymentFields)
    requires !Present(f.status) && !Present(f.providerRef) && !Present(f.payerEmail)
    ensures UpdatedByOrder(rows, orderId, f) == rows
  {
    var r := UpdatedByOrder(rows, orderId, f);
    forall k | 0 <= k < |rows| ensures r[k] == rows[k] {
      if rows[k].orderId == orderId {
        assert r[k] == Coalesced(rows[k], f);
      }
    }
  }

  /** `updateByOrder` never touches the id, order, user, provider, amount or currency of any row. */
  lemma UpdateKeepsAccounting(rows: seq<PaymentRow>, orderId: int, f: PaymentFields, k: nat)
    requires k < |rows|
    ensures var r := UpdatedByOrder(rows, orderId, f)[k];
      && r.id == rows[k].id && r.orderId == rows[k].orderId && r.userId == rows[k].userId
      && r.provider == rows[k].provider && r.amount == rows[k].amount && r.currency == rows[k].currency
  {
  }

  /**
   * Two updates of the same order in a row act as one whose fields are the second's where it
   * gives them and the first's elsewhere.
   */
  lemma UpdatesCompose(rows: seq<PaymentRow>, orderId: int, f: PaymentFields, g: PaymentFields)
    ensures UpdatedByOrder(UpdatedByOrder(rows, orderId, f), orderId, g) ==
      UpdatedByOrder(rows, orderId, PaymentFields(
        if Present(g.status) then g.status else f.status,
        OrElse(g.providerRef, f.providerRef),
        OrElse(g.payerEmail, f.payerEmail)))
  {
    var h := PaymentFields(
      if Present(g.status) then g.status else f.status,
      OrElse(g.providerRef, f.providerRef),
      OrElse(g.payerEmail, f.payerEmail));
    var lhs := UpdatedByOrder(UpdatedByOrder(rows, orderId, f), orderId, g);
    var rhs := UpdatedByOrder(rows, orderId, h);
    forall k | 0 <= k < |rows| ensures lhs[k] == rhs[k] {
      if rows[k].orderId == orderId {
        assert UpdatedByOrder(rows, orderId, f)[k].orderId == orderId;
      }
    }
  }

  class PaymentTable {
    var rows: seq<PaymentRow>
    var nextId: int

    predicate Valid()
      reads this
    {
      TableValid(rows, nextId)
    }

    constructor ()
      ensures Valid() && rows == [] && nextId == 1
    {
      rows, nextId := [], 1;
    }

    /** `create`: inserts one row with a fresh id. */
    method Create(
      orderId: int, userId: int, provider: string, amount: real, currency: string, status: string,
      payerEmail: Option<string>, providerRef: Option<string>)
      returns (id: int)
      requires Valid()
      modifies this
      ensures Valid()
      ensures id == old(nextId) && nextId == old(nextId) + 1
      ensures rows == old(rows) + [NewPayment(id, orderId, userId, provider, amount, currency, status, payerEmail, providerRef)]
    {
      id := nextId;
      rows := rows + [NewPayment(id, orderId, userId, provider, amount, currency, status, payerEmail, providerRef)];
      nextId := nextId + 1;
    }

    method UpdateByOrder(orderId: int, f: PaymentFields)
      requires Valid()
      modifies this
      ensures Valid()
      ensures rows == UpdatedByOrder(old(rows), orderId, f) && nextId == old(nextId)
    {
      rows := UpdatedByOrder(rows, orderId, f);
    }

    function GetByProviderRef(providerRef: Option<string>): (r: Option<PaymentRow>)
      reads this
      ensures r.Some? ==> r.value in rows && r.value.providerRef == providerRef && providerRef.Some?
    {
      ByProviderRef(rows, providerRef)
    }
  }
}
