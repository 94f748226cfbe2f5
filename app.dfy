/** The request handlers of `01app.py` that decide things: the role check,
    the two status-update endpoints over the orders, payments and history
    tables, the filtered orders listing and its page count. */
module App {
  import opened Py
  import opened Wrappers
  import Utils
  import Models

  // ---------------------------------------------------------------------------
  // Access

  /** `role_required(role)`: the handler runs when the user's role is the
      required one or "superadmin"; otherwise the user is redirected. */
  predicate RoleAllowed(userRole: PyValue, required: string)
  {
    userRole == PyStr(required) || userRole == PyStr("superadmin")
  }

  /** A superadmin passes every role check; on a superadmin-only route every
      other role, including the "user" role a new account gets by default,
      is turned away. */
  lemma {:induction false} SuperadminRoutes(userRole: PyValue, required: string)
    ensures userRole == PyStr("superadmin") ==> RoleAllowed(userRole, required)
    ensures RoleAllowed(userRole, "superadmin") <==> userRole == PyStr("superadmin")
    ensures !RoleAllowed(Models.UserOf(map[]).role, "superadmin")
    ensures RoleAllowed(userRole, required) && userRole != PyStr(required) ==> userRole == PyStr("superadmin")
  {
  }

  // ---------------------------------------------------------------------------
  // Tables

  datatype OrderRow = OrderRow(orderId: int, userId: PyValue, totalAmount: PyValue, paymentMode: PyValue,
                               status: string, notes: PyValue)

  datatype PaymentRow = PaymentRow(paymentId: int, orderId: int, userId: PyValue, amount: PyValue,
                                   paymentMode: PyValue, paymentStatus: string, transactionId: PyValue,
                                   paymentDate: PyValue)

  datatype HistoryRow = HistoryRow(orderId: int, oldStatus: string, newStatus: string, changedBy: string,
                                   notes: PyValue)

  /** What a handler sends back: a redirect for a user without the role,
      or the JSON body with its `success` flag and `message`. */
  datatype Response = Redirect | Json(success: bool, message: string)

  const OrderStatuses: seq<string> := ["pending", "processing", "completed", "cancelled", "delivered"]
  const PaymentStatuses: seq<string> := ["pending", "completed", "failed", "refunded", "cancelled"]

  predicate HasOrder(rows: seq<OrderRow>, id: int)
  {
    exists i :: 0 <= i < |rows| && rows[i].orderId == id
  }

  predicate HasPayment(rows: seq<PaymentRow>, orderId: int)
  {
    exists i :: 0 <= i < |rows| && rows[i].orderId == orderId
  }

  predicate UniqueOrderIds(rows: seq<OrderRow>)
  {
    forall i, j :: 0 <= i < j < |rows| ==> rows[i].orderId != rows[j].orderId
  }

  /** The text value a query parameter may carry: the database rejects any
      other value where a text column expects one. */
  predicate TextOrNull(v: PyValue)
  {
    v.PyStr? || v.PyNone?
  }

  /** `UPDATE orders SET status = s, notes = COALESCE(notes_in, notes)
      WHERE order_id = id`: a NULL note keeps the stored one. */
  function SetOrderStatus(rows: seq<OrderRow>, id: int, status: string, notes: PyValue): (r: seq<OrderRow>)
    ensures |r| == |rows|
    ensures forall i :: 0 <= i < |rows| ==> r[i].orderId == rows[i].orderId
    ensures forall i :: 0 <= i < |rows| ==> r[i] == if rows[i].orderId == id then
                                                      rows[i].(status := status,
                                                               notes := if notes.PyNone? then rows[i].notes else notes)
                                                    else rows[i]
  {
    if rows == [] then []
    else
      var row := rows[0];
      [if row.orderId == id then row.(status := status, notes := if notes.PyNone? then row.notes else notes) else row]
      + SetOrderStatus(rows[1..], id, status, notes)
  }

  /** `SELECT status FROM orders WHERE order_id = id`, on a table whose ids
      are unique. */
  function StatusOf(rows: seq<OrderRow>, id: int): (s: string)
    requires HasOrder(rows, id)
    ensures exists i :: 0 <= i < |rows| && rows[i].orderId == id && rows[i].status == s
  {
    if rows[0].orderId == id then rows[0].status
    else StatusOf(rows[1..], id)
  }

  /** The order row with the given id. */
  function OrderWith(rows: seq<OrderRow>, id: int): (o: OrderRow)
    requires HasOrder(rows, id)
    ensures o.orderId == id && o in rows
  {
    if rows[0].orderId == id then rows[0]
    else OrderWith(rows[1..], id)
  }

  /** The update touches exactly the row with the id: every row keeps its
      id, so the ids stay unique, and afterwards the status read back for
      that id is the one just written. */
  lemma {:induction false} SetOrderStatusEffect(rows: seq<OrderRow>, id: int, status: string, notes: PyValue)
    requires UniqueOrderIds(rows) && HasOrder(rows, id)
    ensures UniqueOrderIds(SetOrderStatus(rows, id, status, notes))
    ensures HasOrder(SetOrderStatus(rows, id, status, notes), id)
    ensures StatusOf(SetOrderStatus(rows, id, status, notes), id) == status
  {
    var r := SetOrderStatus(rows, id, status, notes);
    var i :| 0 <= i < |rows| && rows[i].orderId == id;
    assert r[i].orderId == id && r[i].status == status;
    StatusOfAt(r, id, i);
  }

  /** With unique ids, the status read for an id is that of its row. */
  lemma {:induction false} StatusOfAt(rows: seq<OrderRow>, id: int, i: int)
    requires UniqueOrderIds(rows) && 0 <= i < |rows| && rows[i].orderId == id
    ensures HasOrder(rows, id) && StatusOf(rows, id) == rows[i].status
  {
    var s := StatusOf(rows, id);
    var j :| 0 <= j < |rows| && rows[j].orderId == id && rows[j].status == s;
    assert i == j;
  }

  /** `UPDATE payments SET payment_status = s, transaction_id = CASE WHEN
      t != '' THEN t ELSE transaction_id END, payment_date = CASE WHEN s =
      'completed' THEN now ELSE payment_date END WHERE order_id = id`. A NULL
      transaction id compares as unknown and so also keeps the stored one. */
  function SetPaymentStatus(rows: seq<PaymentRow>, orderId: int, status: string, txn: PyValue, now: PyValue)
    : (r: seq<PaymentRow>)
    ensures |r| == |rows|
  {
    if rows == [] then []
    else
      var p := rows[0];
      [if p.orderId == orderId then
         p.(paymentStatus := status,
            transactionId := if txn.PyStr? && txn.s != "" then txn else p.transactionId,
            paymentDate := if status == "completed" then now else p.paymentDate)
       else p]
      + SetPaymentStatus(rows[1..], orderId, status, txn, now)
  }

  /** Every payment of the order gets the status; a non-empty transaction
      id is written and any other keeps the stored one; completion writes
      the payment date and any other status keeps it; nothing else in any
      row changes. */
  lemma {:induction false} SetPaymentStatusEffect(rows: seq<PaymentRow>, orderId: int, status: string, txn: PyValue,
                                                 now: PyValue, i: int)
    requires 0 <= i < |rows|
    ensures var p, q := rows[i], SetPaymentStatus(rows, orderId, status, txn, now)[i];
            (p.orderId != orderId ==> q == p)
            && (p.orderId == orderId ==>
                  q.paymentStatus == status
                  && (txn.PyStr? && txn.s != "" ==> q.transactionId == txn)
                  && (q.transactionId != p.transactionId ==> txn.PyStr? && txn.s != "" && q.transactionId == txn)
                  && (status == "completed" ==> q.paymentDate == now)
                  && (q.paymentDate != p.paymentDate ==> status == "completed" && q.paymentDate == now)
                  && q.(paymentStatus := p.paymentStatus, transactionId := p.transactionId,
                        paymentDate := p.paymentDate) == p)
    decreases i
  {
    if i > 0 {
      SetPaymentStatusEffect(rows[1..], orderId, status, txn, now, i - 1);
    }
  }

  /** The error a status field gets before any database access: a falsy
      value is missing, a value outside the list is invalid. */
  function StatusError(v: PyValue, valid: seq<string>, missing: string, invalid: string): (e: Option<string>)
    ensures e.None? <==> v.PyStr? && v.s in valid && v.s != ""
    ensures !Truthy(v) ==> e == Some(missing)
    ensures Truthy(v) && !(v.PyStr? && v.s in valid) ==> e == Some(invalid)
  {
    if !Truthy(v) then Some(missing)
    else if !(v.PyStr? && v.s in valid) then Some(invalid)
    else None
  }

  /** The orders, payments and history tables the two update handlers work
      on. Order ids are unique, as the primary key makes them. */
  class Database {
    var orders: seq<OrderRow>
    var payments: seq<PaymentRow>
    var history: seq<HistoryRow>
    var nextPaymentId: int

    ghost predicate Valid()
      reads this
    {
      UniqueOrderIds(orders) && IdsBelow(payments, nextPaymentId)
    }

    constructor (orders: seq<OrderRow>, payments: seq<PaymentRow>)
      requires UniqueOrderIds(orders)
      ensures Valid() && this.orders == orders && this.payments == payments && history == []
    {
      this.orders := orders;
      this.payments := payments;
      history := [];
      nextPaymentId := 1 + MaxPaymentId(payments);
    }

    /** `update_order_status(order_id)` behind `role_required('superadmin')`.
        `dbError` is the text of the database's error when it rejects a
        note that is not text. */
    method UpdateOrderStatus(userRole: PyValue, orderId: int, data: map<string, PyValue>, username: string,
                             dbError: string) returns (resp: Response)
      requires Valid()
      modifies this
      ensures Valid()
      ensures var status, notes := DictGet(data, "status", PyNone), DictGet(data, "notes", PyStr(""));
              if !RoleAllowed(userRole, "superadmin") then
                resp == Redirect && unchanged(this)
              else if StatusError(status, OrderStatuses, "Status is required", "Invalid status").Some? then
                resp == Json(false, StatusError(status, OrderStatuses, "Status is required", "Invalid status").value)
                && unchanged(this)
              else if !TextOrNull(notes) then
                resp == Json(false, dbError) && unchanged(this)
              else if !HasOrder(old(orders), orderId) then
                resp == Json(false, "Order not found") && unchanged(this)
              else
                resp == Json(true, "Order status updated to " + status.s)
                && orders == SetOrderStatus(old(orders), orderId, status.s, notes)
                && history == old(history) + [HistoryRow(orderId, status.s, status.s, username, notes)]
                && payments == old(payments) && nextPaymentId == old(nextPaymentId)
    {
      if !RoleAllowed(userRole, "superadmin") {
        return Redirect;
      }
      var status := DictGet(data, "status", PyNone);
      var notes := DictGet(data, "notes", PyStr(""));
      if !Truthy(status) {
        return Json(false, "Status is required");
      }
      if !(status.PyStr? && status.s in OrderStatuses) {
        return Json(false, "Invalid status");
      }
      if !TextOrNull(notes) {
        return Json(false, dbError);
      }
      if !HasOrder(orders, orderId) {
        return Json(false, "Order not found");
      }
      SetOrderStatusEffect(orders, orderId, status.s, notes);
      orders := SetOrderStatus(orders, orderId, status.s, notes);
      // the history row reads the old status back after the update
      history := history + [HistoryRow(orderId, StatusOf(orders, orderId), status.s, username, notes)];
      resp := Json(true, "Order status updated to " + status.s);
    }

    /** `update_payment_status(order_id)` behind
        `role_required('superadmin')`. `now` is `CURRENT_TIMESTAMP`;
        `dbError` is the text of the database's error when it rejects a
        transaction id that is not text. */
    method UpdatePaymentStatus(userRole: PyValue, orderId: int, data: map<string, PyValue>, now: PyValue,
                               dbError: string) returns (resp: Response)
      requires Valid()
      modifies this
      ensures Valid()
      ensures orders == old(orders) && history == old(history)
      ensures var status, txn := DictGet(data, "payment_status", PyNone), DictGet(data, "transaction_id", PyStr(""));
              if !RoleAllowed(userRole, "superadmin") then
                resp == Redirect && unchanged(this)
              else if StatusError(status, PaymentStatuses, "Payment status is required",
                                  "Invalid payment status").Some? then
                resp == Json(false, StatusError(status, PaymentStatuses, "Payment status is required",
                                                "Invalid payment status").value)
                && unchanged(this)
              else if !TextOrNull(txn) then
                resp == Json(false, dbError) && unchanged(this)
              else
                resp == Json(true, "Payment status updated to " + status.s)
                && (HasPayment(old(payments), orderId) ==>
                      payments == SetPaymentStatus(old(payments), orderId, status.s, txn, now))
                && (!HasPayment(old(payments), orderId) && HasOrder(old(orders), orderId) ==>
                      var o := OrderWith(old(orders), orderId);
                      payments == old(payments) + [PaymentRow(old(nextPaymentId), orderId, o.userId, o.totalAmount,
                                                              o.paymentMode, status.s, txn, PyNone)])
                && (!HasPayment(old(payments), orderId) && !HasOrder(old(orders), orderId) ==>
                      payments == old(payments))
    {
      if !RoleAllowed(userRole, "superadmin") {
        return Redirect;
      }
      var status := DictGet(data, "payment_status", PyNone);
      var txn := DictGet(data, "transaction_id", PyStr(""));
      if !Truthy(status) {
        return Json(false, "Payment status is required");
      }
      if !(status.PyStr? && status.s in PaymentStatuses) {
        return Json(false, "Invalid payment status");
      }
      if !TextOrNull(txn) {
        return Json(false, dbError);
      }
      if HasPayment(payments, orderId) {
        SetPaymentIdsKept(payments, orderId, status.s, txn, now, nextPaymentId);
        payments := SetPaymentStatus(payments, orderId, status.s, txn, now);
      } else if HasOrder(orders, orderId) {
        // INSERT ... SELECT from the order row; the payment date keeps its column default
        var o := OrderWith(orders, orderId);
        ghost var before := payments;
        payments := payments + [PaymentRow(nextPaymentId, orderId, o.userId, o.totalAmount, o.paymentMode,
                                           status.s, txn, PyNone)];
        nextPaymentId := nextPaymentId + 1;
        assert IdsBelow(payments, nextPaymentId) by {
          forall i | 0 <= i < |payments|
            ensures payments[i].paymentId < nextPaymentId
          {
            if i < |before| {
              assert payments[i] == before[i];
            }
          }
        }
      }
      resp := Json(true, "Payment status updated to " + status.s);
    }
  }

  /** Every payment id is below the next one to be handed out. */
  predicate IdsBelow(rows: seq<PaymentRow>, bound: int)
  {
    forall i :: 0 <= i < |rows| ==> rows[i].paymentId < bound
  }

  function MaxPaymentId(rows: seq<PaymentRow>): (m: int)
    ensures forall i :: 0 <= i < |rows| ==> rows[i].paymentId <= m
  {
    if rows == [] then 0
    else var rest := MaxPaymentId(rows[1..]);
         if rows[0].paymentId > rest then rows[0].paymentId else rest
  }

  lemma {:induction false} SetPaymentIdsKept(rows: seq<PaymentRow>, orderId: int, status: string, txn: PyValue,
                                            now: PyValue, bound: int)
    requires IdsBelow(rows, bound)
    ensures IdsBelow(SetPaymentStatus(rows, orderId, status, txn, now), bound)
  {
    var r := SetPaymentStatus(rows, orderId, status, txn, now);
    forall i | 0 <= i < |r|
      ensures r[i].paymentId < bound
    {
      SetPaymentStatusEffect(rows, orderId, status, txn, now, i);
    }
  }

  /** Each successful status update adds exactly one history row, and its
      old status is the new one: the subquery runs after the update. */
  lemma {:induction false} HistoryRecordsNewStatus(rows: seq<OrderRow>, id: int, status: string, notes: PyValue)
    requires UniqueOrderIds(rows) && HasOrder(rows, id)
    ensures StatusOf(SetOrderStatus(rows, id, status, notes), id) == status
  {
    SetOrderStatusEffect(rows, id, status, notes);
  }

  /** Leaving out the notes stores the empty note over the existing one,
      while an explicit null keeps it. */
  lemma {:induction false} NotesDefault(rows: seq<OrderRow>, id: int, status: string, i: int)
    requires 0 <= i < |rows| && rows[i].orderId == id
    ensures SetOrderStatus(rows, id, status, DictGet(map[], "notes", PyStr("")))[i].notes == PyStr("")
    ensures SetOrderStatus(rows, id, status, DictGet(map["notes" := PyNone], "notes", PyStr("")))[i].notes
            == rows[i].notes
  {
  }

  // ---------------------------------------------------------------------------
  // The orders listing

  /** A piece of SQL text, or a `%s` placeholder. */
  datatype Token = Sql(text: Fragment) | Slot

  /** The fixed SQL text between placeholders, named by what it says. */
  datatype Fragment =
    | SelectOrders      // SELECT ... FROM orders o LEFT JOIN order_items ... LEFT JOIN payments ... WHERE 1=1
    | NameLike          // AND (o.user_name ILIKE
    | PhoneLike         // OR o.user_phone ILIKE
    | EmailLike         // OR o.user_email ILIKE
    | IdLike            // OR CAST(o.order_id AS TEXT) ILIKE
    | CloseParen        // )
    | StatusIs          // AND o.status =
    | DateFrom          // AND DATE(o.order_date) >=
    | DateTo            // AND DATE(o.order_date) <=
    | GroupAndOrder     // GROUP BY ... ORDER BY o.order_date DESC
    | Limit             // LIMIT
    | Offset            // OFFSET
    | CountOpen         // SELECT COUNT(*) FROM (
    | CountClose        // ) AS subquery

  /** A query parameter: text or a whole number. */
  datatype SqlArg = TextArg(s: string) | IntArg(n: int)

  /** The number of `%s` placeholders in a query. */
  function Slots(q: seq<Token>): nat
  {
    multiset(q)[Slot]
  }

  const PerPage: int := 20

  /** The parameter of a filter that is not empty. */
  function OptionalArg(v: string): (r: seq<SqlArg>)
    ensures |r| == if v != "" then 1 else 0
  {
    if v != "" then [TextArg(v)] else []
  }

  /** The search term, between `%` signs, once for each column it may match. */
  function SearchArgs(search: string): (r: seq<SqlArg>)
    ensures |r| == if search != "" then 4 else 0
  {
    if search != "" then
      var term := TextArg("%" + search + "%");
      [term, term, term, term]
    else []
  }

  /** The parameters the filters contribute, in the order the clauses are
      added: search, status, start date, end date. */
  function FilterArgs(search: string, status: string, startDate: string, endDate: string): seq<SqlArg>
  {
    SearchArgs(search) + OptionalArg(status) + OptionalArg(startDate) + OptionalArg(endDate)
  }

  const SearchClause: seq<Token> :=
    [Sql(NameLike), Slot, Sql(PhoneLike), Slot, Sql(EmailLike), Slot, Sql(IdLike), Slot, Sql(CloseParen)]

  /** The search clause, present only when a search text is given. */
  function SearchTokens(search: string): seq<Token>
  {
    if search != "" then SearchClause else []
  }

  /** A one-value filter's clause, present only when the value is not empty. */
  function FilterClause(value: string, fragment: Fragment): seq<Token>
  {
    if value != "" then [Sql(fragment), Slot] else []
  }

  /** The filtered listing query before pagination: the SELECT, then the
      clause of each filter that is not empty in the order search, status,
      start date, end date, then the grouping and ordering. */
  function FilteredTokens(search: string, status: string, startDate: string, endDate: string): seq<Token>
  {
    [Sql(SelectOrders)] + SearchTokens(search) + FilterClause(status, StatusIs)
    + FilterClause(startDate, DateFrom) + FilterClause(endDate, DateTo) + [Sql(GroupAndOrder)]
  }

  /** Every placeholder directly follows a piece of SQL text, the condition
      it completes. */
  predicate Labelled(q: seq<Token>)
    decreases |q|
  {
    if q == [] then true
    else if q[0].Slot? then false
    else if |q| >= 2 && q[1].Slot? then Labelled(q[2..])
    else Labelled(q[1..])
  }

  /** What the database binds: the parameters fill the placeholders in
      order, each paired here with the SQL text just before its placeholder. */
  function Bindings(q: seq<Token>, args: seq<SqlArg>): seq<(Fragment, SqlArg)>
    decreases |q|
  {
    if |q| < 2 || args == [] then []
    else if q[0].Sql? && q[1].Slot? then [(q[0].text, args[0])] + Bindings(q[2..], args[1..])
    else Bindings(q[1..], args)
  }

  /** The condition each filter value is meant to be compared in: the search
      term in the four ILIKE tests, the status in `o.status =`, the start
      date in `>=` and the end date in `<=`. */
  function FilterBindings(search: string, status: string, startDate: string, endDate: string): seq<(Fragment, SqlArg)>
  {
    SearchBindings(search) + ValueBinding(status, StatusIs)
    + ValueBinding(startDate, DateFrom) + ValueBinding(endDate, DateTo)
  }

  function SearchBindings(search: string): seq<(Fragment, SqlArg)>
  {
    if search != "" then
      var term := TextArg("%" + search + "%");
      [(NameLike, term), (PhoneLike, term), (EmailLike, term), (IdLike, term)]
    else []
  }

  function ValueBinding(value: string, fragment: Fragment): seq<(Fragment, SqlArg)>
  {
    if value != "" then [(fragment, TextArg(value))] else []
  }

  /** A query whose placeholders all follow SQL text binds its own
      parameters, and text appended after it (starting with SQL text) binds
      the parameters appended after them. */
  lemma {:induction false} BindingsAppend(a: seq<Token>, b: seq<Token>, x: seq<SqlArg>, y: seq<SqlArg>)
    requires Labelled(a) && Slots(a) == |x|
    requires b == [] || b[0].Sql?
    ensures Bindings(a + b, x + y) == Bindings(a, x) + Bindings(b, y)
    decreases |a|
  {
    if a == [] {
      assert a + b == b && x + y == y;
    } else if |a| == 1 {
      LastTokenStep(a, b, x, y);
    } else if x + y == [] {
      assert x == [] && y == [];
    } else {
      LabelledStart(a);
      if a[1].Slot? {
        PairTail(a, x);
        BindingsAppend(a[2..], b, x[1..], y);
        PairStep(a, b, x, y);
      } else {
        SkipStep(a, b, x, y);
        BindingsAppend(a[1..], b, x, y);
      }
    }
  }

  lemma {:induction false} LabelledStart(a: seq<Token>)
    requires Labelled(a) && a != []
    ensures a[0].Sql?
  {
  }

  /** A one-token query is SQL text without placeholders. */
  lemma {:induction false} LastTokenStep(a: seq<Token>, b: seq<Token>, x: seq<SqlArg>, y: seq<SqlArg>)
    requires Labelled(a) && Slots(a) == |x| && |a| == 1
    requires b == [] || b[0].Sql?
    ensures Bindings(a + b, x + y) == Bindings(a, x) + Bindings(b, y)
  {
    LabelledStart(a);
    assert a == [a[0]];
    assert x == [] && x + y == y;
    if b != [] && y != [] {
      assert (a + b)[1] == b[0];
      assert (a + b)[1..] == b;
    }
  }

  /** After a condition and its placeholder, the rest of a well-formed
      query is well formed and holds the other placeholders. */
  lemma {:induction false} PairTail(a: seq<Token>, x: seq<SqlArg>)
    requires Labelled(a) && Slots(a) == |x| && |a| >= 2 && a[0].Sql? && a[1].Slot?
    ensures x != [] && Labelled(a[2..]) && Slots(a[2..]) == |x[1..]|
  {
    assert a == [a[0], a[1]] + a[2..];
    assert multiset(a) == multiset([a[0], a[1]]) + multiset(a[2..]);
  }

  /** A query starting with a condition and its placeholder binds the first
      parameter there, before what the rest binds. */
  lemma {:induction false} PairStep(a: seq<Token>, b: seq<Token>, x: seq<SqlArg>, y: seq<SqlArg>)
    requires |a| >= 2 && a[0].Sql? && a[1].Slot? && x != []
    requires Bindings(a[2..] + b, x[1..] + y) == Bindings(a[2..], x[1..]) + Bindings(b, y)
    ensures Bindings(a + b, x + y) == Bindings(a, x) + Bindings(b, y)
  {
    ConcatHeads(a, b, x, y);
    PairUnfold(a + b, x + y);
    PairUnfold(a, x);
  }

  /** The first tokens and parameters of a join are those of its first part. */
  lemma {:induction false} ConcatHeads(a: seq<Token>, b: seq<Token>, x: seq<SqlArg>, y: seq<SqlArg>)
    requires |a| >= 2 && x != []
    ensures (a + b)[0] == a[0] && (a + b)[1] == a[1] && (a + b)[2..] == a[2..] + b
    ensures (x + y)[0] == x[0] && (x + y)[1..] == x[1..] + y
  {
  }

  /** A condition followed by its placeholder takes the first parameter. */
  lemma {:induction false} PairUnfold(q: seq<Token>, args: seq<SqlArg>)
    requires |q| >= 2 && q[0].Sql? && q[1].Slot? && args != []
    ensures Bindings(q, args) == [(q[0].text, args[0])] + Bindings(q[2..], args[1..])
  {
  }

  /** SQL text not followed by a placeholder binds nothing. */
  lemma {:induction false} SkipStep(a: seq<Token>, b: seq<Token>, x: seq<SqlArg>, y: seq<SqlArg>)
    requires Labelled(a) && Slots(a) == |x| && |a| >= 2 && a[0].Sql? && !a[1].Slot?
    requires x + y != []
    ensures Labelled(a[1..]) && Slots(a[1..]) == |x|
    ensures Bindings(a + b, x + y) == Bindings(a[1..] + b, x + y)
    ensures Bindings(a, x) == Bindings(a[1..], x)
  {
    assert a == [a[0]] + a[1..];
    assert multiset(a) == multiset([a[0]]) + multiset(a[1..]);
    assert (a + b)[0] == a[0] && (a + b)[1] == a[1];
    assert (a + b)[1..] == a[1..] + b;
  }

  /** Two well-formed queries joined are well formed. */
  lemma {:induction false} LabelledAppend(a: seq<Token>, b: seq<Token>)
    requires Labelled(a) && Labelled(b)
    ensures Labelled(a + b)
    decreases |a|
  {
    if a == [] {
      assert a + b == b;
    } else if |a| == 1 {
      assert (a + b)[0] == a[0];
      assert (a + b)[1..] == b;
      if b != [] {
        assert (a + b)[1] == b[0];
      }
    } else {
      assert (a + b)[0] == a[0] && (a + b)[1] == a[1];
      if a[1].Slot? {
        LabelledAppend(a[2..], b);
        assert (a + b)[2..] == a[2..] + b;
      } else {
        LabelledAppend(a[1..], b);
        assert (a + b)[1..] == a[1..] + b;
      }
    }
  }

  /** Appending a well-formed clause with its parameters to a well-formed
      query keeps it well formed and adds the clause's bindings. */
  lemma {:induction false} AppendClause(p: seq<Token>, x: seq<SqlArg>, c: seq<Token>, y: seq<SqlArg>)
    requires Labelled(p) && Slots(p) == |x|
    requires Labelled(c) && Slots(c) == |y|
    ensures Labelled(p + c) && Slots(p + c) == |x + y|
    ensures Bindings(p + c, x + y) == Bindings(p, x) + Bindings(c, y)
  {
    LabelledAppend(p, c);
    assert multiset(p + c) == multiset(p) + multiset(c);
    if c != [] {
      LabelledStart(c);
    }
    BindingsAppend(p, c, x, y);
  }

  /** A one-value filter's clause binds its value in its own condition. */
  lemma {:induction false} FilterClauseFacts(value: string, fragment: Fragment)
    ensures Labelled(FilterClause(value, fragment))
    ensures Slots(FilterClause(value, fragment)) == |OptionalArg(value)|
    ensures Bindings(FilterClause(value, fragment), OptionalArg(value)) == ValueBinding(value, fragment)
  {
    var c := FilterClause(value, fragment);
    if value != "" {
      assert multiset(c)[Slot] == 1;
      assert c[2..] == [];
    } else {
      assert multiset(c)[Slot] == 0;
    }
  }

  /** A condition followed by its placeholder binds its one value there. */
  lemma {:induction false} PairClause(fragment: Fragment, v: SqlArg)
    ensures Labelled([Sql(fragment), Slot]) && Slots([Sql(fragment), Slot]) == |[v]|
    ensures Bindings([Sql(fragment), Slot], [v]) == [(fragment, v)]
  {
    assert [Sql(fragment), Slot][2..] == [];
    assert multiset([Sql(fragment), Slot]) == multiset{Sql(fragment), Slot};
  }

  /** A condition and its placeholder in front of a well-formed query bind
      one value more. */
  lemma {:induction false} ConsPair(fragment: Fragment, v: SqlArg, q: seq<Token>, args: seq<SqlArg>)
    requires Labelled(q) && Slots(q) == |args| && q != [] && q[0].Sql?
    ensures Labelled([Sql(fragment), Slot] + q) && Slots([Sql(fragment), Slot] + q) == |[v] + args|
    ensures Bindings([Sql(fragment), Slot] + q, [v] + args) == [(fragment, v)] + Bindings(q, args)
    ensures ([Sql(fragment), Slot] + q)[0].Sql?
  {
    PairClause(fragment, v);
    AppendClause([Sql(fragment), Slot], [v], q, args);
  }

  /** Four conditions, each with its placeholder, then closing text: the
      value is bound once in each condition. */
  lemma {:induction false} FourPairs(f1: Fragment, f2: Fragment, f3: Fragment, f4: Fragment, close: Fragment, t: SqlArg)
    ensures var c := [Sql(f1), Slot, Sql(f2), Slot, Sql(f3), Slot, Sql(f4), Slot, Sql(close)];
            Labelled(c) && Slots(c) == 4 && Bindings(c, [t, t, t, t]) == [(f1, t), (f2, t), (f3, t), (f4, t)]
  {
    var c, args := FourPairsNested(f1, f2, f3, f4, close, t);
    FourPairsFlat(f1, f2, f3, f4, close, t);
  }

  lemma {:induction false} FourPairsNested(f1: Fragment, f2: Fragment, f3: Fragment, f4: Fragment, close: Fragment, t: SqlArg)
    returns (c: seq<Token>, args: seq<SqlArg>)
    ensures c == [Sql(f1), Slot] + ([Sql(f2), Slot] + ([Sql(f3), Slot] + ([Sql(f4), Slot] + [Sql(close)])))
    ensures args == [t] + ([t] + ([t] + ([t] + [])))
    ensures Labelled(c) && Slots(c) == 4 && Bindings(c, args) == [(f1, t)] + ([(f2, t)] + ([(f3, t)] + ([(f4, t)] + [])))
  {
    var q4: seq<Token> := [Sql(close)];
    assert Labelled(q4) && multiset(q4)[Slot] == 0;
    assert Bindings(q4, []) == [];
    ConsPair(f4, t, q4, []);
    var q3 := [Sql(f4), Slot] + q4;
    ConsPair(f3, t, q3, [t] + []);
    var q2 := [Sql(f3), Slot] + q3;
    ConsPair(f2, t, q2, [t] + ([t] + []));
    var q1 := [Sql(f2), Slot] + q2;
    ConsPair(f1, t, q1, [t] + ([t] + ([t] + [])));
    c := [Sql(f1), Slot] + q1;
    args := [t] + ([t] + ([t] + ([t] + [])));
  }

  lemma {:induction false} FourPairsFlat(f1: Fragment, f2: Fragment, f3: Fragment, f4: Fragment, close: Fragment, t: SqlArg)
    ensures [Sql(f1), Slot] + ([Sql(f2), Slot] + ([Sql(f3), Slot] + ([Sql(f4), Slot] + [Sql(close)])))
         == [Sql(f1), Slot, Sql(f2), Slot, Sql(f3), Slot, Sql(f4), Slot, Sql(close)]
    ensures [t] + ([t] + ([t] + ([t] + []))) == [t, t, t, t]
    ensures [(f1, t)] + ([(f2, t)] + ([(f3, t)] + ([(f4, t)] + []))) == [(f1, t), (f2, t), (f3, t), (f4, t)]
  {
  }

  /** The search clause binds the term once in each of its four ILIKE tests. */
  lemma {:induction false} SearchClauseFacts(search: string)
    ensures Labelled(SearchTokens(search))
    ensures Slots(SearchTokens(search)) == |SearchArgs(search)|
    ensures Bindings(SearchTokens(search), SearchArgs(search)) == SearchBindings(search)
  {
    if search != "" {
      FourPairs(NameLike, PhoneLike, EmailLike, IdLike, CloseParen, TextArg("%" + search + "%"));
    } else {
      assert multiset(SearchTokens(search))[Slot] == 0;
    }
  }

  /** Five well-formed clauses appended in turn to a well-formed query,
      each with its parameters: the bindings are those of the parts, in
      order. */
  lemma {:induction false} AppendClauses(p: seq<Token>, x: seq<SqlArg>,
                                         c1: seq<Token>, y1: seq<SqlArg>, c2: seq<Token>, y2: seq<SqlArg>,
                                         c3: seq<Token>, y3: seq<SqlArg>, c4: seq<Token>, y4: seq<SqlArg>,
                                         c5: seq<Token>, y5: seq<SqlArg>)
    requires Labelled(p) && Slots(p) == |x|
    requires Labelled(c1) && Slots(c1) == |y1| && Labelled(c2) && Slots(c2) == |y2|
    requires Labelled(c3) && Slots(c3) == |y3| && Labelled(c4) && Slots(c4) == |y4|
    requires Labelled(c5) && Slots(c5) == |y5|
    ensures Labelled(p + c1 + c2 + c3 + c4 + c5)
    ensures Slots(p + c1 + c2 + c3 + c4 + c5) == |x + y1 + y2 + y3 + y4 + y5|
    ensures Bindings(p + c1 + c2 + c3 + c4 + c5, x + y1 + y2 + y3 + y4 + y5)
         == Bindings(p, x) + Bindings(c1, y1) + Bindings(c2, y2) + Bindings(c3, y3) + Bindings(c4, y4) + Bindings(c5, y5)
  {
    AppendClause(p, x, c1, y1);
    AppendClause(p + c1, x + y1, c2, y2);
    AppendClause(p + c1 + c2, x + y1 + y2, c3, y3);
    AppendClause(p + c1 + c2 + c3, x + y1 + y2 + y3, c4, y4);
    AppendClause(p + c1 + c2 + c3 + c4, x + y1 + y2 + y3 + y4, c5, y5);
  }

  /** SQL text alone: well formed, no placeholder, binds nothing. */
  lemma {:induction false} TextOnly(fragment: Fragment)
    ensures Labelled([Sql(fragment)]) && Slots([Sql(fragment)]) == 0
    ensures Bindings([Sql(fragment)], []) == []
  {
    assert multiset([Sql(fragment)]) == multiset{Sql(fragment)};
  }

  /** The filtered query is well formed, with as many placeholders as filter
      parameters, and binds each filter value in its own condition: the
      search term in the four ILIKE tests, then the status, the start date
      and the end date, each in its comparison, and nothing else. */
  lemma {:induction false} FilteredBindings(search: string, status: string, startDate: string, endDate: string)
    ensures Labelled(FilteredTokens(search, status, startDate, endDate))
    ensures Slots(FilteredTokens(search, status, startDate, endDate)) == |FilterArgs(search, status, startDate, endDate)|
    ensures Bindings(FilteredTokens(search, status, startDate, endDate), FilterArgs(search, status, startDate, endDate))
         == FilterBindings(search, status, startDate, endDate)
  {
    TextOnly(SelectOrders);
    TextOnly(GroupAndOrder);
    SearchClauseFacts(search);
    FilterClauseFacts(status, StatusIs);
    FilterClauseFacts(startDate, DateFrom);
    FilterClauseFacts(endDate, DateTo);
    AppendClauses([Sql(SelectOrders)], [], SearchTokens(search), SearchArgs(search),
                  FilterClause(status, StatusIs), OptionalArg(status),
                  FilterClause(startDate, DateFrom), OptionalArg(startDate),
                  FilterClause(endDate, DateTo), OptionalArg(endDate), [Sql(GroupAndOrder)], []);
    EmptyEnds([], SearchArgs(search), OptionalArg(status), OptionalArg(startDate), OptionalArg(endDate), []);
    EmptyEnds(Bindings([Sql(SelectOrders)], []), SearchBindings(search), ValueBinding(status, StatusIs),
              ValueBinding(startDate, DateFrom), ValueBinding(endDate, DateTo), Bindings([Sql(GroupAndOrder)], []));
  }

  /** Joining empty sequences at either end of four parts changes nothing. */
  lemma {:induction false} EmptyEnds<T>(e1: seq<T>, a: seq<T>, b: seq<T>, c: seq<T>, d: seq<T>, e2: seq<T>)
    requires e1 == [] && e2 == []
    ensures e1 + a + b + c + d + e2 == a + b + c + d
  {
  }

  /** LIMIT and OFFSET each take their parameter. */
  lemma {:induction false} PageClauseFacts(limit: SqlArg, offset: SqlArg)
    ensures Labelled([Sql(Limit), Slot, Sql(Offset), Slot]) && Slots([Sql(Limit), Slot, Sql(Offset), Slot]) == 2
    ensures Bindings([Sql(Limit), Slot, Sql(Offset), Slot], [limit, offset]) == [(Limit, limit), (Offset, offset)]
  {
    PairClause(Limit, limit);
    PairClause(Offset, offset);
    AppendClause([Sql(Limit), Slot], [limit], [Sql(Offset), Slot], [offset]);
    PageClauseFlat(limit, offset);
  }

  lemma {:induction false} PageClauseFlat(limit: SqlArg, offset: SqlArg)
    ensures [Sql(Limit), Slot] + [Sql(Offset), Slot] == [Sql(Limit), Slot, Sql(Offset), Slot]
    ensures [limit] + [offset] == [limit, offset]
    ensures [(Limit, limit)] + [(Offset, offset)] == [(Limit, limit), (Offset, offset)]
  {
  }

  /** The page query binds the filter values as the filtered query does,
      then `per_page` in LIMIT and `(page - 1) * per_page` in OFFSET. */
  lemma {:induction false} PageBindings(search: string, status: string, startDate: string, endDate: string, page: int)
    ensures Bindings(FilteredTokens(search, status, startDate, endDate) + [Sql(Limit), Slot, Sql(Offset), Slot],
                     FilterArgs(search, status, startDate, endDate) + [IntArg(PerPage), IntArg((page - 1) * PerPage)])
            == FilterBindings(search, status, startDate, endDate)
               + [(Limit, IntArg(PerPage)), (Offset, IntArg((page - 1) * PerPage))]
  {
    FilteredBindings(search, status, startDate, endDate);
    PageClauseFacts(IntArg(PerPage), IntArg((page - 1) * PerPage));
    AppendClause(FilteredTokens(search, status, startDate, endDate), FilterArgs(search, status, startDate, endDate),
                 [Sql(Limit), Slot, Sql(Offset), Slot], [IntArg(PerPage), IntArg((page - 1) * PerPage)]);
  }

  /** The count query binds exactly what the filtered query binds. */
  lemma {:induction false} CountBindings(search: string, status: string, startDate: string, endDate: string)
    ensures Bindings(Wrapped(FilteredTokens(search, status, startDate, endDate)), FilterArgs(search, status, startDate, endDate))
         == FilterBindings(search, status, startDate, endDate)
  {
    var q := FilteredTokens(search, status, startDate, endDate);
    var args := FilterArgs(search, status, startDate, endDate);
    FilteredBindings(search, status, startDate, endDate);
    TextOnly(CountOpen);
    TextOnly(CountClose);
    AppendClause([Sql(CountOpen)], [], q, args);
    AppendClause([Sql(CountOpen)] + q, [] + args, [Sql(CountClose)], []);
    assert [] + args + [] == args;
    assert Bindings([Sql(CountOpen)], []) + Bindings(q, args) + Bindings([Sql(CountClose)], []) == Bindings(q, args);
  }

  /** One `query += clause` with its parameters appended: when the clause
      has one placeholder per parameter, the query keeps its balance of
      placeholders over parameters. */
  method AddClause(query: seq<Token>, args: seq<SqlArg>, clause: seq<Token>, values: seq<SqlArg>)
    returns (query': seq<Token>, args': seq<SqlArg>)
    requires Slots(clause) == |values|
    ensures query' == query + clause && args' == args + values
    ensures Slots(query') - |args'| == Slots(query) - |args|
  {
    query' := query + clause;
    args' := args + values;
  }

  /** The search filter: the four-way ILIKE clause with the term four
      times, only when a search text is given. */
  method AddSearch(query: seq<Token>, args: seq<SqlArg>, search: string)
    returns (query': seq<Token>, args': seq<SqlArg>)
    ensures args' == args + SearchArgs(search)
    ensures query' == query + SearchTokens(search)
    ensures Slots(query') - |args'| == Slots(query) - |args|
  {
    query', args' := query, args;
    if search != "" {
      var term := TextArg("%" + search + "%");
      query', args' := AddClause(query', args', SearchClause, [term, term, term, term]);
    }
  }

  /** A one-value filter (status, start date, end date): its clause and its
      value, only when the value is not empty. */
  method AddFilter(query: seq<Token>, args: seq<SqlArg>, value: string, fragment: Fragment)
    returns (query': seq<Token>, args': seq<SqlArg>)
    ensures args' == args + OptionalArg(value)
    ensures query' == query + if value != "" then [Sql(fragment), Slot] else []
    ensures Slots(query') - |args'| == Slots(query) - |args|
  {
    query', args' := query, args;
    if value != "" {
      query', args' := AddClause(query', args', [Sql(fragment), Slot], [TextArg(value)]);
    }
  }

  /** The filtered listing query of `orders()` before pagination: one
      clause for each filter that is not empty, with matching parameters. */
  method FilteredQuery(search: string, status: string, startDate: string, endDate: string)
    returns (query: seq<Token>, args: seq<SqlArg>)
    ensures query == FilteredTokens(search, status, startDate, endDate)
    ensures args == FilterArgs(search, status, startDate, endDate)
    ensures Slots(query) == |args|
  {
    query := [Sql(SelectOrders)];
    args := [];
    assert Slots(query) == |args|;
    query, args := AddSearch(query, args, search);
    assert args == SearchArgs(search);
    assert Slots(query) == |args|;
    query, args := AddFilter(query, args, status, StatusIs);
    assert Slots(query) == |args|;
    query, args := AddFilter(query, args, startDate, DateFrom);
    assert Slots(query) == |args|;
    query, args := AddFilter(query, args, endDate, DateTo);
    assert Slots(query) == |args|;
    query, args := AddClause(query, args, [Sql(GroupAndOrder)], []);
  }

  /** The SQL of `orders()`: the count query wraps the filtered query, and
      the page query adds LIMIT and OFFSET to it; in both the placeholders
      match the parameters. */
  method OrdersQuery(search: string, status: string, startDate: string, endDate: string, page: int)
    returns (countQuery: seq<Token>, countArgs: seq<SqlArg>, query: seq<Token>, args: seq<SqlArg>)
    ensures countQuery == Wrapped(FilteredTokens(search, status, startDate, endDate))
    ensures query == FilteredTokens(search, status, startDate, endDate) + [Sql(Limit), Slot, Sql(Offset), Slot]
    ensures countArgs == FilterArgs(search, status, startDate, endDate)
    ensures args == countArgs + [IntArg(PerPage), IntArg((page - 1) * PerPage)]
    ensures Slots(countQuery) == |countArgs| && Slots(query) == |args|
  {
    var filtered, filterArgs := FilteredQuery(search, status, startDate, endDate);
    countQuery, countArgs := CountQuery(filtered, filterArgs);
    query, args := PageQuery(filtered, filterArgs, page);
  }

  /** `count_query`: the filtered query wrapped in a count, with the same
      parameters. */
  method CountQuery(filtered: seq<Token>, filterArgs: seq<SqlArg>) returns (countQuery: seq<Token>, countArgs: seq<SqlArg>)
    requires Slots(filtered) == |filterArgs|
    ensures countQuery == Wrapped(filtered) && countArgs == filterArgs
    ensures Slots(countQuery) == |countArgs|
  {
    countQuery := Wrapped(filtered);
    countArgs := filterArgs;
  }

  /** The pagination clause: `per_page` rows from offset `(page - 1) * per_page`. */
  method PageQuery(filtered: seq<Token>, filterArgs: seq<SqlArg>, page: int) returns (query: seq<Token>, args: seq<SqlArg>)
    requires Slots(filtered) == |filterArgs|
    ensures query == filtered + [Sql(Limit), Slot, Sql(Offset), Slot]
    ensures args == filterArgs + [IntArg(PerPage), IntArg((page - 1) * PerPage)]
    ensures Slots(query) == |args|
  {
    var pageClause := [Sql(Limit), Slot, Sql(Offset), Slot];
    assert Slots(pageClause) == 2 by {
      assert multiset(pageClause) == multiset{Sql(Limit), Slot, Sql(Offset), Slot};
    }
    query, args := AddClause(filtered, filterArgs, pageClause, [IntArg(PerPage), IntArg((page - 1) * PerPage)]);
  }

  /** `SELECT COUNT(*) FROM (query) AS subquery`: the wrapper adds no
      placeholder. */
  function Wrapped(query: seq<Token>): (r: seq<Token>)
    ensures Slots(r) == Slots(query)
  {
    [Sql(CountOpen)] + query + [Sql(CountClose)]
  }


  /** Each filter that is not empty contributes its parameters: four for
      the search, one each for the status and the two dates. */
  lemma {:induction false} FilterArgsCount(search: string, status: string, startDate: string, endDate: string)
    ensures |FilterArgs(search, status, startDate, endDate)|
            == (if search != "" then 4 else 0) + (if status != "" then 1 else 0)
               + (if startDate != "" then 1 else 0) + (if endDate != "" then 1 else 0)
    ensures search != "" ==> FilterArgs(search, status, startDate, endDate)[..4] == SearchArgs(search)
    ensures search == "" && status != "" ==> FilterArgs(search, status, startDate, endDate)[0] == TextArg(status)
  {
  }

  /** A listed order as the page template receives it. */
  datatype ListedOrder = ListedOrder(totalPaise: int, status: PyValue, amountText: string, statusClass: string)

  /** The fields the loop adds to a listed order: the amount as rupees and
      the badge class of its status. */
  function Decorated(o: ListedOrder): ListedOrder
  {
    o.(amountText := Utils.Rupee + Utils.FormatAmount(o.totalPaise),
       statusClass := TableGet(Utils.StatusBadgeTable, o.status, "secondary"))
  }

  /** The listing shows the same amount text as `format_currency` and the
      same badge as `get_status_badge_class`, and keeps the fetched fields. */
  lemma {:induction false} DecoratedFields(o: ListedOrder)
    ensures Decorated(o).totalPaise == o.totalPaise && Decorated(o).status == o.status
    ensures Decorated(o).amountText == Utils.FormatCurrency(Some(o.totalPaise))
    ensures Decorated(o).statusClass == Utils.StatusBadgeClass(o.status)
  {
  }

  /** The loop over the fetched rows, which updates each row in place. */
  method DecorateOrders(rows: array<ListedOrder>)
    modifies rows
    ensures forall i :: 0 <= i < rows.Length ==> rows[i] == Decorated(old(rows[i]))
  {
    ghost var fetched := rows[..];
    var k := 0;
    while k < rows.Length
      invariant 0 <= k <= rows.Length
      invariant forall i :: 0 <= i < k ==> rows[i] == Decorated(fetched[i])
      invariant forall i :: k <= i < rows.Length ==> rows[i] == fetched[i]
    {
      DecorateRow(rows, k);
      k := k + 1;
    }
  }

  /** The body of that loop: one row gets its amount text and badge. */
  method DecorateRow(rows: array<ListedOrder>, k: nat)
    requires k < rows.Length
    modifies rows
    ensures rows[k] == Decorated(old(rows[k]))
    ensures forall i :: 0 <= i < rows.Length && i != k ==> rows[i] == old(rows[i])
  {
    var row := rows[k];
    row := row.(amountText := Utils.Rupee + Utils.FormatAmount(row.totalPaise));
    row := row.(statusClass := TableGet(Utils.StatusBadgeTable, row.status, "secondary"));
    rows[k] := row;
  }

  /** `(total_count + per_page - 1) // per_page`. */
  function TotalPages(count: nat, perPage: int): (n: nat)
    requires perPage > 0
  {
    (count + perPage - 1) / perPage
  }

  /** The page count is the least number of pages that holds every row. */
  lemma {:induction false} TotalPagesLeast(count: nat, perPage: int)
    requires perPage > 0
    ensures TotalPages(count, perPage) * perPage >= count
    ensures forall n: nat :: n * perPage >= count ==> TotalPages(count, perPage) <= n
  {
    var t := TotalPages(count, perPage);
    var s := count + perPage - 1;
    assert s == t * perPage + s % perPage;
    forall n: nat | n * perPage >= count
      ensures t <= n
    {
      assert t * perPage < (n + 1) * perPage;
      MulCancel(t, n + 1, perPage);
    }
  }

  lemma {:induction false} MulCancel(a: int, b: int, c: int)
    requires c > 0 && a * c < b * c
    ensures a < b
  {
    assert (b - a) * c > 0;
  }
}
