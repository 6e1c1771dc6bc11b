/** Admin commands: order listing and statistics behind the admin check, and
    the confirm/reject buttons, which decode the order id from the callback. */
module Admin {
  import opened Wrappers
  import opened Models
  import Text
  import Decimal
  import Keyboards

  /** `int(...)` raised `ValueError`. */
  datatype CallbackError = NotAnInteger

  /** `int(data.split("_")[1])`. */
  function OrderIdFromCallback(data: string): (r: Result<int, CallbackError>)
    requires '_' in data
    ensures r.Success? ==> Decimal.ParseInt(Text.Split(data, '_')[1]) == Some(r.value)
    ensures r.Failure? <==> Decimal.ParseInt(Text.Split(data, '_')[1]).None?
  {
    var parts := Text.Split(data, '_');
    match Decimal.ParseInt(parts[1])
    case Some(id) => Success(id)
    case None => Failure(NotAnInteger)
  }

  /** Both admin buttons decode back to the id they were built from. */
  lemma {:induction false} CallbackRoundTrip(orderId: int)
    ensures OrderIdFromCallback(Keyboards.AdminOrderMenu(orderId).confirm) == Success(orderId)
    ensures OrderIdFromCallback(Keyboards.AdminOrderMenu(orderId).reject) == Success(orderId)
  {
    var n := Decimal.IntToString(orderId);
    Text.SplitJoin2("confirm", n, '_');
    Text.SplitJoin2("reject", n, '_');
    assert Keyboards.AdminOrderMenu(orderId).confirm == "confirm" + ['_'] + n;
    assert Keyboards.AdminOrderMenu(orderId).reject == "reject" + ['_'] + n;
    Decimal.ParseIntOfIntToString(orderId);
  }

  /** The order form's "confirm" button also starts with `confirm_`, but its
      second segment is not a number: when it reaches the admin handler,
      decoding fails. */
  lemma ConfirmOrderDoesNotDecode()
    ensures Text.StartsWith(Keyboards.ConfirmOrderData, Keyboards.ConfirmPrefix)
    ensures OrderIdFromCallback(Keyboards.ConfirmOrderData) == Failure(NotAnInteger)
  {
    ConfirmOrderFailsToParse();
  }

  lemma ConfirmOrderFailsToParse()
    ensures OrderIdFromCallback(Keyboards.ConfirmOrderData) == Failure(NotAnInteger)
  {
    assert Keyboards.ConfirmOrderData[7] == '_';
    SecondSegmentOfConfirmOrder();
    OrderIsNotANumber();
  }

  lemma OrderIsNotANumber()
    ensures Decimal.ParseInt("order") == None
  {
    var w := "order";
    assert w[0] == 'o' && w[|w| - 1] == 'r';
    Decimal.ParseIntRejectsWord(w);
  }

  lemma SecondSegmentOfConfirmOrder()
    ensures Text.Split(Keyboards.ConfirmOrderData, '_')[1] == "order"
  {
    assert Keyboards.ConfirmOrderData == "confirm" + ['_'] + "order";
    Text.SplitJoin2("confirm", "order", '_');
  }

  /** No order id encodes to the order form's "confirm" button. */
  lemma {:induction false} NoIdEncodesToConfirmOrder(orderId: int)
    ensures Keyboards.AdminOrderMenu(orderId).confirm != Keyboards.ConfirmOrderData
  {
    ConfirmOrderDoesNotDecode();
    CallbackRoundTrip(orderId);
  }

  /** An admin action on the order table: the new table, and whether the id
      named an order. */
  datatype AdminResult = AdminResult(rows: seq<Order>, found: bool)

  /** `admin_confirm_order`: the named order becomes confirmed, with
      `confirmed_at` set, whatever its status was. */
  function AdminConfirm(rows: seq<Order>, data: string, now: int): (r: Result<AdminResult, CallbackError>)
    requires Text.StartsWith(data, Keyboards.ConfirmPrefix)
    ensures r.Failure? <==> OrderIdFromCallback(data).Failure?
    ensures r.Success? ==> |r.value.rows| == |rows|
    ensures r.Success? ==> var id := OrderIdFromCallback(data).value;
      && (r.value.found <==> ValidId(|rows|, id))
      && (!r.value.found ==> r.value.rows == rows)
      && (r.value.found ==> r.value.rows == rows[id - 1 := rows[id - 1].(status := Confirmed, confirmedAt := Some(now))])
  {
    assert data[7] == '_';
    match OrderIdFromCallback(data)
    case Failure(e) => Failure(e)
    case Success(id) =>
      if ValidId(|rows|, id) then
        Success(AdminResult(rows[id - 1 := rows[id - 1].(status := Confirmed, confirmedAt := Some(now))], true))
      else Success(AdminResult(rows, false))
  }

  /** `admin_reject_order`: the named order becomes cancelled whatever its
      status was; its timestamps are left as they were. */
  function AdminReject(rows: seq<Order>, data: string): (r: Result<AdminResult, CallbackError>)
    requires Text.StartsWith(data, Keyboards.RejectPrefix)
    ensures r.Failure? <==> OrderIdFromCallback(data).Failure?
    ensures r.Success? ==> |r.value.rows| == |rows|
    ensures r.Success? ==> var id := OrderIdFromCallback(data).value;
      && (r.value.found <==> ValidId(|rows|, id))
      && (!r.value.found ==> r.value.rows == rows)
      && (r.value.found ==> r.value.rows == rows[id - 1 := rows[id - 1].(status := Cancelled)])
  {
    assert data[6] == '_';
    match OrderIdFromCallback(data)
    case Failure(e) => Failure(e)
    case Success(id) =>
      if ValidId(|rows|, id) then Success(AdminResult(rows[id - 1 := rows[id - 1].(status := Cancelled)], true))
      else Success(AdminResult(rows, false))
  }

  /** As written, confirming revives a cancelled order and a second confirm
      moves `confirmed_at`: a one-row table whose order was rejected comes out
      confirmed. */
  lemma {:induction false} ConfirmRevivesCancelled(o: Order, t1: int, t2: int)
    requires o.status == Cancelled
    ensures var data := Keyboards.AdminOrderMenu(1).confirm;
      var r := AdminConfirm([o], data, t1);
      && r.Success? && r.value.found
      && r.value.rows[0].status == Confirmed
      && AdminConfirm(r.value.rows, data, t2).value.rows[0].confirmedAt == Some(t2)
  {
    CallbackRoundTrip(1);
  }

  /** The transitions the order lifecycle allows. */
  predicate LegalTransition(from: OrderStatus, to: OrderStatus) {
    || (from == Pending && to in {Paid, Confirmed, Cancelled})
    || (from == Paid && to in {Confirmed, Cancelled})
  }

  /** Why a guarded transition was refused. */
  datatype LedgerError = NotFound | Conflict

  /** Confirm with the status check the handler lacks: only pending or paid
      orders can be confirmed; anything else is a conflict and writes nothing. */
  function GuardedConfirm(rows: seq<Order>, id: int, now: int): (r: Result<seq<Order>, LedgerError>)
    ensures !ValidId(|rows|, id) ==> r == Failure(NotFound)
    ensures ValidId(|rows|, id) ==>
      if LegalTransition(rows[id - 1].status, Confirmed)
      then r == Success(rows[id - 1 := rows[id - 1].(status := Confirmed, confirmedAt := Some(now))])
      else r == Failure(Conflict)
  {
    if !ValidId(|rows|, id) then Failure(NotFound)
    else if rows[id - 1].status in {Pending, Paid} then
      Success(rows[id - 1 := rows[id - 1].(status := Confirmed, confirmedAt := Some(now))])
    else Failure(Conflict)
  }

  /** Reject with the same guard. */
  function GuardedReject(rows: seq<Order>, id: int): (r: Result<seq<Order>, LedgerError>)
    ensures !ValidId(|rows|, id) ==> r == Failure(NotFound)
    ensures ValidId(|rows|, id) ==>
      if LegalTransition(rows[id - 1].status, Cancelled)
      then r == Success(rows[id - 1 := rows[id - 1].(status := Cancelled)])
      else r == Failure(Conflict)
  {
    if !ValidId(|rows|, id) then Failure(NotFound)
    else if rows[id - 1].status in {Pending, Paid} then Success(rows[id - 1 := rows[id - 1].(status := Cancelled)])
    else Failure(Conflict)
  }

  /** With the guard, a second confirm is a conflict, and a rejected order
      stays rejected; every status change the guard lets through is legal. */
  lemma {:induction false} GuardedTransitionsAreMonotone(rows: seq<Order>, id: int, t1: int, t2: int)
    requires ValidId(|rows|, id)
    ensures GuardedConfirm(rows, id, t1).Success? ==>
      var after := GuardedConfirm(rows, id, t1).value;
      LegalTransition(rows[id - 1].status, after[id - 1].status)
      && GuardedConfirm(after, id, t2) == Failure(Conflict)
      && GuardedReject(after, id) == Failure(Conflict)
    ensures GuardedReject(rows, id).Success? ==>
      var after := GuardedReject(rows, id).value;
      LegalTransition(rows[id - 1].status, after[id - 1].status)
      && GuardedConfirm(after, id, t2) == Failure(Conflict)
  {
  }

  /** `/stats` figures. */
  datatype Stats = Stats(users: nat, total: nat, pending: nat, paid: nat, confirmed: nat, revenue: int)

  /** The positions of the orders with status `s`. */
  ghost function WithStatus(rows: seq<Order>, s: OrderStatus): set<int> {
    set i | 0 <= i < |rows| && rows[i].status == s
  }

  /** `count(Order.id)` filtered by status: the number of orders with that status. */
  function CountStatus(rows: seq<Order>, s: OrderStatus): (n: nat)
    ensures n <= |rows|
    ensures n == |WithStatus(rows, s)|
  {
    if |rows| == 0 then 0
    else
      var init := rows[..|rows| - 1];
      assert WithStatus(rows, s) == WithStatus(init, s) + (if rows[|rows| - 1].status == s then {|rows| - 1} else {});
      CountStatus(init, s) + (if rows[|rows| - 1].status == s then 1 else 0)
  }

  /** `sum(Order.amount)` over the confirmed orders: nothing is earned
      without a confirmed order. */
  function Revenue(rows: seq<Order>): (r: int)
    ensures CountStatus(rows, Confirmed) == 0 ==> r == 0
  {
    if |rows| == 0 then 0
    else Revenue(rows[..|rows| - 1]) + (if rows[|rows| - 1].status == Confirmed then rows[|rows| - 1].amount else 0)
  }

  /** The four status counts partition the table. */
  lemma {:induction false} StatusCountsPartition(rows: seq<Order>)
    ensures CountStatus(rows, Pending) + CountStatus(rows, Paid) + CountStatus(rows, Confirmed)
      + CountStatus(rows, Cancelled) == |rows|
  {
    if |rows| > 0 {
      StatusCountsPartition(rows[..|rows| - 1]);
    }
  }

  /** When every order was taken at the same price, revenue is that price
      times the number of confirmed orders. */
  lemma {:induction false} RevenueAtOnePrice(rows: seq<Order>, price: int)
    requires forall i :: 0 <= i < |rows| ==> rows[i].amount == price
    ensures Revenue(rows) == price * CountStatus(rows, Confirmed)
  {
    if |rows| > 0 {
      var init := rows[..|rows| - 1];
      assert forall i :: 0 <= i < |init| ==> init[i] == rows[i];
      RevenueAtOnePrice(init, price);
      var d := if rows[|rows| - 1].status == Confirmed then 1 else 0;
      assert Revenue(rows) == Revenue(init) + price * d;
      assert CountStatus(rows, Confirmed) == CountStatus(init, Confirmed) + d;
      Distribute(price, CountStatus(init, Confirmed), d);
    }
  }

  lemma Distribute(a: int, b: int, c: int)
    ensures a * (b + c) == a * b + a * c
  {
  }

  /** `cmd_stats`: nothing for anyone but the admin; otherwise the counts. */
  function CmdStats(callerId: int, adminId: int, userCount: nat, rows: seq<Order>): (r: Option<Stats>)
    ensures r.None? <==> callerId != adminId
    ensures r.Some? ==>
      && r.value.total == |rows| && r.value.users == userCount
      && r.value.pending + r.value.paid + r.value.confirmed <= r.value.total
      && r.value.pending == CountStatus(rows, Pending)
      && r.value.paid == CountStatus(rows, Paid)
      && r.value.confirmed == CountStatus(rows, Confirmed)
      && r.value.revenue == Revenue(rows)
  {
    if callerId != adminId then None
    else
      StatusCountsPartition(rows);
      Some(Stats(userCount, |rows|, CountStatus(rows, Pending), CountStatus(rows, Paid),
                 CountStatus(rows, Confirmed), Revenue(rows)))
  }

  /** `/orders` lists at most this many. */
  const ListLimit: nat := 10

  /** An entry of the `/orders` listing. */
  datatype Listed = Listed(id: nat, order: Order)

  /** The newest `k` rows, newest first. */
  function Newest(rows: seq<Order>, k: nat): (r: seq<Listed>)
    requires k <= |rows|
    ensures |r| == k
    ensures forall j :: 0 <= j < k ==> r[j].id == |rows| - j && r[j].order == rows[|rows| - j - 1]
  {
    if k == 0 then [] else [Listed(|rows|, rows[|rows| - 1])] + Newest(rows[..|rows| - 1], k - 1)
  }

  /** `cmd_orders`: nothing for anyone but the admin; otherwise the ten most
      recent orders, newest first. Rows are inserted in time order, so
      insertion order stands for `created_at`. */
  function CmdOrders(callerId: int, adminId: int, rows: seq<Order>): (r: Option<seq<Listed>>)
    ensures r.None? <==> callerId != adminId
    ensures r.Some? ==> |r.value| == if |rows| < ListLimit then |rows| else ListLimit
    ensures r.Some? ==> forall j :: 0 <= j < |r.value| ==>
      ValidId(|rows|, r.value[j].id) && r.value[j].order == rows[r.value[j].id - 1]
    ensures r.Some? ==> forall j :: 0 < j < |r.value| ==> r.value[j].id < r.value[j - 1].id
    ensures r.Some? ==> forall j :: 0 <= j < |r.value| ==> r.value[j].id == |rows| - j
  {
    if callerId != adminId then None
    else Some(Newest(rows, if |rows| < ListLimit then |rows| else ListLimit))
  }

  /** If `created_at` grows with insertion, the listing is newest first. */
  lemma ListingNewestFirst(callerId: int, rows: seq<Order>)
    requires forall i, j :: 0 <= i < j < |rows| ==> rows[i].createdAt <= rows[j].createdAt
    ensures var r := CmdOrders(callerId, callerId, rows).value;
      forall j :: 0 < j < |r| ==> r[j].order.createdAt <= r[j - 1].order.createdAt
  {
  }
}
