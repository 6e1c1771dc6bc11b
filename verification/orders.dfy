/** The digital-product order flow: the e-mail check, order creation, the
    buyer's "I paid" transition and cancelling the form. */
module Orders {
  import opened Wrappers
  import opened Models

  /** The order form's dialog state. */
  datatype FormStep = Idle | AskName | AskEmail | AskConfirm

  datatype OrderForm = OrderForm(step: FormStep, name: Option<string>, email: Option<string>)

  const ClearedForm: OrderForm := OrderForm(Idle, None, None)

  /** The deliberately loose e-mail check: an `@` and a `.` somewhere. */
  predicate LooksLikeEmail(text: string) {
    '@' in text && '.' in text
  }

  /** A message without text (a sticker, a photo) makes `"@" in None`
      raise `TypeError`. */
  datatype InputError = NotText

  /** `process_email`: an accepted address is stored and the form moves to
      confirmation; a rejected one leaves the form as it was; a message
      without text raises before the form is touched. */
  function ProcessEmail(form: OrderForm, text: Option<string>): (r: Result<OrderForm, InputError>)
    requires form.step == AskEmail
    ensures r.Failure? <==> text.None?
    ensures text.Some? && LooksLikeEmail(text.value) ==>
      r.value.email == text && r.value.step == AskConfirm && r.value.name == form.name
    ensures text.Some? && !LooksLikeEmail(text.value) ==> r.value == form
    ensures r.Success? && r.value != form ==> '@' in text.value && '.' in text.value
  {
    match text
    case None => Failure(NotText)
    case Some(t) => if LooksLikeEmail(t) then Success(form.(email := text, step := AskConfirm)) else Success(form)
  }

  /** Result of inserting a row: the new table, the new row's id and the
      form afterwards. */
  datatype Inserted = Inserted(rows: seq<Order>, id: nat, form: OrderForm)

  /** `data["name"]` or `data["email"]` raised `KeyError`. */
  datatype FormError = MissingFormField

  /** `confirm_order`: a new pending order from the form's name and e-mail,
      at the configured price and currency, created now; then the form is
      cleared, so a second press of the button no longer reaches this
      handler. Existing rows are untouched. A form lacking either field
      raises before anything is written. */
  function ConfirmOrder(rows: seq<Order>, form: OrderForm, telegramId: int,
                        price: int, currency: string, now: int): (r: Result<Inserted, FormError>)
    requires form.step == AskConfirm
    ensures r.Failure? <==> form.name.None? || form.email.None?
    ensures r.Success? ==> r.value.id == |rows| + 1 && |r.value.rows| == |rows| + 1
    ensures r.Success? ==> r.value.rows[..|rows|] == rows
    ensures r.Success? ==> var o := r.value.rows[r.value.id - 1];
      o.status == Pending && o.amount == price && o.currency == currency
      && o.telegramId == telegramId && Some(o.name) == form.name && Some(o.email) == form.email
      && o.createdAt == now && o.paidAt.None? && o.confirmedAt.None?
    ensures r.Success? ==> r.value.form == ClearedForm && r.value.form.step != AskConfirm
  {
    match (form.name, form.email)
    case (Some(name), Some(email)) =>
      Success(Inserted(rows + [Order(telegramId, name, email, price, currency, Pending, now, None, None)],
                       |rows| + 1, ClearedForm))
    case _ => Failure(MissingFormField)
  }

  /** `cancel_order`: the form is cleared; the order table is not touched. */
  function CancelOrder(rows: seq<Order>, form: OrderForm): (r: (seq<Order>, OrderForm))
    ensures r.0 == rows
    ensures r.1.step == Idle && r.1.name.None? && r.1.email.None?
  {
    (rows, ClearedForm)
  }

  /** Positions of the buyer's pending orders, ascending. */
  function PendingOf(rows: seq<Order>, telegramId: int): (ps: seq<nat>)
    ensures forall k :: 0 <= k < |ps| ==> ps[k] < |rows|
    ensures forall a, b :: 0 <= a < b < |ps| ==> ps[a] < ps[b]
    ensures forall i :: 0 <= i < |rows| ==>
      (i in ps <==> rows[i].telegramId == telegramId && rows[i].status == Pending)
  {
    if |rows| == 0 then []
    else
      var o := rows[|rows| - 1];
      PendingOf(rows[..|rows| - 1], telegramId)
        + (if o.telegramId == telegramId && o.status == Pending then [|rows| - 1] else [])
  }

  /** `scalar_one_or_none` found more than one row. */
  datatype QueryError = MultipleResultsFound

  /** The table after "I paid" and the id that became paid, if any. */
  datatype PaidResult = PaidResult(rows: seq<Order>, marked: Option<nat>)

  /** `user_paid`: the buyer's only pending order becomes paid with `paid_at`
      set; with none nothing changes; with several the query raises. */
  function UserPaid(rows: seq<Order>, telegramId: int, now: int): (r: Result<PaidResult, QueryError>)
    ensures r.Failure? <==> |PendingOf(rows, telegramId)| > 1
    ensures r.Success? && r.value.marked.None? ==> r.value.rows == rows && PendingOf(rows, telegramId) == []
    ensures r.Success? && r.value.marked.Some? ==>
      var i := r.value.marked.value - 1;
      && 0 <= i < |rows| && PendingOf(rows, telegramId) == [i]
      && rows[i].telegramId == telegramId && rows[i].status == Pending
      && r.value.rows == rows[i := rows[i].(status := Paid, paidAt := Some(now))]
  {
    var ps := PendingOf(rows, telegramId);
    if |ps| > 1 then Failure(MultipleResultsFound)
    else if |ps| == 0 then Success(PaidResult(rows, None))
    else
      var i := ps[0];
      assert i in ps;
      Success(PaidResult(rows[i := rows[i].(status := Paid, paidAt := Some(now))], Some(i + 1)))
  }

  /** A table with no pending order of the buyer yields no positions. */
  lemma {:induction false} NoPendingPositions(rows: seq<Order>, telegramId: int)
    requires forall i :: 0 <= i < |rows| ==> !(rows[i].telegramId == telegramId && rows[i].status == Pending)
    ensures PendingOf(rows, telegramId) == []
  {
    if |rows| > 0 {
      NoPendingPositions(rows[..|rows| - 1], telegramId);
    }
  }

  /** After a successful "I paid" the buyer has no pending order left. */
  lemma {:induction false} UserPaidClearsPending(rows: seq<Order>, telegramId: int, now: int)
    requires UserPaid(rows, telegramId, now).Success?
    ensures var res := UserPaid(rows, telegramId, now).value;
      && |res.rows| == |rows|
      && PendingOf(res.rows, telegramId) == []
  {
    var res := UserPaid(rows, telegramId, now).value;
    if res.marked.Some? {
      MarkPaidClears(rows, telegramId, res.marked.value - 1, now);
    } else {
      assert PendingOf(rows, telegramId) == [];
    }
  }

  /** Marking the only pending order paid leaves none pending. */
  lemma {:induction false} MarkPaidClears(rows: seq<Order>, telegramId: int, m: nat, now: int)
    requires m < |rows| && PendingOf(rows, telegramId) == [m]
    ensures PendingOf(rows[m := rows[m].(status := Paid, paidAt := Some(now))], telegramId) == []
  {
    var after := rows[m := rows[m].(status := Paid, paidAt := Some(now))];
    PendingElsewhereNone(rows, telegramId, m);
    forall k | 0 <= k < |after|
      ensures !(after[k].telegramId == telegramId && after[k].status == Pending)
    {
      if k != m {
        assert after[k] == rows[k];
      }
    }
    NoPendingPositions(after, telegramId);
  }

  /** Every pending order of the buyer is at a listed position. */
  lemma PendingElsewhereNone(rows: seq<Order>, telegramId: int, m: int)
    requires PendingOf(rows, telegramId) == [m]
    ensures forall k :: 0 <= k < |rows| && k != m ==> !(rows[k].telegramId == telegramId && rows[k].status == Pending)
  {
  }
}
