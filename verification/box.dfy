/** The physical box pre-order: target month, input validation, and the
    effects of the flow's handlers on the box-order table. */
module Box {
  import opened Wrappers
  import opened Models
  import Text
  import Decimal

  const MinNameLength: nat := 2
  const MaxNameLength: nat := 100
  const MinAddressLength: nat := 20
  const MaxAddressLength: nat := 500

  /** A calendar date as `datetime` guarantees it. */
  datatype Date = Date(year: int, month: int, day: int)

  predicate ValidDate(d: Date) {
    1 <= d.year && 1 <= d.month <= 12 && 1 <= d.day <= 31
  }

  /** Month index counted from year 0, for comparing months. */
  function MonthIndex(year: int, month: int): int {
    year * 12 + (month - 1)
  }

  /** The month a box ordered on `now` ships in. */
  datatype BoxMonth = BoxMonth(key: string, year: int, month: int)

  /** `get_box_month`: up to the 20th the box is next month's, after it the
      one after; the key is `YYYY-MM`. */
  function GetBoxMonth(now: Date): (r: BoxMonth)
    requires ValidDate(now)
    ensures 1 <= r.month <= 12 && r.year >= now.year
    ensures MonthIndex(r.year, r.month) - MonthIndex(now.year, now.month) == if now.day <= 20 then 1 else 2
    ensures r.key == Decimal.NatToString(r.year) + "-" + Decimal.TwoDigits(r.month)
  {
    var (y, m) :=
      if now.day <= 20 then
        if now.month + 1 > 12 then (now.year + 1, 1) else (now.year, now.month + 1)
      else
        if now.month + 2 > 12 then (now.year + 1, now.month + 2 - 12) else (now.year, now.month + 2);
    BoxMonth(Decimal.NatToString(y) + "-" + Decimal.TwoDigits(m), y, m)
  }

  /** The key reads back as the year, a dash, and the two-digit month. */
  lemma {:induction false} MonthKeyShape(now: Date)
    requires ValidDate(now)
    ensures var r := GetBoxMonth(now);
      var n := |r.key|;
      && n >= 4 && r.key[n - 3] == '-'
      && Decimal.AllDigits(r.key[..n - 3]) && Decimal.DigitsValue(r.key[..n - 3]) == r.year
      && Decimal.AllDigits(r.key[n - 2..]) && Decimal.DigitsValue(r.key[n - 2..]) == r.month
  {
    var r := GetBoxMonth(now);
    var ys := Decimal.NatToString(r.year);
    var n := |r.key|;
    assert r.key[..n - 3] == ys;
    assert r.key[n - 2..] == Decimal.TwoDigits(r.month);
    Decimal.DigitsValueOfNatToString(r.year);
  }

  /** Validation verdict: valid, or the message shown to the user. */
  datatype Verdict = Verdict(valid: bool, error: string)

  const NameEmpty: string := "Имя не может быть пустым. Попробуй ещё раз."
  const NameTooShort: string := "Имя слишком короткое. Минимум 2 символа."
  const NameTooLong: string := "Имя слишком длинное. Максимум 100 символов."
  const PhoneEmpty: string := "Телефон не может быть пустым. Попробуй ещё раз."
  const PhoneInvalid: string := "Укажи корректный номер телефона."
  const AddressEmpty: string := "Адрес не может быть пустым. Попробуй ещё раз."
  const AddressTooShort: string := "Адрес слишком короткий. Укажи полный адрес с индексом."
  const AddressTooLong: string := "Адрес слишком длинный. Максимум 500 символов."

  /** Input is absent (a non-text message) or only whitespace. */
  predicate Blank(text: Option<string>) {
    text.None? || Text.Strip(text.value) == []
  }

  /** A length check on the stripped text, as both name and address use. */
  function ValidateLength(text: Option<string>, lo: nat, hi: nat, empty: string, short: string, long: string): (r: Verdict)
    requires 0 < lo <= hi && empty != "" && short != "" && long != ""
    ensures r.valid <==> text.Some? && lo <= |Text.Strip(text.value)| <= hi
    ensures r.valid <==> r.error == ""
    ensures Blank(text) ==> r.error == empty
  {
    if Blank(text) then Verdict(false, empty)
    else
      var t := Text.Strip(text.value);
      if |t| < lo then Verdict(false, short)
      else if |t| > hi then Verdict(false, long)
      else Verdict(true, "")
  }

  /** `validate_name`: 2 to 100 characters after stripping. */
  function ValidateName(name: Option<string>): (r: Verdict)
    ensures r.valid <==> name.Some? && 2 <= |Text.Strip(name.value)| <= 100
    ensures r.valid <==> r.error == ""
    ensures Blank(name) ==> !r.valid
  {
    ValidateLength(name, MinNameLength, MaxNameLength, NameEmpty, NameTooShort, NameTooLong)
  }

  /** `validate_address`: 20 to 500 characters after stripping. */
  function ValidateAddress(address: Option<string>): (r: Verdict)
    ensures r.valid <==> address.Some? && 20 <= |Text.Strip(address.value)| <= 500
    ensures r.valid <==> r.error == ""
    ensures Blank(address) ==> !r.valid
  {
    ValidateLength(address, MinAddressLength, MaxAddressLength, AddressEmpty, AddressTooShort, AddressTooLong)
  }

  /** The character class `[0-9\s\-\(\)]`. */
  predicate PhoneChar(c: char) {
    Decimal.IsDigit(c) || Text.IsSpace(c) || c == '-' || c == '(' || c == ')'
  }

  predicate AllPhoneChars(s: string) {
    forall i :: 0 <= i < |s| ==> PhoneChar(s[i])
  }

  /** What `^\+?[0-9\s\-\(\)]{7,20}$` accepts: an optional plus, then 7 to 20
      characters of the class. `+` is not in the class, so a leading plus
      can only be the optional one. */
  predicate PhonePattern(s: string) {
    || (|s| > 0 && s[0] == '+' && AllPhoneChars(s[1..]) && 7 <= |s| - 1 <= 20)
    || (AllPhoneChars(s) && 7 <= |s| <= 20)
  }

  /** Matching the phone pattern the way the regex engine does: take the
      optional plus, then scan the class run to the end. */
  method MatchPhone(s: string) returns (ok: bool)
    ensures ok <==> PhonePattern(s)
  {
    var start := if |s| > 0 && s[0] == '+' then 1 else 0;
    var i := start;
    while i < |s| && PhoneChar(s[i])
      invariant start <= i <= |s|
      invariant forall k :: start <= k < i ==> PhoneChar(s[k])
    {
      i := i + 1;
    }
    ok := i == |s| && 7 <= |s| - start <= 20;
    if start == 1 {
      assert !PhoneChar(s[0]);
      if ok {
        assert forall k :: 0 <= k < |s| - 1 ==> s[1..][k] == s[k + 1];
      } else if i == |s| {
        assert forall k :: 0 <= k < |s| - 1 ==> s[1..][k] == s[k + 1];
      } else {
        assert s[1..][i - 1] == s[i];
      }
    }
  }

  /** `validate_phone`: the stripped text must match the phone pattern. */
  method ValidatePhone(phone: Option<string>) returns (r: Verdict)
    ensures r.valid <==> phone.Some? && PhonePattern(Text.Strip(phone.value))
    ensures r.valid <==> r.error == ""
    ensures Blank(phone) ==> r.error == PhoneEmpty
  {
    if Blank(phone) {
      return Verdict(false, PhoneEmpty);
    }
    var ok := MatchPhone(Text.Strip(phone.value));
    r := if ok then Verdict(true, "") else Verdict(false, PhoneInvalid);
  }

  /** Dialog steps of the box flow. */
  datatype BoxStep = NoStep | AskName | AskPhone | AskAddress | AskConfirm

  /** The flow's stored data; `update_data` merges into it. */
  datatype BoxForm = BoxForm(step: BoxStep, orderId: Option<int>, name: Option<string>,
                             phone: Option<string>, address: Option<string>)

  const ClearedBoxForm: BoxForm := BoxForm(NoStep, None, None, None, None)

  const DefaultGreetingName: string := "Друг"

  /** Result of `box_start`. */
  datatype Started = Started(rows: seq<BoxOrder>, id: nat, form: BoxForm)

  /** `box_start`: a pending box order is inserted at once for the target
      month and the configured price; the form remembers its id and the
      Telegram first name (or the default greeting), other data kept. */
  function BoxStart(rows: seq<BoxOrder>, form: BoxForm, telegramId: int, firstName: Option<string>,
                    today: Date, now: int, price: int, currency: string): (r: Started)
    requires ValidDate(today)
    ensures r.id == |rows| + 1 && |r.rows| == |rows| + 1 && r.rows[..|rows|] == rows
    ensures var o := r.rows[|rows|];
      && o.status == BoxPending && o.telegramId == telegramId
      && o.boxMonth == GetBoxMonth(today).key && o.amount == price && o.currency == currency
      && o.name.None? && o.phone.None? && o.address.None? && o.paidAt.None?
      && o.createdAt == now
    ensures r.form.step == AskName && r.form.orderId == Some(r.id)
    ensures r.form.name == Some(if firstName.Some? && firstName.value != "" then firstName.value else DefaultGreetingName)
    ensures r.form.phone == form.phone && r.form.address == form.address
  {
    var o := BoxOrder(telegramId, GetBoxMonth(today).key, price, currency, BoxPending, None, None, None, now, None);
    var greeting := if firstName.Some? && firstName.value != "" then firstName.value else DefaultGreetingName;
    Started(rows + [o], |rows| + 1, form.(step := AskName, orderId := Some(|rows| + 1), name := Some(greeting)))
  }

  /** `box_name_confirmed`: the suggested name is kept. */
  function BoxNameConfirmed(form: BoxForm): (r: BoxForm)
    requires form.step == AskName
    ensures r.step == AskPhone && r.name == form.name
    ensures r.orderId == form.orderId && r.phone == form.phone && r.address == form.address
  {
    form.(step := AskPhone)
  }

  /** `process_box_name`: a valid typed name replaces the suggestion. */
  function ProcessBoxName(form: BoxForm, text: Option<string>): (r: BoxForm)
    requires form.step == AskName
    ensures ValidateName(text).valid ==> r == form.(name := Some(Text.Strip(text.value)), step := AskPhone)
    ensures !ValidateName(text).valid ==> r == form
  {
    if ValidateName(text).valid then form.(name := Some(Text.Strip(text.value)), step := AskPhone) else form
  }

  /** `process_box_phone`: a valid phone is stored stripped. */
  method ProcessBoxPhone(form: BoxForm, text: Option<string>) returns (r: BoxForm)
    requires form.step == AskPhone
    ensures r != form ==> text.Some? && r == form.(phone := Some(Text.Strip(text.value)), step := AskAddress)
    ensures r != form <==> text.Some? && PhonePattern(Text.Strip(text.value))
  {
    var v := ValidatePhone(text);
    if v.valid {
      r := form.(phone := Some(Text.Strip(text.value)), step := AskAddress);
    } else {
      r := form;
    }
  }

  /** `process_box_address`: a valid address is stored stripped. */
  function ProcessBoxAddress(form: BoxForm, text: Option<string>): (r: BoxForm)
    requires form.step == AskAddress
    ensures ValidateAddress(text).valid ==> r == form.(address := Some(Text.Strip(text.value)), step := AskConfirm)
    ensures !ValidateAddress(text).valid ==> r == form
  {
    if ValidateAddress(text).valid then form.(address := Some(Text.Strip(text.value)), step := AskConfirm) else form
  }

  /** How `confirm_box_order` ended. */
  datatype ConfirmOutcome = SessionExpired | OrderNotFound | DetailsSaved(id: int)

  datatype Confirmation = Confirmation(rows: seq<BoxOrder>, form: BoxForm, outcome: ConfirmOutcome)

  /** `confirm_box_order`: with the order id and all three details in the
      form, and the order present, the details are written to it; its status
      is never touched. The form is cleared in every case. */
  function ConfirmBoxOrder(rows: seq<BoxOrder>, form: BoxForm): (r: Confirmation)
    ensures r.form == ClearedBoxForm
    ensures |r.rows| == |rows|
    ensures r.outcome == SessionExpired <==>
      form.orderId.None? || form.name.None? || form.phone.None? || form.address.None?
    ensures !r.outcome.DetailsSaved? ==> r.rows == rows
    ensures form.orderId.Some? && form.name.Some? && form.phone.Some? && form.address.Some? ==>
      (r.outcome == OrderNotFound <==> !ValidId(|rows|, form.orderId.value))
    ensures r.outcome.DetailsSaved? ==>
      var id := r.outcome.id;
      && form.orderId == Some(id) && ValidId(|rows|, id)
      && r.rows == rows[id - 1 := rows[id - 1].(name := form.name, phone := form.phone, address := form.address)]
    ensures forall i :: 0 <= i < |rows| ==> r.rows[i].status == rows[i].status
  {
    if form.orderId.None? || form.name.None? || form.phone.None? || form.address.None? then
      Confirmation(rows, ClearedBoxForm, SessionExpired)
    else
      var id := form.orderId.value;
      if !ValidId(|rows|, id) then Confirmation(rows, ClearedBoxForm, OrderNotFound)
      else
        Confirmation(rows[id - 1 := rows[id - 1].(name := form.name, phone := form.phone, address := form.address)],
                  ClearedBoxForm, DetailsSaved(id))
  }

  /** Positions of the buyer's pending box orders, ascending. */
  function PendingBoxOf(rows: seq<BoxOrder>, telegramId: int): (ps: seq<nat>)
    ensures forall k :: 0 <= k < |ps| ==> ps[k] < |rows|
    ensures forall a, b :: 0 <= a < b < |ps| ==> ps[a] < ps[b]
    ensures forall i :: 0 <= i < |rows| ==>
      (i in ps <==> rows[i].telegramId == telegramId && rows[i].status == BoxPending)
  {
    if |rows| == 0 then []
    else
      var o := rows[|rows| - 1];
      PendingBoxOf(rows[..|rows| - 1], telegramId)
        + (if o.telegramId == telegramId && o.status == BoxPending then [|rows| - 1] else [])
  }

  /** How `box_user_paid` ended. */
  datatype PaidOutcome = MarkedPaid(id: nat) | NoPendingOrder | AlreadyProcessed

  /** `scalar_one_or_none` found several pending box orders. */
  datatype QueryError = MultipleResultsFound

  /** `box_user_paid`: the buyer's only pending box order becomes paid with
      `paid_at` set; with none nothing changes; with several the query
      raises. The repeated status check after the query is kept. */
  function BoxUserPaid(rows: seq<BoxOrder>, telegramId: int, now: int): (r: Result<(seq<BoxOrder>, PaidOutcome), QueryError>)
    ensures r.Failure? <==> |PendingBoxOf(rows, telegramId)| > 1
    ensures r.Success? && !r.value.1.MarkedPaid? ==> r.value.0 == rows
    ensures r.Success? && r.value.1 == NoPendingOrder <==> PendingBoxOf(rows, telegramId) == []
    ensures r.Success? && r.value.1.MarkedPaid? ==>
      var i := r.value.1.id - 1;
      && 0 <= i < |rows| && PendingBoxOf(rows, telegramId) == [i]
      && r.value.0 == rows[i := rows[i].(status := BoxPaid, paidAt := Some(now))]
  {
    var ps := PendingBoxOf(rows, telegramId);
    if |ps| > 1 then Failure(MultipleResultsFound)
    else if |ps| == 0 then Success((rows, NoPendingOrder))
    else
      var i := ps[0];
      assert i in ps;
      if rows[i].status != BoxPending then Success((rows, AlreadyProcessed))
      else Success((rows[i := rows[i].(status := BoxPaid, paidAt := Some(now))], MarkedPaid(i + 1)))
  }

  /** Within one call the repeated check cannot fail: the query only returns
      pending orders. */
  lemma BoxRecheckNeverFires(rows: seq<BoxOrder>, telegramId: int, now: int)
    requires BoxUserPaid(rows, telegramId, now).Success?
    ensures BoxUserPaid(rows, telegramId, now).value.1 != AlreadyProcessed
  {
    var ps := PendingBoxOf(rows, telegramId);
    if |ps| == 1 {
      assert ps[0] in ps;
    }
  }
}
