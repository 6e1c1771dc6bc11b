/** The persistent records: users, digital orders and box orders, with the
    column defaults the tables declare. Tables are sequences of rows in
    insertion order; a row's id is its position plus one (autoincrement,
    rows are never deleted). */
module Models {
  import opened Wrappers

  /** Order status; `StatusValue` is the enum member's value, the
      lower-case name. */
  datatype OrderStatus = Pending | Paid | Confirmed | Cancelled

  function StatusValue(s: OrderStatus): (v: string)
    ensures |v| > 0
  {
    match s
    case Pending => "pending"
    case Paid => "paid"
    case Confirmed => "confirmed"
    case Cancelled => "cancelled"
  }

  /** Reading a stored status value back; None for anything else. */
  function StatusFromValue(v: string): (r: Option<OrderStatus>)
    ensures r.Some? ==> StatusValue(r.value) == v
  {
    if v == "pending" then Some(Pending)
    else if v == "paid" then Some(Paid)
    else if v == "confirmed" then Some(Confirmed)
    else if v == "cancelled" then Some(Cancelled)
    else None
  }

  /** The four statuses have four distinct enum values. */
  lemma StatusValueRoundTrip(s: OrderStatus)
    ensures StatusFromValue(StatusValue(s)) == Some(s)
  {
  }

  /** Box-order status. Only Pending and Paid are written by the handlers;
      the later stages are the ones the box workflow names. */
  datatype BoxOrderStatus = BoxPending | BoxPaid | BoxConfirmed | BoxCancelled | BoxShipped | BoxDelivered

  datatype ReminderFrequency = Daily | ThreePerWeek | Weekly

  datatype ReminderTime = Morning | Afternoon | Evening | Random

  /** A bot user, keyed by the unique Telegram id. */
  datatype User = User(
    telegramId: int,
    username: Option<string>,
    firstName: Option<string>,
    reminderEnabled: bool,
    reminderFrequency: Option<ReminderFrequency>,
    reminderTime: Option<ReminderTime>,
    onboardingCompleted: bool)

  /** A freshly inserted user: reminders off, onboarding not done. */
  function NewUser(telegramId: int, username: Option<string>, firstName: Option<string>): (u: User)
    ensures u.telegramId == telegramId && u.username == username && u.firstName == firstName
    ensures !u.reminderEnabled && !u.onboardingCompleted
    ensures u.reminderFrequency.None? && u.reminderTime.None?
  {
    User(telegramId, username, firstName, false, None, None, false)
  }

  /** The user table: at most one row per Telegram id. */
  type UserStore = map<int, User>

  ghost predicate KeyedByTelegramId(users: UserStore) {
    forall k :: k in users ==> users[k].telegramId == k
  }

  /** A digital-product order. Timestamps are abstract instants. */
  datatype Order = Order(
    telegramId: int,
    name: string,
    email: string,
    amount: int,
    currency: string,
    status: OrderStatus,
    createdAt: int,
    paidAt: Option<int>,
    confirmedAt: Option<int>)

  const DefaultAmount: int := 79
  const DefaultCurrency: string := "EUR"

  /** An order built with only the required columns set. */
  function DefaultOrder(telegramId: int, name: string, email: string, now: int): (o: Order)
    ensures o.status == Pending && o.amount == 79 && o.currency == "EUR"
    ensures o.paidAt.None? && o.confirmedAt.None?
    ensures o.telegramId == telegramId && o.createdAt == now
  {
    Order(telegramId, name, email, DefaultAmount, DefaultCurrency, Pending, now, None, None)
  }

  /** A physical box pre-order; shipping fields are filled in after creation. */
  datatype BoxOrder = BoxOrder(
    telegramId: int,
    boxMonth: string,
    amount: int,
    currency: string,
    status: BoxOrderStatus,
    name: Option<string>,
    phone: Option<string>,
    address: Option<string>,
    createdAt: int,
    paidAt: Option<int>)

  /** Row position of an id, when the id names a row of a table of `n` rows. */
  predicate ValidId(n: nat, id: int) {
    1 <= id <= n
  }
}
