/** Hourly reminder dispatch: who is due at this tick, and how the batch
    counts its deliveries. The clock and Python's seeded `random` are
    parameters. */
module Scheduler {
  import opened Wrappers
  import opened Models

  /** Send-hour window `[start, end)` per reminder time, in UTC hours. */
  function TimeRange(t: ReminderTime): (r: (int, int))
    ensures 0 <= r.0 < r.1 <= 24
  {
    match t
    case Morning => (7, 10)
    case Afternoon => (12, 15)
    case Evening => (18, 21)
    case Random => (9, 22)
  }

  /** Monday, Wednesday, Friday (Monday is 0). */
  const ThreePerWeekDays: set<int> := {0, 2, 4}

  /** `random.seed(seed); random.randint(a, b)`, as an arbitrary function of
      the seed and bounds. */
  type Rng = (int, int, int) -> int

  /** The only thing the model assumes of the generator: `randint(a, b)` lies in `[a, b]`. */
  ghost predicate DrawsInRange(rng: Rng) {
    forall seed, a, b :: a <= b ==> a <= rng(seed, a, b) <= b
  }

  /** The seed is the Telegram id, shifted by weekday and day of month. */
  function Seed(telegramId: int, weekday: int, day: int): int {
    telegramId + weekday * 100 + day
  }

  /** The frequency gate. */
  predicate FrequencyAllows(f: ReminderFrequency, weekday: int) {
    match f
    case Weekly => weekday == 0
    case ThreePerWeek => weekday in ThreePerWeekDays
    case Daily => true
  }

  /** The hour at which a user with reminder time `t` is due on this day. */
  function SendHour(t: ReminderTime, telegramId: int, weekday: int, day: int, rng: Rng): (h: int)
    ensures DrawsInRange(rng) ==> TimeRange(t).0 <= h < TimeRange(t).1
  {
    var (start, end) := TimeRange(t);
    if t == Random then rng(Seed(telegramId, weekday, day), start, end - 1) else start
  }

  /** Whether `u` is due at this tick. */
  predicate ShouldSend(u: User, hour: int, weekday: int, day: int, rng: Rng)
  {
    if u.reminderFrequency.None? || u.reminderTime.None? then false
    else if !FrequencyAllows(u.reminderFrequency.value, weekday) then false
    else hour == SendHour(u.reminderTime.value, u.telegramId, weekday, day, rng)
  }

  /** Users missing a frequency or a time are never due; weekly users are due
      only on Monday, three-per-week users only on Monday, Wednesday, Friday;
      fixed-time users only at the start of their window, random-time users
      only between 9 and 21 inclusive. */
  lemma Gates(u: User, hour: int, weekday: int, day: int, rng: Rng)
    requires DrawsInRange(rng)
    requires ShouldSend(u, hour, weekday, day, rng)
    ensures u.reminderFrequency.Some? && u.reminderTime.Some?
    ensures u.reminderFrequency == Some(Weekly) ==> weekday == 0
    ensures u.reminderFrequency == Some(ThreePerWeek) ==> weekday in {0, 2, 4}
    ensures u.reminderTime == Some(Morning) ==> hour == 7
    ensures u.reminderTime == Some(Afternoon) ==> hour == 12
    ensures u.reminderTime == Some(Evening) ==> hour == 18
    ensures u.reminderTime == Some(Random) ==> 9 <= hour <= 21
  {
  }

  /** A daily user is never held back by the weekday: being due reduces to
      the hour gate. */
  lemma DailyIsHourGateOnly(u: User, hour: int, weekday: int, day: int, rng: Rng)
    requires u.reminderFrequency == Some(Daily) && u.reminderTime.Some?
    ensures ShouldSend(u, hour, weekday, day, rng)
        <==> hour == SendHour(u.reminderTime.value, u.telegramId, weekday, day, rng)
  {
  }

  /** Hours of the day at which `u` is due. */
  function DueHours(u: User, weekday: int, day: int, rng: Rng): set<int>
  {
    set h | 0 <= h < 24 && ShouldSend(u, h, weekday, day, rng)
  }

  /** On a day the frequency allows, a configured user is due at exactly one
      hour of the day (so one reminder per day at most); on other days at none. */
  lemma {:induction false} ExactlyOneHourPerDay(u: User, weekday: int, day: int, rng: Rng)
    requires DrawsInRange(rng)
    requires u.reminderFrequency.Some? && u.reminderTime.Some?
    ensures FrequencyAllows(u.reminderFrequency.value, weekday) ==>
      DueHours(u, weekday, day, rng) == {SendHour(u.reminderTime.value, u.telegramId, weekday, day, rng)}
    ensures !FrequencyAllows(u.reminderFrequency.value, weekday) ==> DueHours(u, weekday, day, rng) == {}
  {
    var h0 := SendHour(u.reminderTime.value, u.telegramId, weekday, day, rng);
    assert 0 <= h0 < 24;
    if FrequencyAllows(u.reminderFrequency.value, weekday) {
      assert ShouldSend(u, h0, weekday, day, rng);
      assert h0 in DueHours(u, weekday, day, rng);
    }
  }

  /** The random hour depends only on the Telegram id, weekday and day of
      month: re-evaluating the same tick, or a user record that differs in
      other fields, gives the same answer. */
  lemma RandomHourStable(u: User, v: User, hour: int, weekday: int, day: int, rng: Rng)
    requires u.telegramId == v.telegramId
    requires u.reminderFrequency == v.reminderFrequency && u.reminderTime == v.reminderTime
    ensures ShouldSend(u, hour, weekday, day, rng) == ShouldSend(v, hour, weekday, day, rng)
  {
  }

  /** Only users with reminders enabled and onboarding completed are fetched. */
  predicate OptedIn(u: User) {
    u.reminderEnabled && u.onboardingCompleted
  }

  /** What delivering one reminder can end in: success, a Telegram API error
      (logged, reported as false), or any other exception, which escapes and
      ends the tick. */
  datatype SendOutcome = Delivered | ApiError | Crashed

  /** `_send_pause`: true on delivery, false on an API error, None when the
      exception escapes. */
  function SendPause(outcome: SendOutcome): (r: Option<bool>)
    ensures r == Some(true) <==> outcome == Delivered
    ensures r.None? <==> outcome == Crashed
  {
    match outcome
    case Delivered => Some(true)
    case ApiError => Some(false)
    case Crashed => None
  }

  /** State of one tick: the ids sent to, in order, how many deliveries
      succeeded, and whether an escaping exception ended the tick. */
  datatype Tick = Tick(attempted: seq<int>, sent: nat, aborted: bool)

  /** Telegram ids of the fetched users that are due, in fetch order. */
  function DueIds(users: seq<User>, hour: int, weekday: int, day: int, rng: Rng): seq<int>
  {
    if |users| == 0 then []
    else
      var u := users[|users| - 1];
      DueIds(users[..|users| - 1], hour, weekday, day, rng)
        + (if OptedIn(u) && ShouldSend(u, hour, weekday, day, rng) then [u.telegramId] else [])
  }

  /** Reference semantics of one tick over the fetched users. */
  function RunTick(users: seq<User>, hour: int, weekday: int, day: int, rng: Rng, send: int -> SendOutcome): Tick
  {
    if |users| == 0 then Tick([], 0, false)
    else
      var t := RunTick(users[..|users| - 1], hour, weekday, day, rng, send);
      var u := users[|users| - 1];
      if t.aborted || !(OptedIn(u) && ShouldSend(u, hour, weekday, day, rng)) then t
      else
        match SendPause(send(u.telegramId))
        case None => Tick(t.attempted + [u.telegramId], t.sent, true)
        case Some(ok) => Tick(t.attempted + [u.telegramId], if ok then t.sent + 1 else t.sent, false)
  }

  /** Number of ids whose delivery succeeded. */
  function CountDelivered(ids: seq<int>, send: int -> SendOutcome): nat
  {
    if |ids| == 0 then 0
    else CountDelivered(ids[..|ids| - 1], send) + (if send(ids[|ids| - 1]) == Delivered then 1 else 0)
  }

  /** The tick's counter never exceeds the number of users sent to, and it
      counts exactly the successful deliveries among them. */
  lemma {:induction false} TickCountsDeliveries(users: seq<User>, hour: int, weekday: int, day: int, rng: Rng, send: int -> SendOutcome)
    ensures var t := RunTick(users, hour, weekday, day, rng, send);
      t.sent <= |t.attempted| && t.sent == CountDelivered(t.attempted, send)
  {
    if |users| > 0 {
      var pre := users[..|users| - 1];
      TickCountsDeliveries(pre, hour, weekday, day, rng, send);
      var t := RunTick(pre, hour, weekday, day, rng, send);
      var u := users[|users| - 1];
      if !t.aborted && OptedIn(u) && ShouldSend(u, hour, weekday, day, rng) {
        var a := t.attempted + [u.telegramId];
        assert a[..|a| - 1] == t.attempted;
      }
    }
  }

  /** Without an escaping exception, a failed delivery does not stop the
      tick: every due user is sent to, in fetch order. */
  lemma {:induction false} TickReachesEveryDueUser(users: seq<User>, hour: int, weekday: int, day: int, rng: Rng, send: int -> SendOutcome)
    requires forall i :: 0 <= i < |users| ==> send(users[i].telegramId) != Crashed
    ensures var t := RunTick(users, hour, weekday, day, rng, send);
      !t.aborted && t.attempted == DueIds(users, hour, weekday, day, rng)
  {
    if |users| > 0 {
      var pre := users[..|users| - 1];
      assert forall i :: 0 <= i < |pre| ==> pre[i] == users[i];
      TickReachesEveryDueUser(pre, hour, weekday, day, rng, send);
    }
  }

  /** `check_and_send_pauses` after the user query: walk the fetched users,
      send to those due, count the deliveries that succeeded. */
  method CheckAndSendPauses(users: seq<User>, hour: int, weekday: int, day: int, rng: Rng, send: int -> SendOutcome)
    returns (attempted: seq<int>, sentCount: nat, aborted: bool)
    ensures Tick(attempted, sentCount, aborted) == RunTick(users, hour, weekday, day, rng, send)
    ensures sentCount <= |attempted|
  {
    attempted, sentCount, aborted := [], 0, false;
    var i := 0;
    while i < |users| && !aborted
      invariant 0 <= i <= |users|
      invariant aborted ==> Tick(attempted, sentCount, aborted) == RunTick(users, hour, weekday, day, rng, send)
      invariant !aborted ==> Tick(attempted, sentCount, aborted) == RunTick(users[..i], hour, weekday, day, rng, send)
      invariant sentCount <= |attempted|
    {
      var u := users[i];
      assert users[..i + 1][..i] == users[..i];
      if OptedIn(u) && ShouldSend(u, hour, weekday, day, rng) {
        var r := SendPause(send(u.telegramId));
        attempted := attempted + [u.telegramId];
        if r.None? {
          aborted := true;
          AbortSticks(users, i + 1, hour, weekday, day, rng, send);
        } else if r.value {
          sentCount := sentCount + 1;
        }
      }
      i := i + 1;
    }
    if !aborted {
      assert users[..i] == users;
    }
  }

  /** Once a prefix aborts the tick, the rest of the users change nothing. */
  lemma {:induction false} AbortSticks(users: seq<User>, k: nat, hour: int, weekday: int, day: int, rng: Rng, send: int -> SendOutcome)
    requires k <= |users|
    requires RunTick(users[..k], hour, weekday, day, rng, send).aborted
    ensures RunTick(users, hour, weekday, day, rng, send) == RunTick(users[..k], hour, weekday, day, rng, send)
    decreases |users| - k
  {
    if k < |users| {
      assert users[..k + 1][..k] == users[..k];
      AbortSticks(users, k + 1, hour, weekday, day, rng, send);
    } else {
      assert users[..k] == users;
    }
  }
}
