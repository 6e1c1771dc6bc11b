/** First-run onboarding: the user is found or created, then chooses whether
    to get reminders and, if so, how often and when. */
module Onboarding {
  import opened Wrappers
  import opened Models
  import Text
  import Scheduler

  /** Callback data of the frequency buttons. */
  function FrequencyCallback(f: ReminderFrequency): string {
    match f
    case Daily => "freq_daily"
    case ThreePerWeek => "freq_3_per_week"
    case Weekly => "freq_weekly"
  }

  /** `freq_map.get(callback.data)`. */
  function DecodeFrequency(data: string): (r: Option<ReminderFrequency>)
    ensures r.Some? ==> FrequencyCallback(r.value) == data
  {
    if data == "freq_daily" then Some(Daily)
    else if data == "freq_3_per_week" then Some(ThreePerWeek)
    else if data == "freq_weekly" then Some(Weekly)
    else None
  }

  /** Each frequency button decodes to its own frequency and nothing else
      decodes at all. */
  lemma FrequencyDecodesIff(data: string, f: ReminderFrequency)
    ensures DecodeFrequency(data) == Some(f) <==> data == FrequencyCallback(f)
  {
  }

  /** Callback data of the time buttons. */
  function TimeCallback(t: ReminderTime): string {
    match t
    case Morning => "time_morning"
    case Afternoon => "time_afternoon"
    case Evening => "time_evening"
    case Random => "time_random"
  }

  /** `time_map.get(callback.data)`. */
  function DecodeTime(data: string): (r: Option<ReminderTime>)
    ensures r.Some? ==> TimeCallback(r.value) == data
  {
    if data == "time_morning" then Some(Morning)
    else if data == "time_afternoon" then Some(Afternoon)
    else if data == "time_evening" then Some(Evening)
    else if data == "time_random" then Some(Random)
    else None
  }

  lemma TimeDecodesIff(data: string, t: ReminderTime)
    ensures DecodeTime(data) == Some(t) <==> data == TimeCallback(t)
  {
  }

  /** Both handlers are registered by prefix, and every key of their
      decoding tables carries that prefix: no table entry is unreachable. */
  lemma ButtonsCarryTheirPrefix(f: ReminderFrequency, t: ReminderTime)
    ensures Text.StartsWith(FrequencyCallback(f), "freq_")
    ensures Text.StartsWith(TimeCallback(t), "time_")
  {
  }

  /** `get_or_create_user`: the stored user, or a new one with the defaults;
      also returns whether onboarding is completed. */
  function GetOrCreateUser(users: UserStore, telegramId: int, username: Option<string>, firstName: Option<string>): (r: (UserStore, bool))
    ensures telegramId in r.0 && r.1 == r.0[telegramId].onboardingCompleted
    ensures telegramId in users ==> r.0 == users
    ensures telegramId !in users ==> r.0 == users[telegramId := NewUser(telegramId, username, firstName)] && !r.1
    ensures KeyedByTelegramId(users) ==> KeyedByTelegramId(r.0)
  {
    if telegramId in users then (users, users[telegramId].onboardingCompleted)
    else
      var u := NewUser(telegramId, username, firstName);
      (users[telegramId := u], false)
  }

  /** A second call finds the user the first one made; the profile names of
      later calls are ignored. */
  lemma GetOrCreateIdempotent(users: UserStore, telegramId: int, n1: Option<string>, f1: Option<string>, n2: Option<string>, f2: Option<string>)
    ensures var (once, _) := GetOrCreateUser(users, telegramId, n1, f1);
      GetOrCreateUser(once, telegramId, n2, f2).0 == once
  {
  }

  /** `update_user_settings`: overwrite the four settings of a stored user;
      for an unknown id nothing happens. */
  function UpdateUserSettings(users: UserStore, telegramId: int, completed: bool, enabled: bool,
                              frequency: Option<ReminderFrequency>, time: Option<ReminderTime>): (r: UserStore)
    ensures r.Keys == users.Keys
    ensures forall k :: k in users && k != telegramId ==> r[k] == users[k]
    ensures telegramId in users ==>
      var u := r[telegramId];
      && u.onboardingCompleted == completed && u.reminderEnabled == enabled
      && u.reminderFrequency == frequency && u.reminderTime == time
      && u.telegramId == users[telegramId].telegramId
      && u.username == users[telegramId].username && u.firstName == users[telegramId].firstName
    ensures KeyedByTelegramId(users) ==> KeyedByTelegramId(r)
  {
    if telegramId in users then
      users[telegramId := users[telegramId].(onboardingCompleted := completed, reminderEnabled := enabled,
                                              reminderFrequency := frequency, reminderTime := time)]
    else users
  }

  /** Where the onboarding dialog stands, and the frequency chosen so far. */
  datatype Step = NoStep | ReminderChoice | FrequencyChoice | TimeChoice

  datatype Form = Form(step: Step, frequency: Option<ReminderFrequency>)

  const ClearedForm: Form := Form(NoStep, None)

  /** The screen `/start` shows. */
  datatype StartScreen = WelcomeBack | Welcome

  /** `/start`: the dialog state is cleared, the user found or created;
      onboarded users are welcomed back, others start onboarding. */
  function CmdStart(users: UserStore, telegramId: int, username: Option<string>, firstName: Option<string>): (r: (UserStore, Form, StartScreen))
    ensures r.1 == ClearedForm
    ensures r.0 == GetOrCreateUser(users, telegramId, username, firstName).0
    ensures r.2 == WelcomeBack <==> telegramId in users && users[telegramId].onboardingCompleted
  {
    var (store, completed) := GetOrCreateUser(users, telegramId, username, firstName);
    (store, ClearedForm, if completed then WelcomeBack else Welcome)
  }

  /** `setup_pause`. */
  function SetupPause(form: Form): (r: Form)
    ensures r.step == ReminderChoice && r.frequency == form.frequency
  {
    form.(step := ReminderChoice)
  }

  /** `reminders_yes`. */
  function RemindersYes(form: Form): (r: Form)
    ensures r.step == FrequencyChoice && r.frequency == form.frequency
  {
    form.(step := FrequencyChoice)
  }

  /** `reminders_no`: the dialog ends and the user is saved as onboarded
      with reminders off and no frequency or time. */
  function RemindersNo(users: UserStore, telegramId: int): (r: (UserStore, Form))
    ensures r.1 == ClearedForm
    ensures r.0 == UpdateUserSettings(users, telegramId, true, false, None, None)
    ensures telegramId in users ==> !Scheduler.OptedIn(r.0[telegramId])
  {
    (UpdateUserSettings(users, telegramId, true, false, None, None), ClearedForm)
  }

  /** `select_frequency`: a known button records the frequency and moves to
      the time question; an unknown one changes nothing. */
  function SelectFrequency(form: Form, data: string): (r: Form)
    ensures DecodeFrequency(data).None? ==> r == form
    ensures DecodeFrequency(data).Some? ==> r == Form(TimeChoice, DecodeFrequency(data))
  {
    match DecodeFrequency(data)
    case None => form
    case Some(f) => Form(TimeChoice, Some(f))
  }

  /** How `select_time` ended. */
  datatype TimeOutcome = UnknownTime | SessionExpired | Saved(frequency: ReminderFrequency, time: ReminderTime)

  /** `select_time`: an unknown button changes nothing; without a recorded
      frequency the dialog is cleared and nothing is saved; otherwise the
      dialog is cleared and the user saved as onboarded with reminders on. */
  function SelectTime(users: UserStore, form: Form, telegramId: int, data: string): (r: (UserStore, Form, TimeOutcome))
    ensures r.2 == UnknownTime <==> DecodeTime(data).None?
    ensures r.2 == UnknownTime ==> r.0 == users && r.1 == form
    ensures r.2 == SessionExpired <==> DecodeTime(data).Some? && form.frequency.None?
    ensures r.2 == SessionExpired ==> r.0 == users && r.1 == ClearedForm
    ensures r.2.Saved? ==>
      && form.frequency == Some(r.2.frequency) && DecodeTime(data) == Some(r.2.time)
      && r.1 == ClearedForm
      && r.0 == UpdateUserSettings(users, telegramId, true, true, form.frequency, DecodeTime(data))
  {
    match DecodeTime(data)
    case None => (users, form, UnknownTime)
    case Some(t) =>
      match form.frequency
      case None => (users, ClearedForm, SessionExpired)
      case Some(f) => (UpdateUserSettings(users, telegramId, true, true, Some(f), Some(t)), ClearedForm, Saved(f, t))
  }

  /** Pressing "yes", a frequency and a time, from any dialog state, leaves
      a known user onboarded with exactly those settings and in the
      scheduler's audience. */
  lemma OnboardingWithReminders(users: UserStore, form: Form, telegramId: int, f: ReminderFrequency, t: ReminderTime)
    requires telegramId in users
    ensures var r := SelectTime(users, SelectFrequency(RemindersYes(form), FrequencyCallback(f)), telegramId, TimeCallback(t));
      && r.2 == Saved(f, t) && r.1 == ClearedForm
      && r.0[telegramId].reminderFrequency == Some(f) && r.0[telegramId].reminderTime == Some(t)
      && Scheduler.OptedIn(r.0[telegramId])
  {
    FrequencyDecodesIff(FrequencyCallback(f), f);
    TimeDecodesIff(TimeCallback(t), t);
  }
}
