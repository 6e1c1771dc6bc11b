/** The original start handler's user registration. */
module Base {
  import opened Wrappers
  import opened Models
  import Onboarding

  /** `save_user`: insert the user with the defaults if the Telegram id is
      not stored yet; an existing user is left as it is. */
  function SaveUser(users: UserStore, telegramId: int, username: Option<string>, firstName: Option<string>): (r: UserStore)
    ensures telegramId in r
    ensures r.Keys == users.Keys + {telegramId}
    ensures forall k :: k in users ==> r[k] == users[k]
    ensures telegramId !in users ==> r[telegramId] == NewUser(telegramId, username, firstName)
    ensures KeyedByTelegramId(users) ==> KeyedByTelegramId(r)
  {
    if telegramId in users then users else users[telegramId := NewUser(telegramId, username, firstName)]
  }

  /** Saving twice is saving once. */
  lemma SaveUserIdempotent(users: UserStore, telegramId: int, n1: Option<string>, f1: Option<string>, n2: Option<string>, f2: Option<string>)
    ensures SaveUser(SaveUser(users, telegramId, n1, f1), telegramId, n2, f2) == SaveUser(users, telegramId, n1, f1)
  {
  }

  /** The two start handlers register users identically. */
  lemma SaveUserAgreesWithOnboarding(users: UserStore, telegramId: int, username: Option<string>, firstName: Option<string>)
    ensures SaveUser(users, telegramId, username, firstName) == Onboarding.GetOrCreateUser(users, telegramId, username, firstName).0
  {
  }
}
