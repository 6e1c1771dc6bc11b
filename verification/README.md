# Pause bot — a Dafny model of its core logic

"Pause" is a Telegram bot with three jobs:

- It sends short mindfulness pauses, on demand and as scheduled reminders.
- It sells a digital product: an e-mail order that the buyer marks paid and the admin confirms or rejects.
- It takes pre-orders for a physical monthly box.

Its texts live in two local cache tables, filled from two Notion databases by a sync. A one-off script migrated the built-in texts into Notion.

This project models the bot's decision and data-transformation logic as pure Dafny functions over immutable data, and proves what the code promises:

- **Scheduler** (`scheduler.dfy`): who is due at an hourly tick. The weekday gate (weekly, Mon/Wed/Fri, daily) and the hour gate (window start, or a seeded random hour) apply. The tick counts only successful deliveries.
- **Content cache** (`content.dfy`): `reload` groups active rows by category and builds the UI key→text map. A failed load publishes what was built and drops the old maps. Random draws fall back to built-in lists. UI texts resolve through cache → built-in table → caller fallback → `[key]`.
- **Orders** (`orders.dfy`, `admin.dfy`, `keyboards.dfy`): the e-mail check, order creation, "I paid", and the admin's confirm/reject. The admin decodes the order id from `confirm_<id>`/`reject_<id>`. Also modelled: `/stats` counting and the ten-row `/orders` listing.
- **Box pre-order** (`box.dfy`): target month and the name, phone and address validators. Also the handlers' effects on the box-order table.
- **Throttling** (`throttle.dfy`): the per-user `(last, count, window_start)` record and its accept/refuse rules.
- **Onboarding** (`onboarding.dfy`, `base.dfy`): callback decoding, get-or-create of users, and the saved reminder settings.
- **Notion sync and migration** (`notion.dfy`, `migrate.dfy`): property extraction, page filtering, error aggregation, and 2000-character rich-text chunking. Migrated texts round-trip through the sync.
- **Configuration** (`settings.dfy`, `connection.dfy`): field validators and defaults, and the database-URL driver rewrite.
- **Supporting modules** (`text.dfy`, `decimal.dfy`, `wrappers.dfy`, `models.dfy`):
  - `text.dfy` and `decimal.dfy` model the Python string operations the code relies on: `strip`, `replace`, `split`, `startswith`, `int()`, `str()` and `:02d`.
  - `wrappers.dfy` holds `Option` and `Result`.
  - `models.dfy` holds the records.

## Modelling conventions

- Tables are sequences of rows in insertion order. A row's id is its position plus one: ids autoincrement and rows are never deleted. The user table is a map keyed by the unique Telegram id.
- These inputs are parameters:
  - the clock (`now`, hour, weekday, day of month);
  - Python's `random` (an arbitrary `choice` index, an `Rng` function);
  - the results of Telegram sends and Notion fetches.
- `random.choice` returns some element of the list. The seeded `randint(a, b)` is any function whose result lies in `[a, b]`.
- Dialog (FSM) state is an explicit form record that each handler takes and returns.
- Two kinds of failure are modelled as explicit outcomes: a query that finds several rows where `scalar_one_or_none` expects at most one, and an `int()` that raises.
- `database/models.py` as written in the repository declares only `OrderStatus`, `User` (id, names, created_at), `Order` and `Reminder`. The rest is declared from how the handlers use it:
  - the user's reminder columns, `ReminderFrequency` and `ReminderTime` (`handlers/onboarding.py`, `scheduler.py`);
  - `BoxOrder` and its status (`handlers/box.py`);
  - the two cache tables (`content.py`, `notion_sync.py`).
- A new user is assumed to start with reminders off and onboarding not completed. `/start` relies on this to begin onboarding.
- The content type names do not line up:
  - The migration script writes short pauses with type `pause_short`.
  - Reminders read `pause_phrases`.
  - The pause button reads `pause_long` and `pause_music`.
  - So migrated short pauses are synced but never served. Reminders use the built-in phrases unless a `pause_phrases` page is added by hand.
  - The model keeps the names as written.

## Model

| member | source | states |
|---|---|---|
| Models.StatusValueRoundTrip | database/models.py:11-15 | The four order statuses have four distinct enum values; reading a value back gives the status. |
| Models.NewUser | database/models.py:18-25 | A newly inserted user has the given Telegram id and profile names, reminders off, no frequency or time, onboarding not completed. |
| Models.DefaultOrder | database/models.py:35-40 | An order created with only the required columns is pending, costs 79 EUR and has no paid or confirmed time. |
| Scheduler.TimeRange | scheduler.py:21-26 | Every send window is a non-empty range of hours within one day. |
| Scheduler.SendHour | scheduler.py:111-123 | A fixed-time user is due at the start of the window. A random-time user is due at an hour drawn inside the window, so a random hour is one of 9..21. |
| Scheduler.Gates | scheduler.py:92-123 | Users without frequency or time are never due. Weekly users are due only on Monday. Three-per-week users are due only on Mon/Wed/Fri. Morning/afternoon/evening users are due only at 7/12/18. Random-time users are due only at 9..21. |
| Scheduler.DailyIsHourGateOnly | scheduler.py:104-123 | For a daily user, being due is exactly the hour gate, whatever the weekday. |
| Scheduler.ExactlyOneHourPerDay | scheduler.py:96-123 | On a day the frequency allows, a configured user is due at exactly one hour; on other days at none. |
| Scheduler.RandomHourStable | scheduler.py:113-120 | The random hour depends only on the Telegram id, weekday and day of month. |
| Scheduler.SendPause | scheduler.py:125-139 | Sending reports true exactly on delivery and false on a Telegram API error. Any other exception escapes. |
| Scheduler.TickCountsDeliveries | scheduler.py:75-80 | The tick's counter equals the number of successful deliveries among the users sent to, so it never exceeds them. |
| Scheduler.TickReachesEveryDueUser | scheduler.py:76-80 | A failed delivery does not stop the tick: every opted-in, due user is sent to, in fetch order. |
| Scheduler.CheckAndSendPauses | scheduler.py:66-80 | The loop over the fetched users computes the reference tick: opted-in due users are sent to and successes are counted. |
| Content.GroupByType | content.py:437-445 | Grouping keeps only active rows; each category maps to its items in row order, and categories without items are absent. |
| Content.UiMap | content.py:448-452 | The UI map holds each key of the rows, with the text of the last row carrying it. |
| Content.Reload | content.py:430-464 | A reload always marks the cache loaded. It publishes the new groups and UI map on success, nothing on a failed first query, and the content groups without UI texts on a failed second query. |
| Content.ReloadForgetsPrevious | content.py:459-464 | What a reload publishes does not depend on the previous cache: a failed load does not keep the old maps. |
| Content.EnsureLoaded | content.py:534-535 | Readers reload only when nothing has been loaded yet; a loaded cache is used as it is. |
| Content.MissingKeys | content.py:473-477 | The missing keys are exactly the listed keys absent from the UI map. A single key is reported iff it is absent. |
| Content.MissingKeysAppend | content.py:473-477 | The check walks the keys once: the keys missing from a concatenation are those missing from the first part followed by those missing from the second. This pins the order and the multiplicity of the report. |
| Content.MissingKeysKeepOrder | content.py:473-477 | Two missing keys are reported in the order they are listed. |
| Content.ValidateUiKeys | content.py:466-477 | Validation reports exactly the required UI keys absent from the cache, any two of them in `REQUIRED_UI_KEYS` order. |
| Content.FailedReloadMissesEveryKey | content.py:459-477 | After a reload whose UI read failed, validation reports every required key, in order. |
| Content.Pick | content.py:544 | A random choice returns an element of the list. |
| Content.EveryItemCanBePicked | content.py:544 | Every element of the list is a possible choice. |
| Content.GetRandomContent | content.py:532-544 | A draw loads the cache if needed. It returns a cached item of the category, or a fallback item when the category has none. |
| Content.GetRandomReminder | content.py:516-518 | The draw loads the cache if needed. When the cached `pause_phrases` category is non-empty the item comes from it; only when it is empty does the item come from the built-in phrases. |
| Content.GetRandomBreathe | content.py:520-522 | The draw loads the cache if needed. When the cached `breathe` category is non-empty the item comes from it; only when it is empty does the item come from the built-in meditation. |
| Content.GetRandomMovie | content.py:524-526 | The draw loads the cache if needed. When the cached `movie` category is non-empty the item comes from it; only when it is empty does the item come from the built-in films. |
| Content.GetRandomBook | content.py:528-530 | The draw loads the cache if needed. When the cached `book` category is non-empty the item comes from it; only when it is empty does the item come from the built-in book. |
| Content.GetRandomPause | content.py:481-497 | A pause comes from cached poems plus music. Only when both categories are empty does it come from the built-in poems plus music. |
| Content.GetRandomLongPause | content.py:499-514 | A long pause comes from cached meditations, films and books, or, when all three are empty, from the built-in ones. |
| Content.EmptyStoreServesFallback | content.py:481-544 | When nothing can be loaded, every draw still returns a built-in item. |
| Content.ResolveUiText | content.py:565-572 | A UI text resolves from the cache first, then the built-in table, then a non-empty caller fallback, and only then to `[key]`. |
| Content.GetUiText | content.py:548-580 | Without placeholders the resolved text is returned. A missing placeholder returns it unformatted. Any other formatting error escapes. |
| Content.RequiredKeysNeverMarker | content.py:249-401 | Every required key is in the built-in table, so it never resolves to the caller fallback or the `[key]` marker. |
| Box.GetBoxMonth | handlers/box.py:66-85 | Up to the 20th the box ships next month, after it the month after, rolling over the year. The key is the year, a dash and the two-digit month. |
| Box.MonthKeyShape | handlers/box.py:85 | The month key reads back as the target year and month. |
| Box.ValidateName | handlers/box.py:91-103 | A name is valid exactly when its stripped text has 2 to 100 characters. Blank input is invalid. The error is empty exactly when valid. |
| Box.MatchPhone | handlers/box.py:46 | The scan accepts exactly the strings of the phone pattern: an optional `+`, then 7 to 20 digits, whitespace, dashes or parentheses. |
| Box.ValidatePhone | handlers/box.py:106-115 | A phone is valid exactly when its stripped text matches the pattern. Blank input gets the empty-phone message. |
| Box.ValidateAddress | handlers/box.py:118-130 | An address is valid exactly when its stripped text has 20 to 500 characters. The error is empty exactly when valid. |
| Box.BoxStart | handlers/box.py:177-196 | Starting inserts a pending box order, created now, for the target month at the configured price, leaving existing rows alone. The form remembers the new id and the first name, or "Друг". |
| Box.BoxNameConfirmed | handlers/box.py:217-220 | Confirming the suggested name keeps it and moves to the phone step; the order id, phone and address are kept. |
| Box.ProcessBoxName | handlers/box.py:232-242 | A valid typed name is stored stripped and the flow moves on; an invalid one changes nothing. |
| Box.ProcessBoxPhone | handlers/box.py:248-258 | The form changes exactly when the stripped phone matches the pattern; the stripped phone is stored. |
| Box.ProcessBoxAddress | handlers/box.py:264-278 | A valid address is stored stripped and the flow moves to confirmation; an invalid one changes nothing. |
| Box.ConfirmBoxOrder | handlers/box.py:292-324 | The session has expired exactly when the order id or a detail is missing. Otherwise an existing order gets the three details, and the order is reported not found exactly when its id names no row. No status ever changes, and the form is always cleared. |
| Box.PendingBoxOf | handlers/box.py:404-411 | The query finds exactly the buyer's pending box orders, each once, in ascending position. |
| Box.BoxUserPaid | handlers/box.py:399-421 | The buyer's only pending box order becomes paid with its paid time. With none nothing changes. With several the query fails. |
| Box.BoxRecheckNeverFires | handlers/box.py:413-417 | Within one call the repeated pending check cannot fail, because the query returns only pending orders. |
| Orders.ProcessEmail | handlers/orders.py:36-48 | A text is accepted exactly when it contains `@` and `.`; a rejected one leaves the form unchanged. A message without text is an error outcome (the `TypeError` of `"@" in None`) that writes nothing. |
| Orders.ConfirmOrder | handlers/orders.py:56-73 | Confirming appends a pending order with the form's name and e-mail, at the configured price and currency, created now, leaving existing rows unchanged. The form is then cleared, so it no longer sits at the confirmation step. A form missing the name or e-mail fails before anything is written. |
| Orders.CancelOrder | handlers/orders.py:98-102 | Cancelling clears the form and does not touch the order table. |
| Orders.PendingOf | handlers/orders.py:108-115 | The query finds exactly the buyer's pending orders, each once, in ascending position. |
| Orders.UserPaid | handlers/orders.py:105-120 | The buyer's only pending order becomes paid with its paid time and every other row is unchanged. With none nothing changes. With several the query fails. |
| Orders.UserPaidClearsPending | handlers/orders.py:108-120 | After a successful "I paid" the buyer has no pending order left. |
| Keyboards.AdminOrderMenu | keyboards.py:58-64 | The admin buttons are `confirm_` and `reject_` followed by the same id text, which contains no underscore. |
| Keyboards.StaticCallbacksDistinct | keyboards.py:6-55 | The six static callback strings are pairwise distinct. |
| Admin.OrderIdFromCallback | handlers/admin.py:85 | A decoded id is the integer value of the second underscore-separated segment; decoding fails exactly when that segment is not an integer. |
| Admin.CallbackRoundTrip | keyboards.py:58-64 | For every id, both admin buttons decode back to that id. |
| Admin.ConfirmOrderDoesNotDecode | handlers/admin.py:83-85 | The order form's `confirm_order` button also matches the admin's `confirm_` filter, and decoding it fails. |
| Admin.NoIdEncodesToConfirmOrder | keyboards.py:36-64 | No order id produces the order form's confirm button. |
| Admin.AdminConfirm | handlers/admin.py:83-108 | Confirm fails exactly when the id does not parse. An existing order becomes confirmed with its confirmed time, whatever its status. An unknown id changes nothing. |
| Admin.AdminReject | handlers/admin.py:111-133 | Reject fails exactly when the id does not parse. An existing order becomes cancelled, whatever its status, with timestamps kept. An unknown id changes nothing. |
| Admin.ConfirmRevivesCancelled | handlers/admin.py:91-96 | As written, a rejected order can be confirmed afterwards, and a second confirm moves its confirmed time. |
| Admin.GuardedConfirm | handlers/admin.py:91-96 | Corrected confirm: only a pending or paid order is confirmed; any other status is a conflict that writes nothing. |
| Admin.GuardedReject | handlers/admin.py:119-123 | Corrected reject: only a pending or paid order is cancelled; any other status is a conflict. |
| Admin.GuardedTransitionsAreMonotone | handlers/admin.py:91-123 | With the guard, every change is a legal forward transition, and a confirmed or rejected order can no longer change. |
| Admin.CountStatus | handlers/admin.py:63-65 | A status count is the number of orders with that status. |
| Admin.Revenue | handlers/admin.py:67 | Revenue sums the confirmed orders' amounts; with no confirmed order it is zero. |
| Admin.StatusCountsPartition | handlers/admin.py:60-65 | The four status counts add up to the number of orders. |
| Admin.RevenueAtOnePrice | handlers/admin.py:67 | When every order has the same price, revenue is that price times the number of confirmed orders. |
| Admin.CmdStats | handlers/admin.py:49-80 | Non-admins get nothing. Otherwise the total is the table size, pending, paid and confirmed are the numbers of orders with that status (so they never exceed the total), and revenue sums the confirmed orders' amounts. |
| Admin.CmdOrders | handlers/admin.py:21-46 | Non-admins get nothing. Otherwise the listing holds the ten most recent orders, or all if fewer, newest first: entry j is the order with id `len - j`. |
| Admin.ListingNewestFirst | handlers/admin.py:26-30 | When creation times grow with insertion, the listing is ordered by creation time, newest first. |
| Throttle.UserIdOf | middleware.py:71-77 | Messages yield their sender, if any, and callbacks their presser; other updates have no user. |
| Throttle.Step | middleware.py:47-67 | Too-fast requests leave the record unchanged. A window older than the limit restarts before the count check, even when the request is then refused. A request refused for the count changes nothing but that window restart. An accepted one sets `last` and counts itself. |
| Throttle.OnThrottled | middleware.py:79-89 | Only callbacks get a reply: a toast when too fast, an alert when over the maximum. |
| Throttle.Call | middleware.py:36-69 | Updates without a user pass and change nothing. Otherwise only that user's record changes, starting from a fresh record. The bound `count <= max_requests` is preserved. |
| Throttle.AtMostMaxPerWindow | middleware.py:56-67 | Within one window at most `max_requests` requests pass, counting those already in it. |
| Throttle.PassesAreSpaced | middleware.py:51-67 | Two consecutive accepted requests are at least `rate_limit` apart. |
| Onboarding.DecodeFrequency | handlers/onboarding.py:179-188 | A decoded frequency is the one whose button carries that callback. |
| Onboarding.FrequencyDecodesIff | handlers/onboarding.py:179-188 | A callback decodes to a frequency exactly when it is that frequency's button. |
| Onboarding.DecodeTime | handlers/onboarding.py:212-222 | A decoded time is the one whose button carries that callback. |
| Onboarding.TimeDecodesIff | handlers/onboarding.py:212-222 | A callback decodes to a time exactly when it is that time's button. |
| Onboarding.ButtonsCarryTheirPrefix | handlers/onboarding.py:176-185 | Every table key carries the prefix its handler is registered under. |
| Onboarding.GetOrCreateUser | handlers/onboarding.py:28-48 | A stored user is returned unchanged; otherwise one is inserted with the defaults. Also returned: whether onboarding is completed. |
| Onboarding.GetOrCreateIdempotent | handlers/onboarding.py:30-48 | A second call changes nothing, whatever profile names it carries. |
| Onboarding.UpdateUserSettings | handlers/onboarding.py:51-70 | The four settings of a stored user are overwritten and all else is kept. An unknown id changes nothing. |
| Onboarding.CmdStart | handlers/onboarding.py:75-100 | `/start` clears the dialog and gets or creates the user. It welcomes back exactly the users already onboarded. |
| Onboarding.SetupPause | handlers/onboarding.py:105-108 | The dialog moves to the reminder question. |
| Onboarding.RemindersYes | handlers/onboarding.py:155-158 | The dialog moves to the frequency question. |
| Onboarding.RemindersNo | handlers/onboarding.py:126-136 | Declining saves the user as onboarded with reminders off and no frequency or time, so the scheduler never selects them. |
| Onboarding.SelectFrequency | handlers/onboarding.py:176-191 | A known frequency is recorded and the dialog moves to the time question; an unknown one changes nothing. |
| Onboarding.SelectTime | handlers/onboarding.py:209-243 | An unknown time changes nothing. Without a recorded frequency the dialog clears and nothing is saved. Otherwise the user is saved onboarded with reminders on and the chosen settings. |
| Onboarding.OnboardingWithReminders | handlers/onboarding.py:155-243 | Yes, a frequency and a time leave a known user onboarded with those settings and in the scheduler's audience. |
| Base.SaveUser | handlers/base.py:13-28 | A user is inserted only when the Telegram id is new. Existing users, including their names, are untouched. |
| Base.SaveUserIdempotent | handlers/base.py:13-28 | Saving twice is saving once. |
| Base.SaveUserAgreesWithOnboarding | handlers/base.py:13-28 | The original start handler registers users exactly as onboarding's get-or-create does. |
| Notion.ExtractRichText | notion_sync.py:120-132 | No blocks give the empty text; one block gives its plain text, a missing one counting as empty. |
| Notion.ExtractRichTextAppend | notion_sync.py:130-132 | Extraction distributes over concatenation of block lists. |
| Notion.ExtractSelect | notion_sync.py:138-142 | A select yields a value exactly when the object is present and has a name. |
| Notion.ExtractCheckbox | notion_sync.py:144-146 | Only an explicit true counts as checked. |
| Notion.SyncContent | notion_sync.py:148-198 | After emptying the table, the sync writes one active row for each page with a non-empty type, a non-empty content and an id, and nothing else. It writes no more rows than pages. |
| Notion.SyncedItemsMatchPages | notion_sync.py:166-191 | The synced rows of a category are exactly the stored pages of that type, in page order. |
| Notion.SyncThenReload | notion_sync.py:161-198 | After a sync and a successful reload the bot serves, for each type, exactly the stored pages' contents. |
| Notion.SyncUiTexts | notion_sync.py:200-242 | After emptying the table, the sync writes one row for each page with a non-empty key and an id; an empty text is kept. |
| Notion.SyncAll | notion_sync.py:43-75 | Each half runs independently. Each half with a missing database id or a failed fetch adds exactly one message, content's first: the "not configured" message, or the `Контент: ` / `UI тексты: ` prefix followed by the fetch error. That half's table and count are left alone. Counts equal the rows written. |
| Migrate.Chunks | scripts/migrate_to_notion.py:59-69 | The blocks join back to the text. Each has at most 2000 characters, all but the last exactly 2000, and none is empty for a non-empty text. |
| Migrate.ChunkCount | scripts/migrate_to_notion.py:62-67 | A long text gives its length divided by 2000, rounded up, blocks; a short one gives one block. |
| Migrate.MakeRichText | scripts/migrate_to_notion.py:59-69 | The builder produces exactly the reference split, and a short text is one block. |
| Migrate.SliceLoop | scripts/migrate_to_notion.py:66-69 | The slicing loop produces the reference split of a long text. |
| Migrate.RichTextRoundTrip | scripts/migrate_to_notion.py:59-69 | A migrated text reads back through the sync's extractor unchanged, however many blocks it was split into. |
| Migrate.MakeTitle | scripts/migrate_to_notion.py:54-56 | A title is a single block holding the text. |
| Migrate.TitleRoundTrip | scripts/migrate_to_notion.py:54-56 | A migrated title reads back unchanged. |
| Migrate.MakeSelect | scripts/migrate_to_notion.py:72-74 | A migrated select reads back as its value. |
| Migrate.MakeCheckbox | scripts/migrate_to_notion.py:77-79 | A migrated checkbox reads back as its value. |
| Migrate.MigratedPageIsSynced | scripts/migrate_to_notion.py:86-95 | A migrated content item is synced exactly when its type and text are non-empty, and then with that type and text. |
| Migrate.MigratedUiPageIsSynced | scripts/migrate_to_notion.py:185-191 | A migrated UI text is synced exactly when its key is non-empty, with that key and text. |
| Connection.RewriteUrl | database/connection.py:12-19 | URLs of no recognised scheme, and SQLite URLs without `sqlite://` inside, are kept. |
| Connection.DefaultUrlIsMangled | database/connection.py:13-14 | As written, the default URL becomes `sqlite+aiosqlite+aiosqlite:///pause.db`, ten characters longer. |
| Connection.PlainSqliteUrlGetsDriver | database/connection.py:13-14 | A driverless `sqlite://` URL gets the aiosqlite driver. |
| Connection.PostgresUrlsGetDriver | database/connection.py:16-19 | Both Postgres spellings get the asyncpg driver. |
| Connection.DriverUrl | database/connection.py:12-19 | Corrected rewrite: only a driverless scheme at the front is replaced, and the rest of the URL is kept. |
| Connection.DriverUrlHasDriver | database/connection.py:12-19 | The corrected result never starts with a driverless scheme. |
| Connection.DriverUrlIdempotent | database/connection.py:12-19 | Rewriting a rewritten URL changes nothing. |
| Connection.DriverUrlKeepsDefault | database/connection.py:12-19 | The corrected rewrite leaves the default URL alone. |
| Settings.CheckBotToken | config.py:33-40 | A token is accepted exactly when present, non-empty and containing a colon. |
| Settings.CheckAdminId | config.py:14 | An admin id is accepted exactly when present and positive. |
| Settings.CheckPaymentLink | config.py:42-47 | A payment link is accepted exactly when present, non-empty and an http or https URL. |
| Settings.CheckPrice | config.py:22 | A price is accepted when absent, since it defaults, or positive. |
| Settings.LoadConfig | config.py:13-31 | Loading succeeds exactly when every validator does, and otherwise reports every validator's failure, in field order. Defaults fill all the optional settings, including the empty Notion token and welcome photo. |
| Settings.DefaultsAgree | config.py:18-28 | With only the required settings, price and currency equal the order table's defaults, and a sync reports both Notion databases unconfigured. |
| Text.Strip | handlers/box.py:93-96 | Stripping drops surrounding whitespace; the result is empty exactly when the text is all whitespace. |
| Text.StripIsInfix | handlers/box.py:96 | What stripping keeps is a contiguous part of the text with only whitespace around it. |
| Text.Split | handlers/admin.py:85 | Splitting gives separator-free pieces that join back to the text, and one piece exactly when the separator is absent. |
| Text.SplitOfJoin | handlers/admin.py:85 | Splitting the join of separator-free pieces gives the pieces back. |
| Text.SplitJoin2 | handlers/admin.py:85 | Splitting two separator-free pieces joined by the separator gives them back. |
| Text.ReplaceAll | database/connection.py:14 | A text with no occurrence of the pattern is unchanged. |
| Decimal.ParseIntOfIntToString | handlers/admin.py:85 | `int(str(i)) == i` for every integer. |
| Decimal.ParseIntRejectsWord | handlers/admin.py:85 | Text starting with something other than whitespace, a sign or a digit does not parse. |
| Decimal.TwoDigits | handlers/box.py:85 | The two-digit month is two digits denoting the month. |

## Left out

- Telegram I/O: sending and editing messages, alerts, button captions and markup objects, aiogram routers and FSM storage. Handlers are modelled by their effects on data and dialog state.
- Filters that route menu-button texts away from the box handlers (`MENU_BUTTONS`): they decide which handler runs, not what it does.
- SQLAlchemy sessions, commits and row locking, and `asyncio.Lock` in the content manager. Each handler and each `reload` is one atomic step; interleavings are not modelled.
- Database constraint failures, such as a duplicate UI key on commit. The cache tables' schema is not part of this model.
- APScheduler registration (`start`, `stop`), `main.py`, `handlers/menu.py`, `handlers/pause.py`, and the package `__init__` files. These are wiring and display.
- The Notion HTTP client and its pagination (`_fetch_all_pages`). A fetch is the list of pages it returned or its error. The Active filter is applied by the server and is not re-checked.
- The migration script's network calls, sleeps, `main` and loops over `texts.py`. `texts.py` is not part of this model; one migrated item is modelled at a time.
- The Notion page id is required for a row to be written but is not stored in the modelled cache rows.
- A block whose `plain_text` is present but null makes the join raise, so that page is skipped. The model treats every block's text as a string or absent.
- The literal poems, phrases, UI texts and month display names. Only the list sizes and the UI table's keys are pinned.
- `str.format` substitution. The format step is a parameter whose outcome is a text, a missing placeholder, or another error.
- Floating-point time stamps are reals, so rounding is not modelled.
- Whitespace and digits outside ASCII: `strip`, `\s` and `int()` accept more in Python than the model's ASCII classes. Underscores in `int()` input are not modelled either.
- pydantic's reading of the environment and `.env` file. Integer settings arrive already parsed.
- The `bot_token` validator's own emptiness check cannot trigger after `min_length=1`. The model reports the length error only.
- Scheduler.SendHour: the seeded generator is any function drawing inside the requested bounds. The properties hold for every such generator, not only CPython's Mersenne Twister.
- Admin.CmdOrders: recency is insertion order. The ordering by `created_at` is recovered by Admin.ListingNewestFirst only when creation times grow with insertion.
- Notion.ExtractRichText: the full join is stated through ExtractRichTextAppend and the migration round trip rather than in the function's own contract.
- Connection.RewriteUrl: its own contract covers only the unchanged cases. The rewritten cases are stated by DefaultUrlIsMangled, PlainSqliteUrlGetsDriver and PostgresUrlsGetDriver.

## Findings

| source | as written | input that shows it | evidently intended | confidence | as-written member | corrected member |
|---|---|---|---|---|---|---|
| database/connection.py:13-14 | Any URL starting with `sqlite` has every `sqlite://` replaced by `sqlite+aiosqlite://`. | The default `sqlite+aiosqlite:///pause.db` (config.py:18) becomes `sqlite+aiosqlite+aiosqlite:///pause.db`. | Add the driver only to a driverless scheme at the front, and leave a URL that already names its driver alone. | high; not executed | Connection.DefaultUrlIsMangled | Connection.DriverUrl |
| handlers/admin.py:91-96 | Confirm sets the status to confirmed and stamps `confirmed_at` whatever the order's status. Reject likewise sets cancelled. | Reject order #1, then press its still-visible confirm button: the cancelled order becomes confirmed and the buyer is told so. Pressing confirm twice moves `confirmed_at`. | Only pending or paid orders move forward; a finished order is a conflict. The box flow re-checks the status for the same reason (handlers/box.py:415). | medium; not executed | Admin.ConfirmRevivesCancelled | Admin.GuardedConfirm |
