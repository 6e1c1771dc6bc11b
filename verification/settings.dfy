/** The bot's settings as read from the environment, with their defaults and
    validation. Every field is validated and all failures are reported
    together, in declaration order. */
module Settings {
  import opened Wrappers
  import Text
  import Models
  import Connection
  import Notion

  /** The environment: each setting is present with a value, or absent.
      Integer settings arrive already parsed. */
  datatype Environment = Environment(
    botToken: Option<string>,
    adminId: Option<int>,
    paymentLink: Option<string>,
    databaseUrl: Option<string>,
    productName: Option<string>,
    productPrice: Option<int>,
    productCurrency: Option<string>,
    notionToken: Option<string>,
    notionContentDb: Option<string>,
    notionUiTextsDb: Option<string>,
    welcomePhotoId: Option<string>)

  /** The validated settings. */
  datatype Config = Config(
    botToken: string,
    adminId: int,
    paymentLink: string,
    databaseUrl: string,
    productName: string,
    productPrice: int,
    productCurrency: string,
    notionToken: string,
    notionContentDb: string,
    notionUiTextsDb: string,
    welcomePhotoId: string)

  /** Why a setting was rejected. */
  datatype SettingError =
    | Required(field: string)
    | TooShort(field: string)
    | NotPositive(field: string)
    | Invalid(field: string, message: string)

  const DefaultProductName: string := "Пауза"
  const DefaultPrice: int := 79
  const DefaultCurrency: string := "EUR"

  /** `bot_token`: required, at least one character, and of the form
      `id:hash` (it must contain a colon). */
  function CheckBotToken(v: Option<string>): (r: seq<SettingError>)
    ensures r == [] <==> v.Some? && |v.value| >= 1 && Text.ContainsChar(v.value, ':')
    ensures |r| <= 1
  {
    match v
    case None => [Required("bot_token")]
    case Some(s) =>
      if |s| < 1 then [TooShort("bot_token")]
      else if !Text.ContainsChar(s, ':') then [Invalid("bot_token", "BOT_TOKEN format invalid (expected 'id:hash')")]
      else []
  }

  /** `admin_id`: required and positive. */
  function CheckAdminId(v: Option<int>): (r: seq<SettingError>)
    ensures r == [] <==> v.Some? && v.value > 0
    ensures |r| <= 1
  {
    match v
    case None => [Required("admin_id")]
    case Some(n) => if n > 0 then [] else [NotPositive("admin_id")]
  }

  /** `payment_link`: required, non-empty, and an http or https URL. */
  function CheckPaymentLink(v: Option<string>): (r: seq<SettingError>)
    ensures r == [] <==> (v.Some? && |v.value| >= 1
                          && (Text.StartsWith(v.value, "http://") || Text.StartsWith(v.value, "https://")))
    ensures |r| <= 1
  {
    match v
    case None => [Required("payment_link")]
    case Some(s) =>
      if |s| < 1 then [TooShort("payment_link")]
      else if !(Text.StartsWith(s, "http://") || Text.StartsWith(s, "https://")) then
        [Invalid("payment_link", "PAYMENT_LINK must be a valid URL")]
      else []
  }

  /** `product_price`: defaults to 79; a given value must be positive. */
  function CheckPrice(v: Option<int>): (r: seq<SettingError>)
    ensures r == [] <==> v.None? || v.value > 0
  {
    match v
    case None => []
    case Some(n) => if n > 0 then [] else [NotPositive("product_price")]
  }

  /** `Config()`: the settings with their defaults, or every violation. */
  function LoadConfig(env: Environment): (r: Result<Config, seq<SettingError>>)
    ensures r.Success? <==>
      && CheckBotToken(env.botToken) == [] && CheckAdminId(env.adminId) == []
      && CheckPaymentLink(env.paymentLink) == [] && CheckPrice(env.productPrice) == []
    ensures r.Failure? ==> 1 <= |r.error| <= 4
    ensures r.Failure? ==>
      r.error == CheckBotToken(env.botToken) + CheckAdminId(env.adminId)
                 + CheckPaymentLink(env.paymentLink) + CheckPrice(env.productPrice)
    ensures r.Success? ==>
      var c := r.value;
      && Some(c.botToken) == env.botToken && Some(c.adminId) == env.adminId && Some(c.paymentLink) == env.paymentLink
      && c.adminId > 0 && c.productPrice > 0 && Text.ContainsChar(c.botToken, ':')
      && c.databaseUrl == env.databaseUrl.GetOr(Connection.DefaultDatabaseUrl)
      && c.productPrice == env.productPrice.GetOr(DefaultPrice)
      && c.productName == env.productName.GetOr(DefaultProductName)
      && c.productCurrency == env.productCurrency.GetOr(DefaultCurrency)
      && c.notionToken == env.notionToken.GetOr("")
      && c.welcomePhotoId == env.welcomePhotoId.GetOr("")
      && c.notionContentDb == env.notionContentDb.GetOr("")
      && c.notionUiTextsDb == env.notionUiTextsDb.GetOr("")
  {
    var errors := CheckBotToken(env.botToken) + CheckAdminId(env.adminId)
      + CheckPaymentLink(env.paymentLink) + CheckPrice(env.productPrice);
    if errors != [] then Failure(errors)
    else
      Success(Config(
        env.botToken.value, env.adminId.value, env.paymentLink.value,
        env.databaseUrl.GetOr(Connection.DefaultDatabaseUrl),
        env.productName.GetOr(DefaultProductName),
        env.productPrice.GetOr(DefaultPrice),
        env.productCurrency.GetOr(DefaultCurrency),
        env.notionToken.GetOr(""), env.notionContentDb.GetOr(""), env.notionUiTextsDb.GetOr(""),
        env.welcomePhotoId.GetOr("")))
  }

  /** The Notion part of the settings. */
  function NotionPart(c: Config): (r: Notion.NotionSettings)
    ensures r.contentDb == c.notionContentDb && r.uiTextsDb == c.notionUiTextsDb && r.token == c.notionToken
  {
    Notion.NotionSettings(c.notionToken, c.notionContentDb, c.notionUiTextsDb)
  }

  /** With only the three required settings given, the product defaults
      agree with the order table's column defaults, and a sync reports both
      Notion databases as not configured. */
  lemma DefaultsAgree(token: string, admin: int, link: string)
    requires Text.ContainsChar(token, ':') && admin > 0
    requires Text.StartsWith(link, "https://")
    ensures var r := LoadConfig(Environment(Some(token), Some(admin), Some(link), None, None, None, None, None, None, None, None));
      && r.Success?
      && r.value.productPrice == Models.DefaultAmount && r.value.productCurrency == Models.DefaultCurrency
      && Notion.SyncAll(NotionPart(r.value), Failure(""), Failure("")).errors == [Notion.ContentDbMissing, Notion.UiDbMissing]
  {
  }
}
