/** The in-memory content cache: category -> items and UI key -> text,
    rebuilt wholesale from the content tables, with static fallbacks. */
module Content {
  import opened Wrappers

  /** A row of the content table. */
  datatype ContentRow = ContentRow(contentType: string, content: string, isActive: bool)

  /** A row of the UI-text table. */
  datatype UiRow = UiRow(key: string, text: string)

  /** The published cache. */
  datatype Cache = Cache(items: map<string, seq<string>>, ui: map<string, string>, loaded: bool)

  const Initial: Cache := Cache(map[], map[], false)

  /** How the two table reads of a reload end: both succeed, the first one
      (or opening the session) fails, or the second one fails after the
      content rows were already grouped. */
  datatype LoadOutcome =
    | LoadOk(contentRows: seq<ContentRow>, uiRows: seq<UiRow>)
    | ContentQueryFailed
    | UiQueryFailed(contentRows: seq<ContentRow>)

  /** Reference: the active items of category `t`, in row order. */
  function ItemsOfType(rows: seq<ContentRow>, t: string): seq<string>
  {
    if |rows| == 0 then []
    else
      var r := rows[|rows| - 1];
      ItemsOfType(rows[..|rows| - 1], t) + (if r.isActive && r.contentType == t then [r.content] else [])
  }

  /** The grouping loop of `reload` over the active rows. */
  function GroupByType(rows: seq<ContentRow>): (m: map<string, seq<string>>)
    ensures forall t :: t in m <==> ItemsOfType(rows, t) != []
    ensures forall t :: t in m ==> m[t] == ItemsOfType(rows, t)
  {
    if |rows| == 0 then map[]
    else
      var m := GroupByType(rows[..|rows| - 1]);
      var r := rows[|rows| - 1];
      if !r.isActive then m
      else if r.contentType in m then m[r.contentType := m[r.contentType] + [r.content]]
      else m[r.contentType := [r.content]]
  }

  /** Reference: the text of the last row carrying `key`. */
  function LastText(rows: seq<UiRow>, key: string): Option<string>
  {
    if |rows| == 0 then None
    else if rows[|rows| - 1].key == key then Some(rows[|rows| - 1].text)
    else LastText(rows[..|rows| - 1], key)
  }

  /** The key -> text loop of `reload`: later rows overwrite earlier ones. */
  function UiMap(rows: seq<UiRow>): (m: map<string, string>)
    ensures forall k :: k in m <==> LastText(rows, k).Some?
    ensures forall k :: k in m ==> m[k] == LastText(rows, k).value
  {
    if |rows| == 0 then map[]
    else UiMap(rows[..|rows| - 1])[rows[|rows| - 1].key := rows[|rows| - 1].text]
  }

  /** `reload`: whatever was built before a failure is published, the old
      maps are dropped either way, and the cache counts as loaded. */
  function Reload(c: Cache, load: LoadOutcome): (r: Cache)
    ensures r.loaded
    ensures load.LoadOk? ==> r.items == GroupByType(load.contentRows) && r.ui == UiMap(load.uiRows)
    ensures load.ContentQueryFailed? ==> r.items == map[] && r.ui == map[]
    ensures load.UiQueryFailed? ==> r.items == GroupByType(load.contentRows) && r.ui == map[]
  {
    match load
    case LoadOk(cr, ur) => Cache(GroupByType(cr), UiMap(ur), true)
    case ContentQueryFailed => Cache(map[], map[], true)
    case UiQueryFailed(cr) => Cache(GroupByType(cr), map[], true)
  }

  /** The published cache after a reload does not depend on what was
      published before it: a failed reload does not keep the old maps. */
  lemma ReloadForgetsPrevious(c1: Cache, c2: Cache, load: LoadOutcome)
    ensures Reload(c1, load) == Reload(c2, load)
  {
  }

  /** Readers reload first when nothing has been loaded yet. */
  function EnsureLoaded(c: Cache, load: LoadOutcome): (r: Cache)
    ensures r.loaded
    ensures c.loaded ==> r == c
  {
    if c.loaded then c else Reload(c, load)
  }

  /** The UI keys a deployment must provide. */
  const RequiredUiKeys: seq<string> := [
    "ONBOARDING_WELCOME", "ONBOARDING_ASK_REMINDERS", "ONBOARDING_NO_REMINDERS",
    "ONBOARDING_ASK_FREQUENCY", "ONBOARDING_ASK_TIME", "ONBOARDING_CONFIRM",
    "WELCOME_BACK", "BOX_INTRO", "BOX_ASK_NAME", "BOX_ASK_PHONE", "BOX_ASK_ADDRESS",
    "BOX_CONFIRM", "BOX_PAYMENT", "BOX_THANKS", "BOX_CONFIRMED", "BOX_LATER",
    "WELCOME", "ABOUT", "ORDER_START", "ORDER_EMAIL", "ORDER_CONFIRM",
    "ORDER_PAYMENT", "ORDER_THANKS", "ORDER_CONFIRMED", "HELP"]

  /** The keys of the built-in UI text table. */
  const FallbackUiKeys: set<string> := {
    "ONBOARDING_WELCOME", "ONBOARDING_ASK_REMINDERS", "ONBOARDING_NO_REMINDERS",
    "ONBOARDING_ASK_FREQUENCY", "ONBOARDING_ASK_TIME", "ONBOARDING_CONFIRM",
    "WELCOME_BACK", "BOX_INTRO", "BOX_ASK_NAME", "BOX_ASK_PHONE", "BOX_ASK_ADDRESS",
    "BOX_CONFIRM", "BOX_PAYMENT", "BOX_THANKS", "BOX_CONFIRMED", "BOX_LATER",
    "WELCOME", "ABOUT", "ORDER_START", "ORDER_EMAIL", "ORDER_CONFIRM",
    "ORDER_PAYMENT", "ORDER_THANKS", "ORDER_CONFIRMED", "HELP"}

  /** The built-in corpora. Their literal texts are not modelled; `Shaped`
      pins their sizes and the UI table's keys. */
  datatype Fallbacks = Fallbacks(
    pausePhrases: seq<string>,
    pauseMusic: seq<string>,
    pausePoems: seq<string>,
    breathe: seq<string>,
    movies: seq<string>,
    books: seq<string>,
    uiTexts: map<string, string>)

  predicate Shaped(fb: Fallbacks) {
    && |fb.pausePhrases| == 12
    && |fb.pauseMusic| == 10
    && |fb.pausePoems| == 5
    && |fb.breathe| == 1
    && |fb.movies| == 2
    && |fb.books| == 1
    && fb.uiTexts.Keys == FallbackUiKeys
  }

  /** `validate_ui_keys`: the required keys missing from the map, in order. */
  function MissingKeys(keys: seq<string>, ui: map<string, string>): (r: seq<string>)
    ensures forall k :: k in r <==> k in keys && k !in ui
    ensures |r| <= |keys|
    ensures |keys| == 1 ==> r == (if keys[0] in ui then [] else keys)
  {
    if |keys| == 0 then []
    else MissingKeys(keys[..|keys| - 1], ui) + (if keys[|keys| - 1] in ui then [] else [keys[|keys| - 1]])
  }

  /** The check walks the keys once: the keys missing from a concatenation
      are those missing from each part, in the same order. */
  lemma {:induction false} MissingKeysAppend(a: seq<string>, b: seq<string>, ui: map<string, string>)
    ensures MissingKeys(a + b, ui) == MissingKeys(a, ui) + MissingKeys(b, ui)
    decreases |b|
  {
    if |b| == 0 {
      assert a + b == a;
    } else {
      var b' := b[..|b| - 1];
      assert (a + b)[..|a + b| - 1] == a + b';
      assert (a + b)[|a + b| - 1] == b[|b| - 1];
      MissingKeysAppend(a, b', ui);
    }
  }

  /** `x` occurs in `r` before `y` does. */
  predicate InOrder(r: seq<string>, x: string, y: string) {
    exists i, j :: 0 <= i < j < |r| && r[i] == x && r[j] == y
  }

  /** Two missing keys are reported in the order they are required. */
  lemma {:induction false} MissingKeysKeepOrder(keys: seq<string>, ui: map<string, string>, p: nat, q: nat)
    requires p < q < |keys| && keys[p] !in ui && keys[q] !in ui
    ensures InOrder(MissingKeys(keys, ui), keys[p], keys[q])
  {
    var front, back := keys[..q], keys[q..];
    assert keys == front + back;
    MissingKeysAppend(front, back, ui);
    var mf, mb := MissingKeys(front, ui), MissingKeys(back, ui);
    assert front[p] == keys[p];
    assert keys[p] in mf;
    var i :| 0 <= i < |mf| && mf[i] == keys[p];
    MissingKeysHead(back, ui);
    assert mb[0] == keys[q];
    var r := MissingKeys(keys, ui);
    assert r == mf + mb;
    assert r[i] == keys[p] && r[|mf|] == keys[q];
    assert InOrder(r, keys[p], keys[q]);
  }

  /** A list whose first key is missing reports that key first. */
  lemma {:induction false} MissingKeysHead(keys: seq<string>, ui: map<string, string>)
    requires |keys| > 0 && keys[0] !in ui
    ensures |MissingKeys(keys, ui)| > 0 && MissingKeys(keys, ui)[0] == keys[0]
  {
    assert keys == [keys[0]] + keys[1..];
    MissingKeysAppend([keys[0]], keys[1..], ui);
  }

  function ValidateUiKeys(c: Cache): (r: seq<string>)
    ensures forall k :: k in r <==> k in RequiredUiKeys && k !in c.ui
    ensures forall p, q :: 0 <= p < q < |RequiredUiKeys| && RequiredUiKeys[p] !in c.ui && RequiredUiKeys[q] !in c.ui ==>
      InOrder(r, RequiredUiKeys[p], RequiredUiKeys[q])
  {
    MissingKeysInOrder(RequiredUiKeys, c.ui);
    MissingKeys(RequiredUiKeys, c.ui)
  }

  lemma MissingKeysInOrder(keys: seq<string>, ui: map<string, string>)
    ensures forall p, q :: 0 <= p < q < |keys| && keys[p] !in ui && keys[q] !in ui ==>
      InOrder(MissingKeys(keys, ui), keys[p], keys[q])
  {
    forall p, q | 0 <= p < q < |keys| && keys[p] !in ui && keys[q] !in ui
      ensures InOrder(MissingKeys(keys, ui), keys[p], keys[q])
    {
      MissingKeysKeepOrder(keys, ui, p, q);
    }
  }

  /** After a reload whose UI read failed, every required key is reported. */
  lemma {:induction false} FailedReloadMissesEveryKey(c: Cache, load: LoadOutcome)
    requires !load.LoadOk?
    ensures ValidateUiKeys(Reload(c, load)) == RequiredUiKeys
  {
    MissingFromEmpty(RequiredUiKeys);
  }

  lemma {:induction false} MissingFromEmpty(keys: seq<string>)
    ensures MissingKeys(keys, map[]) == keys
  {
    if |keys| > 0 {
      MissingFromEmpty(keys[..|keys| - 1]);
      assert keys == keys[..|keys| - 1] + [keys[|keys| - 1]];
    }
  }

  /** `random.choice(items)`: some element of a non-empty list, selected by
      an arbitrary `choice`. */
  function Pick(items: seq<string>, choice: nat): (r: string)
    requires |items| > 0
    ensures r in items
  {
    items[choice % |items|]
  }

  /** Every element of the list can come out of `Pick`. */
  lemma EveryItemCanBePicked(items: seq<string>, x: string)
    requires x in items
    ensures exists choice: nat :: Pick(items, choice) == x
  {
    var i :| 0 <= i < |items| && items[i] == x;
    assert Pick(items, i) == x;
  }

  /** The cache after a read, and the item read. */
  datatype Draw = Draw(cache: Cache, item: string)

  function Cached(c: Cache, t: string): seq<string> {
    if t in c.items then c.items[t] else []
  }

  /** `_get_random_content`: a cached item of the category, or a fallback
      item when the category has none. */
  function GetRandomContent(c: Cache, load: LoadOutcome, contentType: string, fallback: seq<string>, choice: nat): (r: Draw)
    requires |fallback| > 0
    ensures r.cache == EnsureLoaded(c, load)
    ensures Cached(r.cache, contentType) != [] ==> r.item in Cached(r.cache, contentType)
    ensures Cached(r.cache, contentType) == [] ==> r.item in fallback
  {
    var c' := EnsureLoaded(c, load);
    var items := Cached(c', contentType);
    Draw(c', Pick(if items != [] then items else fallback, choice))
  }

  /** Reminders draw short phrases. */
  function GetRandomReminder(c: Cache, load: LoadOutcome, fb: Fallbacks, choice: nat): (r: Draw)
    requires Shaped(fb)
    ensures r.cache == EnsureLoaded(c, load)
    ensures Cached(r.cache, "pause_phrases") != [] ==> r.item in Cached(r.cache, "pause_phrases")
    ensures Cached(r.cache, "pause_phrases") == [] ==> r.item in fb.pausePhrases
  {
    GetRandomContent(c, load, "pause_phrases", fb.pausePhrases, choice)
  }

  function GetRandomBreathe(c: Cache, load: LoadOutcome, fb: Fallbacks, choice: nat): (r: Draw)
    requires Shaped(fb)
    ensures r.cache == EnsureLoaded(c, load)
    ensures Cached(r.cache, "breathe") != [] ==> r.item in Cached(r.cache, "breathe")
    ensures Cached(r.cache, "breathe") == [] ==> r.item in fb.breathe
  {
    GetRandomContent(c, load, "breathe", fb.breathe, choice)
  }

  function GetRandomMovie(c: Cache, load: LoadOutcome, fb: Fallbacks, choice: nat): (r: Draw)
    requires Shaped(fb)
    ensures r.cache == EnsureLoaded(c, load)
    ensures Cached(r.cache, "movie") != [] ==> r.item in Cached(r.cache, "movie")
    ensures Cached(r.cache, "movie") == [] ==> r.item in fb.movies
  {
    GetRandomContent(c, load, "movie", fb.movies, choice)
  }

  function GetRandomBook(c: Cache, load: LoadOutcome, fb: Fallbacks, choice: nat): (r: Draw)
    requires Shaped(fb)
    ensures r.cache == EnsureLoaded(c, load)
    ensures Cached(r.cache, "book") != [] ==> r.item in Cached(r.cache, "book")
    ensures Cached(r.cache, "book") == [] ==> r.item in fb.books
  {
    GetRandomContent(c, load, "book", fb.books, choice)
  }

  /** `get_random_pause`: poems and music from the cache, or the built-in
      poems and music when both categories are empty. */
  function GetRandomPause(c: Cache, load: LoadOutcome, fb: Fallbacks, choice: nat): (r: Draw)
    requires Shaped(fb)
    ensures r.cache == EnsureLoaded(c, load)
    ensures var pool := Cached(r.cache, "pause_long") + Cached(r.cache, "pause_music");
      if pool != [] then r.item in pool else r.item in fb.pausePoems + fb.pauseMusic
  {
    var c' := EnsureLoaded(c, load);
    var pool := Cached(c', "pause_long") + Cached(c', "pause_music");
    Draw(c', Pick(if pool != [] then pool else fb.pausePoems + fb.pauseMusic, choice))
  }

  /** `get_random_long_pause`: the same over meditation, films and books. */
  function GetRandomLongPause(c: Cache, load: LoadOutcome, fb: Fallbacks, choice: nat): (r: Draw)
    requires Shaped(fb)
    ensures r.cache == EnsureLoaded(c, load)
    ensures var pool := Cached(r.cache, "breathe") + Cached(r.cache, "movie") + Cached(r.cache, "book");
      if pool != [] then r.item in pool else r.item in fb.breathe + fb.movies + fb.books
  {
    var c' := EnsureLoaded(c, load);
    var pool := Cached(c', "breathe") + Cached(c', "movie") + Cached(c', "book");
    Draw(c', Pick(if pool != [] then pool else fb.breathe + fb.movies + fb.books, choice))
  }

  /** With nothing loadable, every draw still yields a built-in item. */
  lemma {:induction false} EmptyStoreServesFallback(fb: Fallbacks, choice: nat)
    requires Shaped(fb)
    ensures GetRandomReminder(Initial, ContentQueryFailed, fb, choice).item in fb.pausePhrases
    ensures GetRandomPause(Initial, ContentQueryFailed, fb, choice).item in fb.pausePoems + fb.pauseMusic
    ensures GetRandomLongPause(Initial, ContentQueryFailed, fb, choice).item in fb.breathe + fb.movies + fb.books
  {
    var c := Reload(Initial, ContentQueryFailed);
    assert Cached(c, "pause_phrases") == [];
    assert Cached(c, "pause_long") == [] && Cached(c, "pause_music") == [];
    assert Cached(c, "breathe") == [] && Cached(c, "movie") == [] && Cached(c, "book") == [];
  }

  /** Where a UI text came from. */
  datatype TextSource = FromCache | FromFallbackTable | FromArgument | Marker

  /** The fallback chain of `get_ui_text`: cache, built-in table, the
      caller's non-empty fallback, then the marker `[key]`. */
  function ResolveUiText(ui: map<string, string>, fb: Fallbacks, key: string, fallback: string): (r: (TextSource, string))
    ensures key in ui ==> r == (FromCache, ui[key])
    ensures key !in ui && key in fb.uiTexts ==> r == (FromFallbackTable, fb.uiTexts[key])
    ensures r.0 == FromArgument ==> r.1 == fallback && fallback != ""
    ensures r.0 == Marker <==> key !in ui && key !in fb.uiTexts && fallback == ""
    ensures r.0 == Marker ==> r.1 == "[" + key + "]"
  {
    if key in ui then (FromCache, ui[key])
    else if key in fb.uiTexts then (FromFallbackTable, fb.uiTexts[key])
    else if fallback != "" then (FromArgument, fallback)
    else (Marker, "[" + key + "]")
  }

  /** Outcome of `text.format(**kwargs)`. */
  datatype FormatOutcome = Formatted(text: string) | MissingPlaceholder | OtherFormatError

  /** `get_ui_text`: resolve, then format when placeholders were passed. A
      missing placeholder yields the unformatted text; any other formatting
      error escapes (Failure). */
  function GetUiText(c: Cache, load: LoadOutcome, fb: Fallbacks, key: string, fallback: string,
                     format: Option<string -> FormatOutcome>): (r: (Cache, Result<string, string>))
    ensures r.0 == EnsureLoaded(c, load)
    ensures var text := ResolveUiText(r.0.ui, fb, key, fallback).1;
      && (format.None? ==> r.1 == Success(text))
      && (format.Some? && format.value(text) == MissingPlaceholder ==> r.1 == Success(text))
      && (format.Some? && format.value(text).Formatted? ==> r.1 == Success(format.value(text).text))
      && (r.1.Failure? <==> format.Some? && format.value(text) == OtherFormatError)
  {
    var c' := EnsureLoaded(c, load);
    var text := ResolveUiText(c'.ui, fb, key, fallback).1;
    if format.None? then (c', Success(text))
    else match format.value(text)
      case Formatted(t) => (c', Success(t))
      case MissingPlaceholder => (c', Success(text))
      case OtherFormatError => (c', Failure(key))
  }

  /** Every required key is in the built-in table, so a required key never
      resolves to the caller's fallback nor to the `[key]` marker. */
  lemma RequiredKeysNeverMarker(ui: map<string, string>, fb: Fallbacks, key: string, fallback: string)
    requires Shaped(fb) && key in RequiredUiKeys
    ensures ResolveUiText(ui, fb, key, fallback).0 in {FromCache, FromFallbackTable}
  {
  }
}
