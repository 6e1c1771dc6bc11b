/** Pulling the content and UI-text databases from Notion into the local
    cache tables. The HTTP client and its pagination are not modelled: a
    fetch is the list of pages it returned, or the error it raised. */
module Notion {
  import opened Wrappers
  import Content

  /** A rich-text or title block as the API returns it; `plain_text` may be
      absent. */
  datatype Block = Block(plainText: Option<string>)

  /** `_extract_rich_text`: the blocks' plain texts joined, a missing one
      counting as empty. */
  function ExtractRichText(blocks: seq<Block>): (r: string)
    ensures blocks == [] ==> r == ""
    ensures |blocks| == 1 ==> r == blocks[0].plainText.GetOr("")
  {
    if |blocks| == 0 then ""
    else ExtractRichText(blocks[..|blocks| - 1]) + blocks[|blocks| - 1].plainText.GetOr("")
  }

  /** Joining distributes over concatenation of block lists. */
  lemma {:induction false} ExtractRichTextAppend(a: seq<Block>, b: seq<Block>)
    ensures ExtractRichText(a + b) == ExtractRichText(a) + ExtractRichText(b)
    decreases |b|
  {
    if |b| > 0 {
      var b' := b[..|b| - 1];
      assert (a + b)[..|a + b| - 1] == a + b';
      ExtractRichTextAppend(a, b');
    } else {
      assert a + b == a;
    }
  }

  /** `_extract_title`. */
  function ExtractTitle(blocks: seq<Block>): (r: string)
    ensures r == ExtractRichText(blocks)
  {
    ExtractRichText(blocks)
  }

  /** A select object: `{}` and `{"name": null}` carry no name. */
  datatype SelectValue = SelectValue(name: Option<string>)

  /** `_extract_select`: the option's name, None for a missing object. */
  function ExtractSelect(s: Option<SelectValue>): (r: Option<string>)
    ensures r.Some? <==> s.Some? && s.value.name.Some?
    ensures r.Some? ==> r == s.value.name
  {
    match s
    case None => None
    case Some(v) => v.name
  }

  /** `_extract_checkbox`: only an explicit true counts. */
  function ExtractCheckbox(v: Option<bool>): (r: bool)
    ensures r <==> v == Some(true)
  {
    v == Some(true)
  }

  /** A page of the content database: its id (if the payload has one), its
      Type select and its Content rich text. The query asks the API for
      pages whose Active box is checked. */
  datatype ContentPage = ContentPage(id: Option<string>, typeSelect: Option<SelectValue>, content: seq<Block>)

  /** A content page becomes a cache row when it has a non-empty type, a
      non-empty content and an id; otherwise it is skipped with a warning. */
  predicate Stored(p: ContentPage) {
    && ExtractSelect(p.typeSelect).Some? && ExtractSelect(p.typeSelect).value != ""
    && ExtractRichText(p.content) != ""
    && p.id.Some?
  }

  function Entry(p: ContentPage): Content.ContentRow
    requires Stored(p)
  {
    Content.ContentRow(ExtractSelect(p.typeSelect).value, ExtractRichText(p.content), true)
  }

  /** The rows `_sync_content` writes after emptying the table, in page
      order; the count it reports is their number. */
  function SyncContent(pages: seq<ContentPage>): (rows: seq<Content.ContentRow>)
    ensures |rows| <= |pages|
    ensures forall k :: 0 <= k < |rows| ==> rows[k].isActive && rows[k].contentType != "" && rows[k].content != ""
    ensures forall p :: p in pages && Stored(p) ==> Entry(p) in rows
    ensures forall e :: e in rows ==> exists p :: p in pages && Stored(p) && e == Entry(p)
  {
    if |pages| == 0 then []
    else
      var init := pages[..|pages| - 1];
      var p := pages[|pages| - 1];
      var rest := SyncContent(init);
      assert pages == init + [p];
      rest + (if Stored(p) then [Entry(p)] else [])
  }

  /** Reference: the contents of the stored pages of type `t`, in order. */
  function PagesOfType(pages: seq<ContentPage>, t: string): seq<string> {
    if |pages| == 0 then []
    else
      var p := pages[|pages| - 1];
      PagesOfType(pages[..|pages| - 1], t)
        + (if Stored(p) && ExtractSelect(p.typeSelect).value == t then [ExtractRichText(p.content)] else [])
  }

  /** The cache rows of a category are exactly the stored pages of that
      type, in page order. */
  lemma {:induction false} SyncedItemsMatchPages(pages: seq<ContentPage>, t: string)
    ensures Content.ItemsOfType(SyncContent(pages), t) == PagesOfType(pages, t)
    decreases |pages|
  {
    if |pages| > 0 {
      var init := pages[..|pages| - 1];
      var p := pages[|pages| - 1];
      SyncedItemsMatchPages(init, t);
      var rest := SyncContent(init);
      if Stored(p) {
        ItemsOfTypeSnoc(rest, Entry(p), t);
      } else {
        assert SyncContent(pages) == rest + [];
        assert rest + [] == rest;
      }
    }
  }

  lemma ItemsOfTypeSnoc(rows: seq<Content.ContentRow>, e: Content.ContentRow, t: string)
    ensures Content.ItemsOfType(rows + [e], t)
      == Content.ItemsOfType(rows, t) + (if e.isActive && e.contentType == t then [e.content] else [])
  {
    assert (rows + [e])[..|rows|] == rows;
  }

  /** After a sync and a successful reload the bot serves, for every type,
      exactly the stored pages' contents. */
  lemma SyncThenReload(c: Content.Cache, pages: seq<ContentPage>, ui: seq<Content.UiRow>, t: string)
    requires PagesOfType(pages, t) != []
    ensures var r := Content.Reload(c, Content.LoadOk(SyncContent(pages), ui));
      t in r.items && r.items[t] == PagesOfType(pages, t)
  {
    SyncedItemsMatchPages(pages, t);
  }

  /** A page of the UI-text database: id, Key title and Text rich text. */
  datatype UiPage = UiPage(id: Option<string>, key: seq<Block>, text: seq<Block>)

  /** A UI page is stored when it has a non-empty key and an id; an empty
      text is stored as it is. */
  predicate UiStored(p: UiPage) {
    ExtractTitle(p.key) != "" && p.id.Some?
  }

  function UiEntry(p: UiPage): Content.UiRow {
    Content.UiRow(ExtractTitle(p.key), ExtractRichText(p.text))
  }

  /** The rows `_sync_ui_texts` writes after emptying the table. */
  function SyncUiTexts(pages: seq<UiPage>): (rows: seq<Content.UiRow>)
    ensures |rows| <= |pages|
    ensures forall k :: 0 <= k < |rows| ==> rows[k].key != ""
    ensures forall p :: p in pages && UiStored(p) ==> UiEntry(p) in rows
    ensures forall e :: e in rows ==> exists p :: p in pages && UiStored(p) && e == UiEntry(p)
  {
    if |pages| == 0 then []
    else
      var init := pages[..|pages| - 1];
      var p := pages[|pages| - 1];
      var rest := SyncUiTexts(init);
      assert pages == init + [p];
      rest + (if UiStored(p) then [UiEntry(p)] else [])
  }

  /** The three settings a sync reads: token and the two database ids; an
      empty id means "not configured". */
  datatype NotionSettings = NotionSettings(token: string, contentDb: string, uiTextsDb: string)

  /** What `sync_all` returns, plus the new table contents (None when that
      table was left untouched). */
  datatype SyncReport = SyncReport(
    content: nat, uiTexts: nat, errors: seq<string>,
    contentTable: Option<seq<Content.ContentRow>>, uiTable: Option<seq<Content.UiRow>>)

  const ContentDbMissing: string := "NOTION_CONTENT_DB не настроен"
  const UiDbMissing: string := "NOTION_UI_TEXTS_DB не настроен"

  /** The prefixes of the messages for a failed half. */
  const ContentFailedPrefix: string := "Контент: "
  const UiFailedPrefix: string := "UI тексты: "

  /** `sync_all`: each half runs on its own; a missing database id or a
      failed fetch adds one message, content's before the UI texts', and
      leaves that table and count alone. */
  function SyncAll(cfg: NotionSettings, fetchContent: Result<seq<ContentPage>, string>,
                   fetchUi: Result<seq<UiPage>, string>): (r: SyncReport)
    ensures |r.errors| <= 2
    ensures r.errors == [] <==> cfg.contentDb != "" && cfg.uiTextsDb != "" && fetchContent.Success? && fetchUi.Success?
    ensures |r.errors| == (if r.contentTable.None? then 1 else 0) + (if r.uiTable.None? then 1 else 0)
    ensures r.contentTable.Some? <==> cfg.contentDb != "" && fetchContent.Success?
    ensures r.uiTable.Some? <==> cfg.uiTextsDb != "" && fetchUi.Success?
    ensures r.contentTable.Some? ==> r.contentTable.value == SyncContent(fetchContent.value) && r.content == |r.contentTable.value|
    ensures r.contentTable.None? ==> r.content == 0
    ensures r.uiTable.Some? ==> r.uiTable.value == SyncUiTexts(fetchUi.value) && r.uiTexts == |r.uiTable.value|
    ensures r.uiTable.None? ==> r.uiTexts == 0
    ensures cfg.contentDb == "" ==> r.errors[0] == ContentDbMissing
    ensures cfg.contentDb != "" && fetchContent.Failure? ==> r.errors[0] == ContentFailedPrefix + fetchContent.error
    ensures cfg.uiTextsDb == "" ==> r.errors[|r.errors| - 1] == UiDbMissing
    ensures cfg.uiTextsDb != "" && fetchUi.Failure? ==> r.errors[|r.errors| - 1] == UiFailedPrefix + fetchUi.error
  {
    var (cRows, cErr) :=
      if cfg.contentDb == "" then (None, [ContentDbMissing])
      else if fetchContent.Failure? then (None, [ContentFailedPrefix + fetchContent.error])
      else (Some(SyncContent(fetchContent.value)), []);
    var (uRows, uErr) :=
      if cfg.uiTextsDb == "" then (None, [UiDbMissing])
      else if fetchUi.Failure? then (None, [UiFailedPrefix + fetchUi.error])
      else (Some(SyncUiTexts(fetchUi.value)), []);
    SyncReport(
      if cRows.Some? then |cRows.value| else 0,
      if uRows.Some? then |uRows.value| else 0,
      cErr + uErr, cRows, uRows)
  }
}
