/** The one-off migration script's property builders, read back through the
    sync's extractors. A written block is its text content; the API reports
    that content as the block's plain text when the page is queried. */
module Migrate {
  import opened Wrappers
  import Notion
  import Content

  /** Characters the API accepts in one rich-text block. */
  const BlockLimit: nat := 2000

  /** The texts written to a property, joined. */
  function Join(blocks: seq<string>): string {
    if |blocks| == 0 then "" else Join(blocks[..|blocks| - 1]) + blocks[|blocks| - 1]
  }

  lemma {:induction false} JoinCons(b: string, rest: seq<string>)
    ensures Join([b] + rest) == b + Join(rest)
    decreases |rest|
  {
    if |rest| > 0 {
      var init := rest[..|rest| - 1];
      assert ([b] + rest)[..|[b] + rest| - 1] == [b] + init;
      JoinCons(b, init);
    } else {
      assert [b] + rest == [b];
    }
  }

  /** Reference split: whole 2000-character slices, then the remainder. */
  function Chunks(text: string): (r: seq<string>)
    ensures |r| >= 1
    ensures Join(r) == text
    ensures forall k :: 0 <= k < |r| ==> |r[k]| <= BlockLimit
    ensures forall k :: 0 <= k < |r| - 1 ==> |r[k]| == BlockLimit
    ensures |text| > 0 ==> forall k :: 0 <= k < |r| ==> |r[k]| > 0
    decreases |text|
  {
    if |text| <= BlockLimit then [text]
    else
      var rest := Chunks(text[BlockLimit..]);
      JoinCons(text[..BlockLimit], rest);
      assert text[..BlockLimit] + text[BlockLimit..] == text;
      [text[..BlockLimit]] + rest
  }

  /** The number of blocks is the length divided by 2000, rounded up (and one
      block for a short or empty text). */
  lemma {:induction false} ChunkCount(text: string)
    ensures |Chunks(text)| == if |text| <= BlockLimit then 1 else (|text| + BlockLimit - 1) / BlockLimit
    decreases |text|
  {
    if |text| > BlockLimit {
      ChunkCount(text[BlockLimit..]);
    }
  }

  /** One slice of the split: a full block, then the split of the rest. */
  lemma ChunksStep(text: string)
    requires |text| > BlockLimit
    ensures Chunks(text) == [text[..BlockLimit]] + Chunks(text[BlockLimit..])
  {
  }

  /** `make_rich_text`: one block when the text fits, otherwise the slices
      `text[i:i+2000]` for `i` in `range(0, len(text), 2000)`. */
  method MakeRichText(text: string) returns (blocks: seq<string>)
    ensures blocks == Chunks(text)
    ensures |text| <= BlockLimit ==> blocks == [text]
  {
    if |text| <= BlockLimit {
      blocks := [text];
    } else {
      blocks := SliceLoop(text);
    }
  }

  /** The loop of `make_rich_text` for a text longer than one block: the
      slices `text[i:i+2000]` for `i` in `range(0, len(text), 2000)`, with
      `rest` the text from `i` on. */
  method SliceLoop(text: string) returns (blocks: seq<string>)
    requires |text| > BlockLimit
    ensures blocks == Chunks(text)
  {
    blocks := [];
    var rest := text;
    while |rest| > BlockLimit
      invariant |rest| > 0
      invariant blocks + Chunks(rest) == Chunks(text)
      decreases |rest|
    {
      Advance(blocks, rest, text);
      blocks := blocks + [rest[..BlockLimit]];
      rest := rest[BlockLimit..];
    }
    blocks := blocks + [rest];
  }

  /** The loop step: one more full slice taken off the rest. */
  lemma Advance(blocks: seq<string>, rest: string, text: string)
    requires |rest| > BlockLimit
    requires blocks + Chunks(rest) == Chunks(text)
    ensures (blocks + [rest[..BlockLimit]]) + Chunks(rest[BlockLimit..]) == Chunks(text)
  {
    ChunksStep(rest);
    assert (blocks + [rest[..BlockLimit]]) + Chunks(rest[BlockLimit..])
      == blocks + ([rest[..BlockLimit]] + Chunks(rest[BlockLimit..]));
  }

  /** What a query reports for blocks written with these texts. */
  function ReadBack(blocks: seq<string>): (r: seq<Notion.Block>)
    ensures |r| == |blocks|
    ensures forall k :: 0 <= k < |r| ==> r[k] == Notion.Block(Some(blocks[k]))
  {
    if |blocks| == 0 then [] else ReadBack(blocks[..|blocks| - 1]) + [Notion.Block(Some(blocks[|blocks| - 1]))]
  }

  /** Reading the blocks back yields the joined texts. */
  lemma {:induction false} ReadBackJoins(blocks: seq<string>)
    ensures Notion.ExtractRichText(ReadBack(blocks)) == Join(blocks)
    decreases |blocks|
  {
    if |blocks| > 0 {
      var init := blocks[..|blocks| - 1];
      ReadBackJoins(init);
      var r := ReadBack(blocks);
      assert r[..|r| - 1] == ReadBack(init);
    }
  }

  /** A migrated text survives the round trip through Notion unchanged, however
      many blocks it was split into. */
  lemma RichTextRoundTrip(text: string)
    ensures Notion.ExtractRichText(ReadBack(Chunks(text))) == text
  {
    ReadBackJoins(Chunks(text));
  }

  /** `make_title`: a single block, never split. */
  function MakeTitle(text: string): (r: seq<string>)
    ensures Join(r) == text && |r| == 1
  {
    [text]
  }

  lemma TitleRoundTrip(text: string)
    ensures Notion.ExtractTitle(ReadBack(MakeTitle(text))) == text
  {
    ReadBackJoins(MakeTitle(text));
  }

  /** `make_select`: a select option with this name. */
  function MakeSelect(value: string): (r: Option<Notion.SelectValue>)
    ensures Notion.ExtractSelect(r) == Some(value)
  {
    Some(Notion.SelectValue(Some(value)))
  }

  /** `make_checkbox`. */
  function MakeCheckbox(value: bool): (r: Option<bool>)
    ensures Notion.ExtractCheckbox(r) == value
  {
    Some(value)
  }

  /** The content page the migration creates for one item, as the sync
      later reads it. */
  function MigratedPage(id: string, contentType: string, text: string): Notion.ContentPage {
    Notion.ContentPage(Some(id), MakeSelect(contentType), ReadBack(Chunks(text)))
  }

  /** A migrated item is cached by the next sync exactly when its type and
      its text are non-empty, with that type and that text. */
  lemma MigratedPageIsSynced(id: string, contentType: string, text: string)
    ensures Notion.Stored(MigratedPage(id, contentType, text)) <==> contentType != "" && text != ""
    ensures contentType != "" && text != "" ==>
      Notion.SyncContent([MigratedPage(id, contentType, text)]) == [Content.ContentRow(contentType, text, true)]
  {
    RichTextRoundTrip(text);
    var p := MigratedPage(id, contentType, text);
    assert [p][..0] == [];
  }

  /** The UI-text page the migration creates for one key: the key as title,
      the text as rich text. */
  function MigratedUiPage(id: string, key: string, text: string): Notion.UiPage {
    Notion.UiPage(Some(id), ReadBack(MakeTitle(key)), ReadBack(Chunks(text)))
  }

  /** A migrated UI text is cached by the next sync exactly when its key is
      non-empty, with that key and that text, even an empty one. */
  lemma MigratedUiPageIsSynced(id: string, key: string, text: string)
    ensures Notion.UiStored(MigratedUiPage(id, key, text)) <==> key != ""
    ensures key != "" ==> Notion.SyncUiTexts([MigratedUiPage(id, key, text)]) == [Content.UiRow(key, text)]
  {
    RichTextRoundTrip(text);
    TitleRoundTrip(key);
    var p := MigratedUiPage(id, key, text);
    assert [p][..0] == [];
  }
}
