/**
 * The block loop of `convertArticleToMarkdown` (x-to-markdown/scripts/parse-tweet.js:85-128):
 * each draft.js block of the article appends its Markdown to `md`. The heading, author, date,
 * source and statistics lines written before the loop (lines 73-83) are the loop's starting
 * value, a parameter here.
 */
module Article {
  import opened Options
  import opened JsText
  import opened InlineStyles
  import opened Entities

  datatype EntityRange = EntityRange(key: JsonId)

  /**
   * A content block: `type`, `text`, `entityRanges` and `inlineStyleRanges`; a missing text or
   * list is `None`.
   */
  datatype Block = Block(
    blockType: string,
    text: Option<string>,
    entityRanges: Option<seq<EntityRange>>,
    inlineStyleRanges: Option<seq<StyleRange>>)

  /** A missing string value written into a template or concatenated: JavaScript writes "undefined". */
  function JsString(s: Option<string>): string {
    if s.Some? then s.value else "undefined"
  }

  /** A block rendered from its entity: atomic with at least one entity range. */
  predicate IsEmbed(block: Block) {
    block.blockType == "atomic" && block.entityRanges.Some? && |block.entityRanges.value| > 0
  }

  /** Lines 92-101: the Markdown of an embedded entity. */
  function EntityMarkdown(entity: Entity, mediaEntities: Option<seq<MediaEntity>>): string {
    if entity.entityType == "MARKDOWN" then JsString(entity.data.markdown) + "\n\n"
    else if entity.entityType == "MEDIA" then
      var img := ResolveMedia(entity, mediaEntities);
      if img.Some? && img.value != "" then img.value + "\n\n" else ""
    else if entity.entityType == "TWEET" then
      "> [Embedded Tweet](https://x.com/i/status/" + JsString(entity.data.tweetId) + ")\n\n"
    else ""
  }

  /** The entity an embed names: the one under the stringified key of its first entity range. */
  function EmbeddedEntity(block: Block, entityMap: map<string, Option<Entity>>): Option<Entity>
    requires IsEmbed(block)
  {
    var entityKey := IdString(block.entityRanges.value[0].key);
    if entityKey in entityMap then entityMap[entityKey] else None
  }

  /** The `switch (block.type)` of lines 109-127. */
  function TextMarkdown(blockType: string, styled: string): string {
    if blockType == "header-one" then "# " + styled + "\n\n"
    else if blockType == "header-two" then "## " + styled + "\n\n"
    else if blockType == "header-three" then "### " + styled + "\n\n"
    else if blockType == "unordered-list-item" then "- " + styled + "\n"
    else if blockType == "ordered-list-item" then "1. " + styled + "\n"
    else styled + "\n\n"
  }

  /** The Markdown one block appends. */
  function BlockMarkdown(block: Block, entityMap: map<string, Option<Entity>>,
                         mediaEntities: Option<seq<MediaEntity>>): string
  {
    var text := Trim(block.text.GetOr(""));
    if IsEmbed(block) then
      var entity := EmbeddedEntity(block, entityMap);
      if entity.Some? then EntityMarkdown(entity.value, mediaEntities) else ""
    else if text == "" then ""
    else TextMarkdown(block.blockType, InlineStyled(text, block.inlineStyleRanges))
  }

  /** The Markdown of a list of blocks, in order. */
  function RenderBlocks(blocks: seq<Block>, entityMap: map<string, Option<Entity>>,
                        mediaEntities: Option<seq<MediaEntity>>): string
  {
    if blocks == [] then ""
    else RenderBlocks(blocks[..|blocks| - 1], entityMap, mediaEntities)
         + BlockMarkdown(blocks[|blocks| - 1], entityMap, mediaEntities)
  }

  /** Rendering one more block appends that block's Markdown. */
  lemma RenderBlocksSnoc(blocks: seq<Block>, i: nat, entityMap: map<string, Option<Entity>>,
                         mediaEntities: Option<seq<MediaEntity>>)
    requires i < |blocks|
    ensures RenderBlocks(blocks[..i + 1], entityMap, mediaEntities)
      == RenderBlocks(blocks[..i], entityMap, mediaEntities) + BlockMarkdown(blocks[i], entityMap, mediaEntities)
  {
    assert blocks[..i + 1][..i] == blocks[..i];
  }

  // ---------------------------------------------------------------- the loop

  /** Lines 89-103: an embed appends its entity's Markdown, or nothing. */
  method AppendEmbed(md: string, block: Block, entityMap: map<string, Option<Entity>>,
                     mediaEntities: Option<seq<MediaEntity>>) returns (md': string)
    requires IsEmbed(block)
    ensures md' == md + BlockMarkdown(block, entityMap, mediaEntities)
  {
    md' := md;
    var entityKey := IdString(block.entityRanges.value[0].key);
    var entity := if entityKey in entityMap then entityMap[entityKey] else None;
    if entity.Some? {
      var e := entity.value;
      if e.entityType == "MARKDOWN" {
        md' := md' + JsString(e.data.markdown) + "\n\n";
      } else if e.entityType == "MEDIA" {
        var img := ResolveMedia(e, mediaEntities);
        if img.Some? && img.value != "" {
          md' := md' + img.value + "\n\n";
        }
      } else if e.entityType == "TWEET" {
        md' := md' + "> [Embedded Tweet](https://x.com/i/status/" + JsString(e.data.tweetId) + ")\n\n";
      }
    }
  }

  /** Lines 107-127: a text block appends its styled text with the prefix and ending of its type. */
  method AppendText(md: string, block: Block, text: string) returns (md': string)
    requires text != ""
    ensures md' == md + TextMarkdown(block.blockType, InlineStyled(text, block.inlineStyleRanges))
  {
    var styled := ApplyInlineStyles(text, block.inlineStyleRanges);
    if block.blockType == "header-one" {
      md' := md + "# " + styled + "\n\n";
    } else if block.blockType == "header-two" {
      md' := md + "## " + styled + "\n\n";
    } else if block.blockType == "header-three" {
      md' := md + "### " + styled + "\n\n";
    } else if block.blockType == "unordered-list-item" {
      md' := md + "- " + styled + "\n";
    } else if block.blockType == "ordered-list-item" {
      md' := md + "1. " + styled + "\n";
    } else {
      md' := md + styled + "\n\n";
    }
  }

  /**
   * One pass of the loop body (lines 86-127): an embed appends its entity and goes on to the next
   * block (`continue`), as does a block whose trimmed text is empty; any other block appends its
   * styled text.
   */
  method AppendBlock(md: string, block: Block, entityMap: map<string, Option<Entity>>,
                     mediaEntities: Option<seq<MediaEntity>>) returns (md': string)
    ensures md' == md + BlockMarkdown(block, entityMap, mediaEntities)
  {
    var text := Trim(block.text.GetOr(""));

    if block.blockType == "atomic" && block.entityRanges.Some? && |block.entityRanges.value| > 0 {
      md' := AppendEmbed(md, block, entityMap, mediaEntities);
      return;
    }

    if text == "" {
      assert md + BlockMarkdown(block, entityMap, mediaEntities) == md;
      return md;
    }

    md' := AppendText(md, block, text);
  }

  /** The loop of lines 85-128, appending each block's Markdown to `md`. */
  method ConvertBlocks(md0: string, blocks: seq<Block>, entityMap: map<string, Option<Entity>>,
                       mediaEntities: Option<seq<MediaEntity>>) returns (md: string)
    ensures md == md0 + RenderBlocks(blocks, entityMap, mediaEntities)
  {
    md := md0;
    for i := 0 to |blocks|
      invariant md == md0 + RenderBlocks(blocks[..i], entityMap, mediaEntities)
    {
      ghost var rendered := RenderBlocks(blocks[..i], entityMap, mediaEntities);
      ghost var step := BlockMarkdown(blocks[i], entityMap, mediaEntities);
      RenderBlocksSnoc(blocks, i, entityMap, mediaEntities);
      ConcatAssociative(md0, rendered, step);
      md := AppendBlock(md, blocks[i], entityMap, mediaEntities);
    }
    assert blocks[..|blocks|] == blocks;
  }

  // ---------------------------------------------------------------- properties

  /** List items, which the switch closes with a single newline. */
  predicate IsListItem(block: Block) {
    block.blockType == "unordered-list-item" || block.blockType == "ordered-list-item"
  }

  predicate EndsWith(s: string, suffix: string) {
    |suffix| <= |s| && s[|s| - |suffix|..] == suffix
  }

  /**
   * An embed is rendered from the entity under its first range alone: its text, its inline
   * styles, its further ranges and its other fields make no difference.
   */
  lemma EmbedDependsOnlyOnEntity(a: Block, b: Block, entityMap: map<string, Option<Entity>>,
                                 mediaEntities: Option<seq<MediaEntity>>)
    requires IsEmbed(a) && IsEmbed(b)
    requires IdString(a.entityRanges.value[0].key) == IdString(b.entityRanges.value[0].key)
    ensures BlockMarkdown(a, entityMap, mediaEntities) == BlockMarkdown(b, entityMap, mediaEntities)
  {
  }

  /**
   * What a block appends is empty exactly when it is an embed whose entity is missing or renders
   * nothing (an unknown type, or media without an image), or a non-embed whose text is missing or
   * all whitespace.
   */
  lemma BlockEmptyIff(block: Block, entityMap: map<string, Option<Entity>>,
                      mediaEntities: Option<seq<MediaEntity>>)
    ensures BlockMarkdown(block, entityMap, mediaEntities) == "" <==>
      if IsEmbed(block) then
        var entity := EmbeddedEntity(block, entityMap);
        entity.None? || EntityMarkdown(entity.value, mediaEntities) == ""
      else AllWhitespace(block.text.GetOr(""))
  {
    TrimEmptyIff(block.text.GetOr(""));
  }

  /** A list item ends with exactly one newline, any other output with a blank line. */
  predicate Closed(out: string, listItem: bool) {
    if listItem then EndsWith(out, "\n") && !EndsWith(out, "\n\n") else EndsWith(out, "\n\n")
  }

  /** Headers start with one, two or three '#', list items with "- " or "1. ". */
  predicate Prefixed(out: string, blockType: string) {
    && (blockType == "header-one" ==> |out| >= 2 && out[..2] == "# ")
    && (blockType == "header-two" ==> |out| >= 3 && out[..3] == "## ")
    && (blockType == "header-three" ==> |out| >= 4 && out[..4] == "### ")
    && (blockType == "unordered-list-item" ==> |out| >= 2 && out[..2] == "- ")
    && (blockType == "ordered-list-item" ==> |out| >= 3 && out[..3] == "1. ")
  }

  /** An embed that renders something ends with a blank line. */
  lemma EntityShape(entity: Entity, mediaEntities: Option<seq<MediaEntity>>)
    ensures var out := EntityMarkdown(entity, mediaEntities);
      out != "" ==> Closed(out, false)
  {
  }

  /** Given styled text that does not end with a newline, the prefix and the ending of each block type. */
  lemma TextShape(blockType: string, styled: string)
    requires styled != "" && styled[|styled| - 1] != '\n'
    ensures Closed(TextMarkdown(blockType, styled), blockType == "unordered-list-item" || blockType == "ordered-list-item")
    ensures Prefixed(TextMarkdown(blockType, styled), blockType)
  {
    var out := TextMarkdown(blockType, styled);
    if blockType == "unordered-list-item" || blockType == "ordered-list-item" {
      assert out[|out| - 2] == styled[|styled| - 1];
    }
  }

  lemma EmbedShape(block: Block, entityMap: map<string, Option<Entity>>, mediaEntities: Option<seq<MediaEntity>>)
    requires IsEmbed(block)
    ensures var out := BlockMarkdown(block, entityMap, mediaEntities);
      out != "" ==> Closed(out, false)
  {
    var entity := EmbeddedEntity(block, entityMap);
    if entity.Some? {
      assert BlockMarkdown(block, entityMap, mediaEntities) == EntityMarkdown(entity.value, mediaEntities);
      EntityShape(entity.value, mediaEntities);
    }
  }

  lemma TextBlockShape(block: Block, entityMap: map<string, Option<Entity>>, mediaEntities: Option<seq<MediaEntity>>)
    requires !IsEmbed(block)
    ensures var out := BlockMarkdown(block, entityMap, mediaEntities);
      out != "" ==> Closed(out, IsListItem(block)) && Prefixed(out, block.blockType)
  {
    var text := Trim(block.text.GetOr(""));
    if text != "" {
      var styled := InlineStyled(text, block.inlineStyleRanges);
      assert BlockMarkdown(block, entityMap, mediaEntities) == TextMarkdown(block.blockType, styled);
      StyledEnds(text, block.inlineStyleRanges);
      TrimEnds(block.text.GetOr(""));
      TextShape(block.blockType, styled);
    }
  }

  /**
   * Headers get one, two or three '#', list items "- " or "1. ", and every other text block no
   * prefix. A list item ends with exactly one newline; every other non-empty output, embeds
   * included, ends with a blank line.
   */
  lemma BlockShape(block: Block, entityMap: map<string, Option<Entity>>,
                   mediaEntities: Option<seq<MediaEntity>>)
    ensures var out := BlockMarkdown(block, entityMap, mediaEntities);
      out != "" ==> Closed(out, !IsEmbed(block) && IsListItem(block))
    ensures var out := BlockMarkdown(block, entityMap, mediaEntities);
      !IsEmbed(block) && out != "" ==> Prefixed(out, block.blockType)
  {
    if IsEmbed(block) {
      EmbedShape(block, entityMap, mediaEntities);
    } else {
      TextBlockShape(block, entityMap, mediaEntities);
    }
  }

  /** Rendering a concatenation of blocks concatenates their renderings. */
  lemma {:induction false} RenderBlocksAppend(a: seq<Block>, b: seq<Block>, entityMap: map<string, Option<Entity>>,
                                              mediaEntities: Option<seq<MediaEntity>>)
    ensures RenderBlocks(a + b, entityMap, mediaEntities)
      == RenderBlocks(a, entityMap, mediaEntities) + RenderBlocks(b, entityMap, mediaEntities)
    decreases |b|
  {
    if b == [] {
      assert a + b == a;
    } else {
      var init := b[..|b| - 1];
      RenderBlocksAppend(a, init, entityMap, mediaEntities);
      assert (a + b)[..|a + b| - 1] == a + init;
      ConcatAssociative(RenderBlocks(a, entityMap, mediaEntities), RenderBlocks(init, entityMap, mediaEntities),
                        BlockMarkdown(b[|b| - 1], entityMap, mediaEntities));
    }
  }

  /** A block that is not an embed and has only whitespace may be removed without changing the output. */
  lemma BlankBlockInvisible(a: seq<Block>, blank: Block, b: seq<Block>, entityMap: map<string, Option<Entity>>,
                            mediaEntities: Option<seq<MediaEntity>>)
    requires !IsEmbed(blank) && AllWhitespace(blank.text.GetOr(""))
    ensures RenderBlocks(a + [blank] + b, entityMap, mediaEntities) == RenderBlocks(a + b, entityMap, mediaEntities)
  {
    var ra, rb := RenderBlocks(a, entityMap, mediaEntities), RenderBlocks(b, entityMap, mediaEntities);
    BlockEmptyIff(blank, entityMap, mediaEntities);
    assert RenderBlocks([blank], entityMap, mediaEntities) == "" by {
      assert [blank][..0] == [];
    }
    RenderBlocksAppend(a, [blank], entityMap, mediaEntities);
    assert ra + "" == ra;
    assert RenderBlocks(a + [blank], entityMap, mediaEntities) == ra;
    RenderBlocksAppend(a + [blank], b, entityMap, mediaEntities);
    RenderBlocksAppend(a, b, entityMap, mediaEntities);
  }

  lemma HeaderExample(entityMap: map<string, Option<Entity>>, mediaEntities: Option<seq<MediaEntity>>)
    ensures BlockMarkdown(Block("header-one", Some("Hi"), None, None), entityMap, mediaEntities) == "# Hi\n\n"
  {
    assert Trim("Hi") == "Hi" by { assert LeadingSpace("Hi") == 0; assert TrailingSpace("Hi") == 0; }
  }

  lemma ListItemExample(entityMap: map<string, Option<Entity>>, mediaEntities: Option<seq<MediaEntity>>)
    ensures BlockMarkdown(Block("unordered-list-item", Some(" x"), None, None), entityMap, mediaEntities) == "- x\n"
  {
    assert Trim(" x") == "x" by {
      assert LeadingSpace(" x"[1..]) == 0;
      assert " x"[1..] == "x";
      assert TrailingSpace("x") == 0;
    }
  }

  /** A header and a list item whose text carries a leading space. */
  lemma Example(entityMap: map<string, Option<Entity>>, mediaEntities: Option<seq<MediaEntity>>)
    ensures RenderBlocks([Block("header-one", Some("Hi"), None, None),
                          Block("unordered-list-item", Some(" x"), None, None)], entityMap, mediaEntities)
      == "# Hi\n\n- x\n"
  {
    var h := Block("header-one", Some("Hi"), None, None);
    var l := Block("unordered-list-item", Some(" x"), None, None);
    HeaderExample(entityMap, mediaEntities);
    ListItemExample(entityMap, mediaEntities);
    assert [h, l][..1] == [h];
    assert [h][..0] == [];
    assert RenderBlocks([h], entityMap, mediaEntities) == "" + "# Hi\n\n";
    assert RenderBlocks([h, l], entityMap, mediaEntities) == "# Hi\n\n" + "- x\n";
  }
}
