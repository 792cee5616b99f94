/**
 * The entity helpers of the article converter (x-to-markdown/scripts/parse-tweet.js):
 * `buildEntityMap` (lines 27-34), which indexes the article's entities by their stringified key,
 * later entries overwriting earlier ones, and `resolveMedia` (lines 36-44), which turns a MEDIA
 * entity into an image link or a placeholder.
 */
module Entities {
  import opened Options
  import opened Ascii

  /** A key or id from the JSON input: a number or a string. */
  datatype JsonId = Num(n: int) | Str(s: string)

  /** `String(id)`: numbers in decimal, strings as they are. */
  function IdString(id: JsonId): string {
    match id
    case Num(n) => IntToString(n)
    case Str(s) => s
  }

  datatype MediaItem = MediaItem(mediaId: JsonId)

  /**
   * The `data` of an entity: the fields the converter reads. A missing `markdown` or `tweetId` is
   * `None`; a missing `mediaItems` array is `None`.
   */
  datatype EntityData = EntityData(markdown: Option<string>, tweetId: Option<string>, mediaItems: Option<seq<MediaItem>>)

  datatype Entity = Entity(entityType: string, data: EntityData)

  /** An element of `content.entityMap`; a `null` value is `None`. */
  datatype EntityEntry = EntityEntry(key: JsonId, value: Option<Entity>)

  /** An element of `media_entities`; `originalImgUrl` is `media_info.original_img_url`. */
  datatype MediaEntity = MediaEntity(mediaId: JsonId, originalImgUrl: Option<string>)

  // ---------------------------------------------------------------- buildEntityMap

  /** The object the loop builds from the first entries: each key set in turn. */
  function EntityMapOf(entries: seq<EntityEntry>): (m: map<string, Option<Entity>>)
    ensures |m| <= |entries|
    ensures entries != [] ==> IdString(entries[|entries| - 1].key) in m
  {
    if entries == [] then map[]
    else
      var last := entries[|entries| - 1];
      EntityMapOf(entries[..|entries| - 1])[IdString(last.key) := last.value]
  }

  /** `buildEntityMap(entityMapArray)`; `None` stands for a missing array. */
  method BuildEntityMap(entityMapArray: Option<seq<EntityEntry>>) returns (m: map<string, Option<Entity>>)
    ensures m == EntityMapOf(entityMapArray.GetOr([]))
  {
    m := map[];
    if entityMapArray.None? {
      return;
    }
    var entries := entityMapArray.value;
    for i := 0 to |entries|
      invariant m == EntityMapOf(entries[..i])
    {
      var e := entries[i];
      assert entries[..i + 1][..i] == entries[..i];
      m := m[IdString(e.key) := e.value];
    }
    assert entries[..|entries|] == entries;
  }

  /** The keys are exactly the stringified keys of the entries. */
  lemma {:induction false} EntityMapKeys(entries: seq<EntityEntry>, k: string)
    ensures k in EntityMapOf(entries) <==> exists i :: 0 <= i < |entries| && IdString(entries[i].key) == k
  {
    if entries != [] {
      var init := entries[..|entries| - 1];
      EntityMapKeys(init, k);
      if exists i :: 0 <= i < |init| && IdString(init[i].key) == k {
        var i :| 0 <= i < |init| && IdString(init[i].key) == k;
        assert entries[i] == init[i];
      }
      if exists i :: 0 <= i < |entries| && IdString(entries[i].key) == k {
        var i :| 0 <= i < |entries| && IdString(entries[i].key) == k;
        if i < |init| { assert init[i] == entries[i]; }
      }
    }
  }

  /** For a key given by several entries, the value of the last of them wins. */
  lemma {:induction false} LastEntryWins(entries: seq<EntityEntry>, i: nat)
    requires i < |entries|
    requires forall j :: i < j < |entries| ==> IdString(entries[j].key) != IdString(entries[i].key)
    ensures IdString(entries[i].key) in EntityMapOf(entries)
    ensures EntityMapOf(entries)[IdString(entries[i].key)] == entries[i].value
  {
    if i < |entries| - 1 {
      var init := entries[..|entries| - 1];
      assert init[i] == entries[i];
      LastEntryWins(init, i);
    }
  }

  /** A number key and its decimal string are the same key: the later entry replaces the earlier. */
  lemma NumberAndStringKeysCollide(a: Option<Entity>, b: Option<Entity>)
    ensures EntityMapOf([EntityEntry(Num(12), a), EntityEntry(Str("12"), b)]) == map["12" := b]
  {
    var first := EntityEntry(Num(12), a);
    assert IdString(first.key) == "12" by { assert NatToString(12) == "12"; }
    assert [first][..0] == [];
    assert EntityMapOf([first]) == map["12" := a];
    assert [first, EntityEntry(Str("12"), b)][..1] == [first];
  }

  // ---------------------------------------------------------------- resolveMedia

  /** Index of the first media entity whose stringified id is `id` (`Array.prototype.find`). */
  function FindMedia(mediaEntities: seq<MediaEntity>, id: string): (r: Option<nat>)
    ensures r.Some? ==> r.value < |mediaEntities| && IdString(mediaEntities[r.value].mediaId) == id
    ensures r.Some? ==> forall j :: 0 <= j < r.value ==> IdString(mediaEntities[j].mediaId) != id
    ensures r.None? ==> forall j :: 0 <= j < |mediaEntities| ==> IdString(mediaEntities[j].mediaId) != id
  {
    if mediaEntities == [] then None
    else if IdString(mediaEntities[0].mediaId) == id then Some(0)
    else
      var r := FindMedia(mediaEntities[1..], id);
      if r.Some? then Some(r.value + 1) else None
  }

  /** A JavaScript string value is truthy when it is present and not empty. */
  predicate Truthy(s: Option<string>) { s.Some? && s.value != "" }

  /** `resolveMedia(entity, mediaEntities)`; `None` is `null`, and a missing list is `None`. */
  function ResolveMedia(entity: Entity, mediaEntities: Option<seq<MediaEntity>>): (r: Option<string>)
    ensures r.Some? ==> r.value != ""
  {
    var items := entity.data.mediaItems;
    if items.None? || |items.value| == 0 then None
    else
      var mediaId := IdString(items.value[0].mediaId);
      var candidates := mediaEntities.GetOr([]);
      var matched := FindMedia(candidates, mediaId);
      if matched.Some? && Truthy(candidates[matched.value].originalImgUrl) then
        Some("![image](" + candidates[matched.value].originalImgUrl.value + ")")
      else
        Some("[Image: media_id " + mediaId + "]")
  }

  /** The image link for a URL, and the placeholder for a media id. */
  function ImageLink(url: string): string { "![image](" + url + ")" }
  function Placeholder(mediaId: string): string { "[Image: media_id " + mediaId + "]" }

  /**
   * `null` exactly when there are no media items. Otherwise only the first item counts: its
   * stringified id is looked up, and the result is the image link of the first media entity with
   * that id when it has a non-empty URL, else the placeholder naming the id.
   */
  lemma ResolveMediaSpec(entity: Entity, mediaEntities: Option<seq<MediaEntity>>)
    ensures var items := entity.data.mediaItems;
      ResolveMedia(entity, mediaEntities).None? <==> items.None? || |items.value| == 0
    ensures var items := entity.data.mediaItems;
      items.Some? && |items.value| > 0 ==>
        var id := IdString(items.value[0].mediaId);
        var candidates := mediaEntities.GetOr([]);
        && ((exists i :: 0 <= i < |candidates| && IdString(candidates[i].mediaId) == id
               && Truthy(candidates[i].originalImgUrl)
               && (forall j :: 0 <= j < i ==> IdString(candidates[j].mediaId) != id)
               && ResolveMedia(entity, mediaEntities) == Some(ImageLink(candidates[i].originalImgUrl.value)))
            || ResolveMedia(entity, mediaEntities) == Some(Placeholder(id)))
        && (ResolveMedia(entity, mediaEntities) == Some(Placeholder(id)) <==>
              forall i :: 0 <= i < |candidates| && IdString(candidates[i].mediaId) == id
                && (forall j :: 0 <= j < i ==> IdString(candidates[j].mediaId) != id)
                ==> !Truthy(candidates[i].originalImgUrl))
  {
    var items := entity.data.mediaItems;
    if items.Some? && |items.value| > 0 {
      var id := IdString(items.value[0].mediaId);
      var candidates := mediaEntities.GetOr([]);
      var matched := FindMedia(candidates, id);
      if matched.Some? && Truthy(candidates[matched.value].originalImgUrl) {
        var url := candidates[matched.value].originalImgUrl.value;
        assert ImageLink(url)[0] == '!' && Placeholder(id)[0] == '[';
      } else if matched.Some? {
        forall i | 0 <= i < |candidates| && IdString(candidates[i].mediaId) == id
            && (forall j :: 0 <= j < i ==> IdString(candidates[j].mediaId) != id)
          ensures !Truthy(candidates[i].originalImgUrl)
        {
          assert i == matched.value;
        }
      }
    }
  }

  /** Media items after the first are never looked at. */
  lemma OnlyFirstItemCounts(entity: Entity, mediaEntities: Option<seq<MediaEntity>>, more: seq<MediaItem>)
    requires entity.data.mediaItems.Some? && |entity.data.mediaItems.value| > 0
    ensures var first := entity.data.mediaItems.value[0];
      ResolveMedia(entity.(data := entity.data.(mediaItems := Some([first] + more))), mediaEntities)
        == ResolveMedia(entity, mediaEntities)
  {
  }

  /** A numeric media id matches a media entity whose id is the same number written as a string. */
  lemma NumericIdMatchesString(url: string)
    requires url != ""
    ensures ResolveMedia(Entity("MEDIA", EntityData(None, None, Some([MediaItem(Num(7))]))),
                         Some([MediaEntity(Str("7"), Some(url))]))
      == Some(ImageLink(url))
  {
    assert NatToString(7) == "7";
  }
}
