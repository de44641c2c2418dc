/**
 * The "new repost" page: a social-media post archived with its platform,
 * an optional embed code or post URL and comma-separated tags, posted under
 * the type "social" with a timestamp-suffixed slug.
 */
module SocialPage {
  import opened Wrappers
  import opened Json
  import opened Models
  import opened Strings
  import opened Forms
  import Slug
  import CommaList
  import ContentCreateApi

  datatype PlatformOption = PlatformOption(value: string, caption: string)

  /** The platform picker, in display order. */
  const Platforms: seq<PlatformOption> := [
    PlatformOption("instagram", "Instagram"),
    PlatformOption("linkedin", "LinkedIn"),
    PlatformOption("youtube", "YouTube"),
    PlatformOption("twitter", "Twitter (X)"),
    PlatformOption("facebook", "Facebook"),
    PlatformOption("other", "Other")]

  datatype SocialForm = SocialForm(
    title: string,
    platform: string,
    embedCode: string,
    postUrl: string,
    description: string,
    tags: string)

  const DefaultSocialForm: SocialForm := SocialForm("", "instagram", "", "", "", "")

  /** The picker offers exactly the model's platforms, in order, and defaults to the first. */
  lemma PickerMatchesModel()
    ensures |Platforms| == |AllPlatforms|
    ensures forall i :: 0 <= i < |Platforms| ==> Platforms[i].value == PlatformName(AllPlatforms[i])
    ensures DefaultSocialForm.platform == Platforms[0].value == PlatformName(Instagram)
  {
  }

  /** The title's slug, a '-', and the clock reading in decimal. */
  function SocialSlug(title: string, now: nat): (r: string)
    ensures StartsWith(r, Slug.Slugify(title) + "-")
    ensures r[|Slug.Slugify(title)| + 1..] == NatToString(now)
  {
    Slug.Slugify(title) + "-" + NatToString(now)
  }

  /** Two reposts with the same title made at different instants get different slugs. */
  lemma SlugsDistinctInTime(title: string, t1: nat, t2: nat)
    ensures SocialSlug(title, t1) == SocialSlug(title, t2) <==> t1 == t2
  {
    if SocialSlug(title, t1) == SocialSlug(title, t2) {
      var k := |Slug.Slugify(title)| + 1;
      assert NatToString(t1) == SocialSlug(title, t1)[k..] == SocialSlug(title, t2)[k..] == NatToString(t2);
      assert t1 == DecimalValue(NatToString(t1)) == DecimalValue(NatToString(t2)) == t2;
    }
  }

  /** `x || undefined`: an empty text leaves the key out. */
  function NonEmpty(s: string): (r: Option<Json>)
    ensures r.Some? <==> s != []
    ensures r.Some? ==> r.value == JStr(s)
  {
    if s == [] then None else Some(JStr(s))
  }

  /** The keys the page always sends, given the slug and the metadata object. */
  function BaseWith(f: SocialForm, submit: Submit, slug: string, metadata: Json): JsonObject {
    map[
      "title" := JStr(f.title),
      "slug" := JStr(slug),
      "contentType" := JStr("social"),
      "status" := JStr(StatusText(submit)),
      "platform" := JStr(f.platform),
      "description" := JStr(f.description),
      "metadata" := metadata]
  }

  /** `{ tags: <parsed tags text> }`. */
  function TagsMetadata(f: SocialForm): Json {
    JObj(map["tags" := StrList(CommaList.Parse(f.tags))])
  }

  /** The body `handleSubmit(status)` posts when the clock reads `now`. */
  function SocialPayload(f: SocialForm, submit: Submit, now: nat): JsonObject {
    var base := BaseWith(f, submit, SocialSlug(f.title, now), TagsMetadata(f));
    Put(Put(base, "embedCode", NonEmpty(f.embedCode)), "postUrl", NonEmpty(f.postUrl))
  }

  lemma BaseKeys(f: SocialForm, submit: Submit, slug: string, metadata: Json)
    ensures var b := BaseWith(f, submit, slug, metadata);
      && Get(b, "content_type") == None
      && Get(b, "contentType") == Some(JStr("social"))
      && Get(b, "slug") == Some(JStr(slug))
      && Get(b, "platform") == Some(JStr(f.platform))
      && Get(b, "metadata") == Some(metadata)
  {
  }

  lemma PayloadKeys(f: SocialForm, submit: Submit, now: nat)
    ensures var p := SocialPayload(f, submit, now);
      && ("embedCode" in p <==> f.embedCode != [])
      && ("postUrl" in p <==> f.postUrl != [])
      && Get(p, "embedCode") == NonEmpty(f.embedCode)
      && Get(p, "postUrl") == NonEmpty(f.postUrl)
      && Get(p, "content_type") == None
      && Get(p, "contentType") == Some(JStr("social"))
      && Get(p, "slug") == Some(JStr(SocialSlug(f.title, now)))
      && Get(p, "platform") == Some(JStr(f.platform))
      && Get(p, "metadata") == Some(TagsMetadata(f))
  {
    var b := BaseWith(f, submit, SocialSlug(f.title, now), TagsMetadata(f));
    BaseKeys(f, submit, SocialSlug(f.title, now), TagsMetadata(f));
    var b1 := Put(b, "embedCode", NonEmpty(f.embedCode));
    var p := Put(b1, "postUrl", NonEmpty(f.postUrl));
    assert Get(p, "embedCode") == Get(b1, "embedCode") == NonEmpty(f.embedCode);
    assert Get(p, "content_type") == Get(b1, "content_type") == Get(b, "content_type");
    assert Get(p, "contentType") == Get(b1, "contentType") == Get(b, "contentType");
    assert Get(p, "slug") == Get(b1, "slug") == Get(b, "slug");
    assert Get(p, "platform") == Get(b1, "platform") == Get(b, "platform");
    assert Get(p, "metadata") == Get(b1, "metadata") == Get(b, "metadata");
  }

  /** The stored columns of any body carrying the repost keys. */
  lemma StoredColumns(p: JsonObject, user: ContentCreateApi.Actor, now: string, slug: string, platform: string, meta: Json)
    requires Get(p, "content_type") == None && Get(p, "contentType") == Some(JStr("social"))
    requires Get(p, "slug") == Some(JStr(slug)) && Get(p, "platform") == Some(JStr(platform))
    requires Get(p, "metadata") == Some(meta) && Truthy(meta)
    ensures var row := ContentCreateApi.NewContent(p, user, now);
      && Get(row, "content_type") == Some(JStr("social"))
      && Get(row, "slug") == Some(JStr(slug))
      && Get(row, "platform") == Some(JStr(platform))
      && Get(row, "metadata") == Some(meta)
  {
    ContentCreateApi.ComputedColumns(p, user, now);
    assert "slug" in ContentCreateApi.CopiedKeys && "platform" in ContentCreateApi.CopiedKeys;
  }

  /** The embed code, the post URL and the description have no column. */
  lemma LinksDropped(p: JsonObject, user: ContentCreateApi.Actor, now: string)
    ensures var row := ContentCreateApi.NewContent(p, user, now);
      "embedCode" !in row && "postUrl" !in row && "description" !in row
  {
    assert "embedCode" !in ContentCreateApi.RowKeys && "postUrl" !in ContentCreateApi.RowKeys;
    assert "description" !in ContentCreateApi.RowKeys;
  }

  /**
   * What the create route stores for a repost: the type "social", which is
   * not one of the model's content types, the slug, the platform and the
   * parsed tags; the embed code, the post URL and the description have no
   * column and are dropped.
   */
  lemma StoredRepost(f: SocialForm, submit: Submit, user: ContentCreateApi.Actor, now: string, clock: nat)
    ensures var row := ContentCreateApi.NewContent(SocialPayload(f, submit, clock), user, now);
      && Get(row, "content_type") == Some(JStr("social"))
      && ParseType("social") == None
      && Get(row, "slug") == Some(JStr(SocialSlug(f.title, clock)))
      && Get(row, "platform") == Some(JStr(f.platform))
      && Get(row, "metadata") == Some(TagsMetadata(f))
      && "embedCode" !in row && "postUrl" !in row && "description" !in row
  {
    PayloadKeys(f, submit, clock);
    StoredColumns(SocialPayload(f, submit, clock), user, now, SocialSlug(f.title, clock), f.platform,
                  TagsMetadata(f));
    LinksDropped(SocialPayload(f, submit, clock), user, now);
    TypeNamesRoundTrip(Post, "social");
  }

  /** A title ending in punctuation leaves two hyphens in a row before the timestamp. */
  lemma TrailingPunctuationDoublesHyphen()
    ensures SocialSlug("Hi!", 5) == "hi--5"
    ensures !Slug.IsSlug(SocialSlug("Hi!", 5))
  {
    assert Lower("Hi!") == "hi!";
    assert Slug.Slugify("Hi!") == "hi-";
    assert NatToString(5) == "5";
    var r := SocialSlug("Hi!", 5);
    assert r[2] == '-' && r[3] == '-';
  }
}
