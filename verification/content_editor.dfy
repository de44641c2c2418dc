/**
 * The content editor's form state and its handlers.  The form is a plain
 * object (a partial content record) and so is its `metadata`; every handler
 * builds the next state from the previous one with object spreads.
 */
module ContentEditor {
  import opened Wrappers
  import opened Json
  import opened Models
  import opened Strings
  import opened Forms
  import Slug
  import CommaList
  import MetadataCodec
  import ContentCreateApi

  // ---------------------------------------------------------------------------
  // Defaults

  const DefaultSeo: JsonObject :=
    map["metaTitle" := JStr(""), "metaDescription" := JStr(""), "schemaType" := JStr("Article")]

  const DefaultGeo: JsonObject := map["region" := JStr(""), "placename" := JStr("")]

  const DefaultAeo: JsonObject := map["answerSnippet" := JStr("")]

  const DefaultMetadata: JsonObject :=
    map[
      "tags" := JArr([]), "categories" := JArr([]),
      "seo" := JObj(DefaultSeo), "geo" := JObj(DefaultGeo), "aeo" := JObj(DefaultAeo),
      "faq" := JArr([]), "steps" := JArr([]), "changelog" := JArr([])]

  /** The empty form; `platform` and `update_type` start out undefined. */
  const DefaultFormData: JsonObject :=
    map[
      "title" := JStr(""), "slug" := JStr(""), "content_type" := JStr("post"),
      "status" := JStr("draft"), "body" := JStr(""), "excerpt" := JStr(""),
      "featured_image" := JStr(""), "version" := JStr(""),
      "metadata" := JObj(DefaultMetadata)]

  /** The create-mode state: the defaults with the page's content type. */
  function InitialForm(defaultType: ContentType): (r: JsonObject)
    ensures r.Keys == DefaultFormData.Keys
    ensures r["content_type"] == JStr(TypeName(defaultType))
    ensures forall k :: k in r && k != "content_type" ==> r[k] == DefaultFormData[k]
  {
    DefaultFormData["content_type" := JStr(TypeName(defaultType))]
  }

  /** `{...prev.metadata}`: the metadata object, or nothing when it is not an object. */
  function Meta(form: JsonObject): JsonObject {
    Fields(Get(form, "metadata"))
  }

  // ---------------------------------------------------------------------------
  // Loading a record for editing

  /** One metadata section after the load: its defaults overlaid with the stored section. */
  function MergeSection(defaults: JsonObject, meta: JsonObject, section: string): (r: Json)
    ensures r.JObj? && r.fields.Keys == defaults.Keys + Fields(Get(meta, section)).Keys
    ensures forall f :: f in r.fields ==>
      r.fields[f] == if f in Fields(Get(meta, section)) then Fields(Get(meta, section))[f] else defaults[f]
  {
    JObj(defaults + Fields(Get(meta, section)))
  }

  /**
   * The metadata after the load: stored keys win over the defaults, and the
   * three sections are merged field by field.
   */
  function MergeMetadata(meta: JsonObject): (r: JsonObject)
    ensures r.Keys == DefaultMetadata.Keys + meta.Keys
    ensures forall k :: k in r && k !in {"seo", "geo", "aeo"} ==>
      r[k] == if k in meta then meta[k] else DefaultMetadata[k]
    ensures r["seo"] == MergeSection(DefaultSeo, meta, "seo")
    ensures r["geo"] == MergeSection(DefaultGeo, meta, "geo")
    ensures r["aeo"] == MergeSection(DefaultAeo, meta, "aeo")
  {
    (DefaultMetadata + meta)
      ["seo" := MergeSection(DefaultSeo, meta, "seo")]
      ["geo" := MergeSection(DefaultGeo, meta, "geo")]
      ["aeo" := MergeSection(DefaultAeo, meta, "aeo")]
  }

  /** The edit-mode state built from the fetched record `data`. */
  function LoadMerge(data: JsonObject): (r: JsonObject)
    ensures r.Keys == DefaultFormData.Keys + data.Keys
    ensures forall k :: k in data && k != "metadata" ==> r[k] == data[k]
    ensures forall k :: k !in data && k in DefaultFormData && k != "metadata" ==> r[k] == DefaultFormData[k]
    ensures r["metadata"] == JObj(MergeMetadata(Meta(data)))
  {
    (DefaultFormData + data)["metadata" := JObj(MergeMetadata(Meta(data)))]
  }

  /**
   * The merge leaves nothing undefined that the form reads: every default key
   * is present, and the metadata and each of its SEO, GEO and AEO sections are
   * objects holding at least their default keys.
   */
  lemma LoadComplete(data: JsonObject)
    ensures DefaultFormData.Keys <= LoadMerge(data).Keys
    ensures var m := Meta(LoadMerge(data));
      && DefaultMetadata.Keys <= m.Keys
      && m["seo"].JObj? && DefaultSeo.Keys <= m["seo"].fields.Keys
      && m["geo"].JObj? && DefaultGeo.Keys <= m["geo"].fields.Keys
      && m["aeo"].JObj? && DefaultAeo.Keys <= m["aeo"].fields.Keys
  {
  }

  /**
   * Stored values win over the defaults: every stored metadata key outside the
   * three sections is kept as stored, and so is every stored field inside them.
   */
  lemma LoadKeepsStoredMetadata(data: JsonObject, k: string, f: string)
    ensures var stored := Meta(data); var m := Meta(LoadMerge(data));
      && (k in stored && k != "seo" && k != "geo" && k != "aeo" ==> m[k] == stored[k])
      && (k in {"seo", "geo", "aeo"} && f in Fields(Get(stored, k)) ==>
            k in m && m[k].JObj? && f in m[k].fields && m[k].fields[f] == Fields(Get(stored, k))[f])
  {
  }

  /** A default metadata key outside the sections that the record does not store keeps its default value. */
  lemma LoadKeepsDefaults(data: JsonObject, k: string)
    ensures var m := Meta(LoadMerge(data));
      k in DefaultMetadata && k !in Meta(data) && k !in {"seo", "geo", "aeo"} ==> m[k] == DefaultMetadata[k]
  {
  }

  /** A default field of a section that the stored section lacks keeps its default value. */
  lemma LoadKeepsDefaultFields(data: JsonObject, f: string)
    ensures var stored := Meta(data); var m := MergeMetadata(stored);
      && (f in DefaultSeo && f !in Fields(Get(stored, "seo")) ==> m["seo"].fields[f] == DefaultSeo[f])
      && (f in DefaultGeo && f !in Fields(Get(stored, "geo")) ==> m["geo"].fields[f] == DefaultGeo[f])
      && (f in DefaultAeo && f !in Fields(Get(stored, "aeo")) ==> m["aeo"].fields[f] == DefaultAeo[f])
  {
  }

  lemma OverlayTwice(d: JsonObject, s: JsonObject)
    ensures d + (d + s) == d + s
  {
  }

  lemma MergeMetadataIdempotent(meta: JsonObject)
    ensures MergeMetadata(MergeMetadata(meta)) == MergeMetadata(meta)
  {
    var m := MergeMetadata(meta);
    assert DefaultMetadata + m == m;
    OverlayTwice(DefaultSeo, Fields(Get(meta, "seo")));
    OverlayTwice(DefaultGeo, Fields(Get(meta, "geo")));
    OverlayTwice(DefaultAeo, Fields(Get(meta, "aeo")));
    assert MergeSection(DefaultSeo, m, "seo") == m["seo"];
    assert MergeSection(DefaultGeo, m, "geo") == m["geo"];
    assert MergeSection(DefaultAeo, m, "aeo") == m["aeo"];
    assert (DefaultMetadata + m)["seo" := m["seo"]]["geo" := m["geo"]]["aeo" := m["aeo"]] == m;
  }

  /** Loading an already merged state changes nothing. */
  lemma LoadIdempotent(data: JsonObject)
    ensures LoadMerge(LoadMerge(data)) == LoadMerge(data)
  {
    var r := LoadMerge(data);
    MergeMetadataIdempotent(Meta(data));
    assert Meta(r) == MergeMetadata(Meta(data));
    assert DefaultFormData + r == r;
  }

  // ---------------------------------------------------------------------------
  // Metadata handlers

  /** `{...form, metadata: meta}`. */
  function WithMeta(form: JsonObject, meta: JsonObject): (r: JsonObject)
    ensures Meta(r) == meta
    ensures forall k :: k != "metadata" ==> Get(r, k) == Get(form, k)
  {
    form["metadata" := JObj(meta)]
  }

  /** `handleChange('metadata', {...formData.metadata, [key]: v})`, as the list and FAQ inputs call it. */
  function SetMetadataKey(form: JsonObject, key: string, v: Json): (r: JsonObject)
    ensures Get(Meta(r), key) == Some(v)
    ensures forall k :: k != key ==> Get(Meta(r), k) == Get(Meta(form), k)
    ensures forall k :: k != "metadata" ==> Get(r, k) == Get(form, k)
  {
    WithMeta(form, Meta(form)[key := v])
  }

  /** The section with one field set, `{...meta, [section]: {...meta[section], [field]: value}}`. */
  function SetField(meta: JsonObject, section: string, field: string, value: Json): JsonObject {
    meta[section := JObj(Fields(Get(meta, section))[field := value])]
  }

  /** `handleMetadataChange(section, field, value)`: one field of one metadata section. */
  function MetadataChange(form: JsonObject, section: string, field: string, value: Json): (r: JsonObject)
    ensures Get(Meta(r), section).Some? && Meta(r)[section].JObj?
    ensures Get(Meta(r)[section].fields, field) == Some(value)
  {
    WithMeta(form, SetField(Meta(form), section, field, value))
  }

  /**
   * Nothing else changes: the other top-level keys, the other metadata keys
   * and the other fields of the same section keep their values.
   */
  lemma MetadataChangeFrame(form: JsonObject, section: string, field: string, value: Json, k: string, f: string)
    ensures k != "metadata" ==> Get(MetadataChange(form, section, field, value), k) == Get(form, k)
    ensures k != section ==> Get(Meta(MetadataChange(form, section, field, value)), k) == Get(Meta(form), k)
    ensures f != field ==>
      Get(Fields(Get(Meta(MetadataChange(form, section, field, value)), section)), f)
        == Get(Fields(Get(Meta(form), section)), f)
  {
  }

  lemma WithMetaTwice(form: JsonObject, m1: JsonObject, m2: JsonObject)
    ensures WithMeta(WithMeta(form, m1), m2) == WithMeta(form, m2)
  {
  }

  lemma ChangeTwice(form: JsonObject, s1: string, f1: string, v1: Json, s2: string, f2: string, v2: Json)
    ensures MetadataChange(MetadataChange(form, s1, f1, v1), s2, f2, v2)
         == WithMeta(form, SetField(SetField(Meta(form), s1, f1, v1), s2, f2, v2))
  {
    WithMetaTwice(form, SetField(Meta(form), s1, f1, v1), SetField(SetField(Meta(form), s1, f1, v1), s2, f2, v2));
  }

  lemma SetFieldsCommute(meta: JsonObject, s1: string, f1: string, v1: Json, s2: string, f2: string, v2: Json)
    requires (s1, f1) != (s2, f2)
    ensures SetField(SetField(meta, s1, f1, v1), s2, f2, v2) == SetField(SetField(meta, s2, f2, v2), s1, f1, v1)
  {
    if s1 == s2 {
      var sec := Fields(Get(meta, s1));
      assert sec[f1 := v1][f2 := v2] == sec[f2 := v2][f1 := v1];
    } else {
      var m1 := SetField(meta, s1, f1, v1);
      var m2 := SetField(meta, s2, f2, v2);
      assert Fields(Get(m1, s2)) == Fields(Get(meta, s2));
      assert Fields(Get(m2, s1)) == Fields(Get(meta, s1));
    }
  }

  lemma SetFieldOverwrite(meta: JsonObject, s: string, f: string, v1: Json, v2: Json)
    ensures SetField(SetField(meta, s, f, v1), s, f, v2) == SetField(meta, s, f, v2)
  {
    var sec := Fields(Get(meta, s));
    assert sec[f := v1][f := v2] == sec[f := v2];
  }

  /** Edits to different fields commute, and a later edit of the same field wins. */
  lemma MetadataChangesCommute(form: JsonObject, s1: string, f1: string, v1: Json, s2: string, f2: string, v2: Json)
    ensures (s1, f1) != (s2, f2) ==>
      MetadataChange(MetadataChange(form, s1, f1, v1), s2, f2, v2)
        == MetadataChange(MetadataChange(form, s2, f2, v2), s1, f1, v1)
    ensures (s1, f1) == (s2, f2) ==>
      MetadataChange(MetadataChange(form, s1, f1, v1), s2, f2, v2) == MetadataChange(form, s2, f2, v2)
  {
    ChangeTwice(form, s1, f1, v1, s2, f2, v2);
    ChangeTwice(form, s2, f2, v2, s1, f1, v1);
    if (s1, f1) != (s2, f2) {
      SetFieldsCommute(Meta(form), s1, f1, v1, s2, f2, v2);
    } else {
      SetFieldOverwrite(Meta(form), s1, f1, v1, v2);
    }
  }

  /** `handleArrayMetadata(key, text)`: the key holds the list parsed from the text. */
  function ArrayMetadata(form: JsonObject, key: string, text: string): (r: JsonObject)
    ensures Get(Meta(r), key) == Some(StrList(CommaList.Parse(text)))
    ensures forall k :: k != key ==> Get(Meta(r), k) == Get(Meta(form), k)
    ensures forall k :: k != "metadata" ==> Get(r, k) == Get(form, k)
  {
    SetMetadataKey(form, key, StrList(CommaList.Parse(text)))
  }

  /**
   * Typing a list's display text stores exactly that list, and what is stored
   * reads back through the metadata codec as that list.
   */
  lemma ArrayMetadataRoundTrip(form: JsonObject, key: string, xs: seq<string>)
    requires CommaList.AllTokens(xs)
    ensures ArrayMetadata(form, key, CommaList.Display(xs)) == SetMetadataKey(form, key, StrList(xs))
    ensures MetadataCodec.DecStrs(Meta(ArrayMetadata(form, key, CommaList.Display(xs)))[key]) == Some(xs)
  {
    CommaList.RoundTrip(xs);
    MetadataCodec.StrsRoundTrip(xs, StrList(xs));
  }

  // ---------------------------------------------------------------------------
  // FAQ builder (shown for resources)

  /** `formData.metadata?.faq || []` for a FAQ list stored as an array. */
  function FaqItems(form: JsonObject): seq<Json> {
    match Get(Meta(form), "faq")
    case Some(JArr(items)) => items
    case _ => []
  }

  /** "Add FAQ": an empty question and answer appended at the end. */
  function AddFaq(form: JsonObject): (r: JsonObject)
    ensures FaqItems(r) == FaqItems(form) + [MetadataCodec.EncFaq(Faq("", ""))]
    ensures forall k :: k != "faq" ==> Get(Meta(r), k) == Get(Meta(form), k)
    ensures forall k :: k != "metadata" ==> Get(r, k) == Get(form, k)
  {
    SetMetadataKey(form, "faq", JArr(FaqItems(form) + [MetadataCodec.EncFaq(Faq("", ""))]))
  }

  /** `xs.filter((_, idx) => idx !== i)`. */
  function RemoveIndex<T>(xs: seq<T>, i: int): (r: seq<T>)
    requires 0 <= i < |xs|
    ensures |r| == |xs| - 1
    ensures forall j :: 0 <= j < i ==> r[j] == xs[j]
    ensures forall j :: i <= j < |r| ==> r[j] == xs[j + 1]
  {
    xs[..i] + xs[i + 1..]
  }

  /** The delete button of row `i`; it exists only for the rows the list renders. */
  function RemoveFaq(form: JsonObject, i: int): (r: JsonObject)
    requires 0 <= i < |FaqItems(form)|
    ensures FaqItems(r) == RemoveIndex(FaqItems(form), i)
    ensures forall k :: k != "faq" ==> Get(Meta(r), k) == Get(Meta(form), k)
    ensures forall k :: k != "metadata" ==> Get(r, k) == Get(form, k)
  {
    SetMetadataKey(form, "faq", JArr(RemoveIndex(FaqItems(form), i)))
  }

  /**
   * Typing into the question or answer box of row `i`.  Assigning a property
   * of a row that is not an object throws, and the state stays as it was.
   */
  function UpdateFaq(form: JsonObject, i: int, field: string, value: string): (r: JsonObject)
    requires 0 <= i < |FaqItems(form)|
    requires field == "question" || field == "answer"
    ensures |FaqItems(r)| == |FaqItems(form)|
    ensures forall j :: 0 <= j < |FaqItems(r)| && j != i ==> FaqItems(r)[j] == FaqItems(form)[j]
    ensures FaqItems(form)[i].JObj? ==>
      FaqItems(r)[i] == JObj(FaqItems(form)[i].fields[field := JStr(value)])
    ensures !FaqItems(form)[i].JObj? ==> r == form
    ensures forall k :: k != "faq" ==> Get(Meta(r), k) == Get(Meta(form), k)
    ensures forall k :: k != "metadata" ==> Get(r, k) == Get(form, k)
  {
    var items := FaqItems(form);
    if items[i].JObj? then
      SetMetadataKey(form, "faq", JArr(items[i := JObj(items[i].fields[field := JStr(value)])]))
    else form
  }

  /** Deleting the row just added gives the list back. */
  lemma RemoveUndoesAdd(form: JsonObject)
    ensures RemoveFaq(AddFaq(form), |FaqItems(form)|) == SetMetadataKey(form, "faq", JArr(FaqItems(form)))
  {
    var items := FaqItems(form);
    var added := AddFaq(form);
    assert RemoveIndex(items + [MetadataCodec.EncFaq(Faq("", ""))], |items|) == items;
    var meta := Meta(form)["faq" := JArr(items + [MetadataCodec.EncFaq(Faq("", ""))])];
    assert Meta(added) == meta;
    WithMetaTwice(form, meta, meta["faq" := JArr(items)]);
    assert meta["faq" := JArr(items)] == Meta(form)["faq" := JArr(items)];
  }

  /**
   * Through the metadata codec: adding appends an empty `Faq`, and editing a
   * well-formed row changes that one entry of the typed list.
   */
  lemma FaqEditsTyped(form: JsonObject, faqs: seq<Faq>, i: int, value: string)
    requires MetadataCodec.DecFaqs(JArr(FaqItems(form))) == Some(faqs)
    ensures MetadataCodec.DecFaqs(JArr(FaqItems(AddFaq(form)))) == Some(faqs + [Faq("", "")])
    ensures 0 <= i < |faqs| ==>
      MetadataCodec.DecFaqs(JArr(FaqItems(UpdateFaq(form, i, "question", value))))
        == Some(faqs[i := faqs[i].(question := value)])
    ensures 0 <= i < |faqs| ==>
      MetadataCodec.DecFaqs(JArr(FaqItems(UpdateFaq(form, i, "answer", value))))
        == Some(faqs[i := faqs[i].(answer := value)])
  {
    var items := FaqItems(form);
    var added := items + [MetadataCodec.EncFaq(Faq("", ""))];
    MetadataCodec.FaqRoundTrip(Faq("", ""), MetadataCodec.EncFaq(Faq("", "")));
    assert forall j :: 0 <= j < |added| ==> MetadataCodec.DecFaq(added[j]).Some?;
    assert MetadataCodec.DecFaqs(JArr(added)).value == faqs + [Faq("", "")];
    if 0 <= i < |faqs| {
      assert MetadataCodec.DecFaq(items[i]).Some?;
      UpdateFaqTyped(items, faqs, i, "question", value);
      UpdateFaqTyped(items, faqs, i, "answer", value);
    }
  }

  lemma UpdateFaqTyped(items: seq<Json>, faqs: seq<Faq>, i: int, field: string, value: string)
    requires MetadataCodec.DecFaqs(JArr(items)) == Some(faqs)
    requires 0 <= i < |items|
    requires field == "question" || field == "answer"
    ensures items[i].JObj?
    ensures MetadataCodec.DecFaqs(JArr(items[i := JObj(items[i].fields[field := JStr(value)])]))
         == Some(faqs[i := if field == "question" then faqs[i].(question := value) else faqs[i].(answer := value)])
  {
    assert MetadataCodec.DecFaq(items[i]).Some?;
    var updated := items[i := JObj(items[i].fields[field := JStr(value)])];
    assert items[i].fields.Keys == {"question", "answer"};
    assert updated[i].fields.Keys == {"question", "answer"};
    var expected := faqs[i := if field == "question" then faqs[i].(question := value) else faqs[i].(answer := value)];
    assert forall j :: 0 <= j < |items| ==> MetadataCodec.DecFaq(items[j]) == Some(faqs[j]);
    assert MetadataCodec.DecFaq(updated[i]) == Some(expected[i]);
    assert forall j :: 0 <= j < |updated| ==> MetadataCodec.DecFaq(updated[j]) == Some(expected[j]);
    assert MetadataCodec.DecFaqs(JArr(updated)).Some?;
    assert |MetadataCodec.DecFaqs(JArr(updated)).value| == |expected|;
    assert MetadataCodec.DecFaqs(JArr(updated)).value == expected;
  }

  // ---------------------------------------------------------------------------
  // Submitting

  /**
   * `formData.slug || formData.title?.toLowerCase().replace(...)`.  The outer
   * `None` is the TypeError thrown when the title is neither a string nor
   * nullish; `Some(None)` is an undefined slug.
   */
  function SlugValue(form: JsonObject): (r: Option<Option<Json>>)
    ensures Given(form, "slug") ==> r == Some(Some(form["slug"]))
    ensures !Given(form, "slug") && Get(form, "title").Some? && Get(form, "title").value.JStr? ==>
      r == Some(Some(JStr(Slug.Slugify(form["title"].s)))) && Slug.IsSlug(Slug.Slugify(form["title"].s))
    ensures !Given(form, "slug") && (Get(form, "title").None? || form["title"].JNull?) ==> r == Some(None)
    ensures r.None? <==>
      !Given(form, "slug") && "title" in form && !form["title"].JNull? && !form["title"].JStr?
  {
    if Given(form, "slug") then Some(Some(form["slug"]))
    else
      match Get(form, "title")
      case None => Some(None)
      case Some(JNull) => Some(None)
      case Some(JStr(t)) => Some(Some(JStr(Slug.Slugify(t))))
      case Some(_) => None
  }

  /**
   * The body `handleSubmit(status)` sends: the form with the button's status,
   * the slug and the signed-in user's id (undefined when signed out); `None`
   * when building it throws.
   */
  function SubmitPayload(form: JsonObject, submit: Submit, userId: Option<string>): (r: Option<JsonObject>)
    ensures r.Some? <==> SlugValue(form).Some?
    ensures r.Some? ==>
      && Get(r.value, "status") == Some(JStr(StatusText(submit)))
      && Get(r.value, "slug") == SlugValue(form).value
      && Get(r.value, "author_id") == OptStr(userId)
      && forall k :: k !in {"status", "slug", "author_id"} ==> Get(r.value, k) == Get(form, k)
  {
    var slug :- SlugValue(form);
    Some(Put(Put(form["status" := JStr(StatusText(submit))], "slug", slug), "author_id", OptStr(userId)))
  }

  /**
   * Posted to the create route, the payload's button decides the stamp: the
   * row gets `published_at` exactly when "Publish" was pressed.  The author
   * columns come from the route's own session, whatever `author_id` the
   * payload carries.
   */
  lemma SubmitThenCreate(form: JsonObject, submit: Submit, userId: Option<string>, user: ContentCreateApi.Actor, now: string)
    requires SubmitPayload(form, submit, userId).Some?
    ensures var row := ContentCreateApi.NewContent(SubmitPayload(form, submit, userId).value, user, now);
      && Get(row, "status") == Some(JStr(StatusText(submit)))
      && (Get(row, "published_at") == Some(JStr(now)) <==> submit == Publish)
      && Get(row, "author_id") == Some(JStr(user.id))
  {
    var p := SubmitPayload(form, submit, userId).value;
    assert Get(p, "status") == Some(JStr(StatusText(submit)));
    assert Get(p, "status") == Some(JStr("published")) <==> submit == Publish;
    ContentCreateApi.StatusAndAuthor(p, user, now);
  }

  /** The payload built from a fresh form: the form's type and the slug derived from its title. */
  lemma InitialFormPayload(t: ContentType, title: string, submit: Submit, userId: Option<string>)
    ensures var form := InitialForm(t)["title" := JStr(title)];
      && SubmitPayload(form, submit, userId).Some?
      && Get(SubmitPayload(form, submit, userId).value, "content_type") == Some(JStr(TypeName(t)))
      && Get(SubmitPayload(form, submit, userId).value, "slug") == Some(JStr(Slug.Slugify(title)))
  {
    var form := InitialForm(t)["title" := JStr(title)];
    assert form["slug"] == JStr("") && form["content_type"] == JStr(TypeName(t));
    assert !Given(form, "slug");
    assert SlugValue(form) == Some(Some(JStr(Slug.Slugify(title))));
  }

  /**
   * A new item of type `t` with title `title` and no slug is stored with
   * type `t` and the slug derived from its title.
   */
  lemma CreateFromInitialForm(t: ContentType, title: string, submit: Submit, userId: Option<string>,
                              user: ContentCreateApi.Actor, now: string)
    ensures var form := InitialForm(t)["title" := JStr(title)];
      && SubmitPayload(form, submit, userId).Some?
      && var row := ContentCreateApi.NewContent(SubmitPayload(form, submit, userId).value, user, now);
      && Get(row, "content_type") == Some(JStr(TypeName(t)))
      && Get(row, "slug") == Some(JStr(Slug.Slugify(title)))
  {
    InitialFormPayload(t, title, submit, userId);
    var p := SubmitPayload(InitialForm(t)["title" := JStr(title)], submit, userId).value;
    assert TypeName(t) != "";
    ContentCreateApi.SnakeTypeStored(p, user, now, TypeName(t));
    ContentCreateApi.CopiedColumn(p, user, now, "slug");
  }

  // ---------------------------------------------------------------------------
  // Where the editor goes afterwards

  /** The list page of each content type. */
  function ListPath(t: ContentType): string {
    match t
    case Post => "/admin/blog"
    case Update => "/admin/updates"
    case Resource => "/admin/resources"
    case Press => "/admin/press"
    case Feed => "/admin/feed"
  }

  /** `redirectMap[x] || '/admin/blog'` for a lower-cased type name `x`. */
  function RedirectFor(x: string): (r: string)
    ensures ParseType(x).Some? ==> r == ListPath(ParseType(x).value)
    ensures ParseType(x).None? ==> r == "/admin/blog"
  {
    match ParseType(x)
    case Some(t) => ListPath(t)
    case None => "/admin/blog"
  }

  /**
   * The path pushed after saving or on "back", from the form's content type;
   * `None` when `toLowerCase` is called on a value that is not a string.
   */
  function RedirectPath(ct: Option<Json>): (r: Option<string>)
    ensures r.Some? <==> ct.None? || ct.value.JNull? || ct.value.JStr?
    ensures ct.None? || ct.value.JNull? ==> r == Some("/admin/blog")
    ensures ct.Some? && ct.value.JStr? ==> r == Some(RedirectFor(Lower(ct.value.s)))
  {
    match ct
    case None => Some("/admin/blog")
    case Some(JNull) => Some("/admin/blog")
    case Some(JStr(s)) => Some(RedirectFor(Lower(s)))
    case Some(_) => None
  }

  lemma LowerIdempotent(s: string)
    ensures Lower(Lower(s)) == Lower(s)
  {
  }

  /**
   * Each type goes back to its own list whatever the letter case; anything
   * else, `social` included, lands on the blog list.
   */
  lemma RedirectByType(t: ContentType, s: string)
    ensures RedirectPath(Some(JStr(TypeName(t)))) == Some(ListPath(t))
    ensures RedirectPath(Some(JStr(s))) == RedirectPath(Some(JStr(Lower(s))))
    ensures ParseType(Lower(s)).None? ==> RedirectPath(Some(JStr(s))) == Some("/admin/blog")
    ensures RedirectPath(Some(JStr("social"))) == Some("/admin/blog")
  {
    LowerIdempotent(s);
    TypeNamesRoundTrip(t, "social");
    assert Lower(TypeName(t)) == TypeName(t);
    assert Lower("social") == "social";
  }
}
