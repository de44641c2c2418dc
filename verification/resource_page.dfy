/**
 * The "new resource" page: a form with a list of attachment rows, and the body
 * it posts to the create route.
 */
module ResourcePage {
  import opened Wrappers
  import opened Json
  import opened Seqs
  import opened Forms
  import Slug
  import CommaList
  import ContentCreateApi
  import ContentEditor

  datatype Attachment = Attachment(name: string, url: string)

  datatype AttachmentField = Name | Url

  datatype ResourceForm = ResourceForm(
    title: string,
    slug: string,
    summary: string,
    body: string,
    version: string,
    parentId: string,
    categories: string,
    attachments: seq<Attachment>)

  const EmptyForm: ResourceForm := ResourceForm("", "", "", "", "", "", "", [])

  /** "Add Attachment": an empty row at the end. */
  function AddAttachment(f: ResourceForm): (r: ResourceForm)
    ensures r.attachments == f.attachments + [Attachment("", "")]
    ensures r.(attachments := f.attachments) == f
  {
    f.(attachments := f.attachments + [Attachment("", "")])
  }

  /**
   * `splice(index, 1)` on a copy: a negative index counts from the end, and an
   * index past the end removes nothing.
   */
  function Splice1<T>(xs: seq<T>, index: int): (r: seq<T>)
    ensures 0 <= index < |xs| ==> r == ContentEditor.RemoveIndex(xs, index)
    ensures -|xs| <= index < 0 ==> r == ContentEditor.RemoveIndex(xs, |xs| + index)
    ensures index >= |xs| ==> r == xs
    ensures index < -|xs| && xs != [] ==> r == xs[1..]
  {
    var start := if index < 0 then Max(|xs| + index, 0) else Min(index, |xs|);
    if start < |xs| then xs[..start] + xs[start + 1..] else xs
  }

  /** The remove button of row `index`. */
  function RemoveAttachment(f: ResourceForm, index: int): (r: ResourceForm)
    ensures r.attachments == Splice1(f.attachments, index)
    ensures r.(attachments := f.attachments) == f
  {
    f.(attachments := Splice1(f.attachments, index))
  }

  /** Typing into the name or URL box of row `index`; the other field and rows are kept. */
  function UpdateAttachment(f: ResourceForm, index: int, field: AttachmentField, value: string): (r: ResourceForm)
    requires 0 <= index < |f.attachments|
    ensures |r.attachments| == |f.attachments|
    ensures forall j :: 0 <= j < |f.attachments| && j != index ==> r.attachments[j] == f.attachments[j]
    ensures field == Name ==> r.attachments[index] == f.attachments[index].(name := value)
    ensures field == Url ==> r.attachments[index] == f.attachments[index].(url := value)
    ensures r.(attachments := f.attachments) == f
  {
    var a := f.attachments[index];
    f.(attachments := f.attachments[index := if field == Name then a.(name := value) else a.(url := value)])
  }

  /** Removing the row just added gives the form back. */
  lemma RemoveUndoesAdd(f: ResourceForm)
    ensures RemoveAttachment(AddAttachment(f), |f.attachments|) == f
    ensures RemoveAttachment(AddAttachment(f), -1) == f
  {
    assert (f.attachments + [Attachment("", "")])[..|f.attachments|] == f.attachments;
  }

  predicate HasUrl(a: Attachment) {
    a.url != ""
  }

  function EncAttachment(a: Attachment): Json {
    JObj(map["name" := JStr(a.name), "url" := JStr(a.url), "type" := JStr("file")])
  }

  function EncAttachments(xs: seq<Attachment>): (r: Json)
    ensures r.JArr? && |r.items| == |xs|
    ensures forall i :: 0 <= i < |xs| ==> r.items[i] == EncAttachment(xs[i])
  {
    JArr(seq(|xs|, i requires 0 <= i < |xs| => EncAttachment(xs[i])))
  }

  /** `formData.parentId || null`. */
  function ParentValue(f: ResourceForm): Json {
    if f.parentId != "" then JStr(f.parentId) else JNull
  }

  /** The slug the page sends: the typed one, or the one derived from the title. */
  function ResourceSlug(f: ResourceForm): (r: string)
    ensures f.slug != "" ==> r == f.slug
    ensures f.slug == "" ==> r == Slug.Slugify(f.title) && Slug.IsSlug(r)
  {
    if f.slug != "" then f.slug else Slug.Slugify(f.title)
  }

  /** The body `handleSubmit(status)` posts, given the encoded attachment list and metadata. */
  function PayloadWith(f: ResourceForm, submit: Submit, attachments: Json, metadata: Json): JsonObject {
    map[
      "title" := JStr(f.title),
      "slug" := JStr(ResourceSlug(f)),
      "summary" := JStr(f.summary),
      "body" := JStr(f.body),
      "status" := JStr(StatusText(submit)),
      "contentType" := JStr("resource"),
      "version" := JStr(f.version),
      "parentId" := ParentValue(f),
      "attachments" := attachments,
      "metadata" := metadata]
  }

  /** The body `handleSubmit(status)` posts: rows with a URL, and the parsed categories. */
  function ResourcePayload(f: ResourceForm, submit: Submit): JsonObject {
    PayloadWith(f, submit, EncAttachments(Filter(f.attachments, HasUrl)), CategoriesMetadata(f))
  }

  /** The metadata object: the categories text as its parsed list. */
  function CategoriesMetadata(f: ResourceForm): Json {
    JObj(map["categories" := StrList(CommaList.Parse(f.categories))])
  }

  /**
   * Only attachment rows with a URL are sent, each as often as it appears in
   * the form; the categories text is sent as its parsed list.
   */
  lemma PayloadAttachmentsAndCategories(f: ResourceForm, submit: Submit)
    ensures var p := ResourcePayload(f, submit);
      && p["attachments"] == EncAttachments(Filter(f.attachments, HasUrl))
      && (forall a :: multiset(Filter(f.attachments, HasUrl))[a] == if a.url != "" then multiset(f.attachments)[a] else 0)
      && p["metadata"] == CategoriesMetadata(f)
      && CommaList.AllTokens(CommaList.Parse(f.categories))
  {
  }

  /** What the payload holds under the keys the route reads. */
  lemma PayloadWithKeys(f: ResourceForm, submit: Submit, attachments: Json, metadata: Json)
    ensures var p := PayloadWith(f, submit, attachments, metadata);
      && Get(p, "parent_id") == None
      && Get(p, "content_type") == None
      && Get(p, "contentType") == Some(JStr("resource"))
      && Get(p, "slug") == Some(JStr(ResourceSlug(f)))
      && Get(p, "version") == Some(JStr(f.version))
      && Get(p, "metadata") == Some(metadata)
  {
  }

  lemma PayloadKeys(f: ResourceForm, submit: Submit)
    ensures var p := ResourcePayload(f, submit);
      && Get(p, "parent_id") == None
      && Get(p, "content_type") == None
      && Get(p, "contentType") == Some(JStr("resource"))
      && Get(p, "slug") == Some(JStr(ResourceSlug(f)))
      && Get(p, "version") == Some(JStr(f.version))
      && Get(p, "metadata") == Some(CategoriesMetadata(f))
  {
    PayloadWithKeys(f, submit, EncAttachments(Filter(f.attachments, HasUrl)), CategoriesMetadata(f));
  }

  /**
   * As written, the page sends the chosen parent as `parentId` while the route
   * reads `parent_id`: whatever parent is picked, the stored row has none.
   * The type, slug, version and categories do arrive.
   */
  lemma ParentIdDropped(f: ResourceForm, submit: Submit, user: ContentCreateApi.Actor, now: string)
    ensures var row := ContentCreateApi.NewContent(ResourcePayload(f, submit), user, now);
      && Get(row, "parent_id") == None
      && Get(row, "content_type") == Some(JStr("resource"))
      && Get(row, "slug") == Some(JStr(ResourceSlug(f)))
      && Get(row, "version") == Some(JStr(f.version))
      && Get(row, "metadata") == Some(CategoriesMetadata(f))
  {
    var p := ResourcePayload(f, submit);
    PayloadKeys(f, submit);
    ContentCreateApi.CopiedColumn(p, user, now, "parent_id");
    ContentCreateApi.CopiedColumn(p, user, now, "slug");
    ContentCreateApi.CopiedColumn(p, user, now, "version");
    ContentCreateApi.CamelTypeStored(p, user, now, "resource");
    ContentCreateApi.MetadataStored(p, user, now, CategoriesMetadata(f));
  }

  /** The summary and the attachments have no column, so the route drops them too. */
  lemma SummaryAndAttachmentsDropped(f: ResourceForm, submit: Submit, user: ContentCreateApi.Actor, now: string)
    ensures "summary" !in ContentCreateApi.NewContent(ResourcePayload(f, submit), user, now)
    ensures "attachments" !in ContentCreateApi.NewContent(ResourcePayload(f, submit), user, now)
  {
    assert "summary" !in ContentCreateApi.RowKeys && "attachments" !in ContentCreateApi.RowKeys;
  }

  /** The payload with the parent under the key the route reads. */
  function ResourcePayloadCorrected(f: ResourceForm, submit: Submit): JsonObject {
    (ResourcePayload(f, submit) - {"parentId"})["parent_id" := ParentValue(f)]
  }

  /** Corrected, the chosen parent is stored (and no parent is stored as null). */
  lemma ParentIdStored(f: ResourceForm, submit: Submit, user: ContentCreateApi.Actor, now: string)
    ensures var row := ContentCreateApi.NewContent(ResourcePayloadCorrected(f, submit), user, now);
      && Get(row, "parent_id") == Some(ParentValue(f))
      && (f.parentId != "" ==> Get(row, "parent_id") == Some(JStr(f.parentId)))
      && Get(row, "content_type") == Some(JStr("resource"))
  {
    var p := ResourcePayloadCorrected(f, submit);
    PayloadKeys(f, submit);
    ContentCreateApi.CopiedColumn(p, user, now, "parent_id");
    ContentCreateApi.CamelTypeStored(p, user, now, "resource");
  }
}
