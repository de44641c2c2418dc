/**
 * The "new platform update" page: a release note with a version, an update
 * type and an impact level, posted with a slug built from the version and the
 * title.
 */
module UpdatePage {
  import opened Wrappers
  import opened Json
  import opened Models
  import opened Strings
  import opened Forms
  import Slug
  import ContentCreateApi

  datatype UpdateForm = UpdateForm(
    title: string,
    version: string,
    updateType: string,
    impactLevel: string,
    summary: string,
    body: string)

  /** The empty form: a minor feature. */
  const DefaultUpdateForm: UpdateForm := UpdateForm("", "", "feature", "minor", "", "")

  lemma DefaultIsMinorFeature()
    ensures DefaultUpdateForm.updateType == UpdateTypeName(Feature)
    ensures DefaultUpdateForm.impactLevel == "minor"
  {
  }

  /** `` `v${version}-${title}` `` lower-cased with runs of other characters collapsed to '-'. */
  function UpdateSlug(f: UpdateForm): (r: string)
    ensures r == Slug.Slugify("v" + f.version + "-" + f.title)
    ensures Slug.IsSlug(r)
    ensures r != [] && r[0] == 'v'
  {
    var s := "v" + f.version + "-" + f.title;
    assert Lower(s)[0] == 'v';
    Slug.CollapseKeepsFirst(Lower(s));
    Slug.Slugify(s)
  }

  /** Lower-casing the slug template lower-cases the version and the title in place. */
  lemma LowerTemplate(v: string, t: string)
    ensures Lower("v" + v + "-" + t) == "v" + Lower(v) + "-" + Lower(t)
  {
    LowerAppend("v" + v + "-", t);
    LowerAppend("v" + v, "-");
    LowerAppend("v", v);
  }

  /** The letters and digits of the template are 'v', then those of `a`, then those of `b`. */
  lemma AlnumsTemplate(a: string, b: string)
    ensures Slug.Alnums("v" + a + "-" + b) == "v" + Slug.Alnums(a) + Slug.Alnums(b)
  {
    Slug.AlnumsAppend("v" + a + "-", b);
    Slug.AlnumsAppend("v" + a, "-");
    Slug.AlnumsAppend("v", a);
  }

  /** The letters and digits of the slug are 'v', then the version's, then the title's. */
  lemma UpdateSlugAlnums(f: UpdateForm)
    ensures Slug.Alnums(UpdateSlug(f)) == "v" + Slug.Alnums(Lower(f.version)) + Slug.Alnums(Lower(f.title))
  {
    LowerTemplate(f.version, f.title);
    AlnumsTemplate(Lower(f.version), Lower(f.title));
  }

  /** The body `handleSubmit(status)` posts, given its slug. */
  function UpdateBody(f: UpdateForm, submit: Submit, slug: string): JsonObject {
    map[
      "title" := JStr(f.title),
      "slug" := JStr(slug),
      "contentType" := JStr("update"),
      "status" := JStr(StatusText(submit)),
      "version" := JStr(f.version),
      "updateType" := JStr(f.updateType),
      "impactLevel" := JStr(f.impactLevel),
      "summary" := JStr(f.summary),
      "body" := JStr(f.body),
      "metadata" := JObj(map[])]
  }

  /** The body `handleSubmit(status)` posts. */
  function UpdatePayload(f: UpdateForm, submit: Submit): JsonObject {
    UpdateBody(f, submit, UpdateSlug(f))
  }

  lemma BodyKeys(f: UpdateForm, submit: Submit, slug: string)
    ensures var p := UpdateBody(f, submit, slug);
      && Get(p, "update_type") == None
      && Get(p, "content_type") == None
      && Get(p, "contentType") == Some(JStr("update"))
      && Get(p, "slug") == Some(JStr(slug))
      && Get(p, "version") == Some(JStr(f.version))
      && Get(p, "metadata") == Some(JObj(map[]))
  {
  }

  lemma PayloadKeys(f: UpdateForm, submit: Submit)
    ensures var p := UpdatePayload(f, submit);
      && Get(p, "update_type") == None
      && Get(p, "content_type") == None
      && Get(p, "contentType") == Some(JStr("update"))
      && Get(p, "slug") == Some(JStr(UpdateSlug(f)))
      && Get(p, "version") == Some(JStr(f.version))
      && Get(p, "metadata") == Some(JObj(map[]))
  {
    BodyKeys(f, submit, UpdateSlug(f));
  }

  /**
   * As written, the page sends `updateType` while the route reads
   * `update_type`: the chosen type never reaches the row.  The type, slug,
   * version and an empty metadata object do.
   */
  lemma UpdateTypeDropped(f: UpdateForm, submit: Submit, user: ContentCreateApi.Actor, now: string)
    ensures var row := ContentCreateApi.NewContent(UpdatePayload(f, submit), user, now);
      && Get(row, "update_type") == None
      && Get(row, "content_type") == Some(JStr("update"))
      && Get(row, "slug") == Some(JStr(UpdateSlug(f)))
      && Get(row, "version") == Some(JStr(f.version))
      && Get(row, "metadata") == Some(JObj(map[]))
  {
    var p := UpdatePayload(f, submit);
    PayloadKeys(f, submit);
    ContentCreateApi.CopiedColumn(p, user, now, "update_type");
    ContentCreateApi.CopiedColumn(p, user, now, "slug");
    ContentCreateApi.CopiedColumn(p, user, now, "version");
    ContentCreateApi.CamelTypeStored(p, user, now, "update");
    ContentCreateApi.MetadataStored(p, user, now, JObj(map[]));
  }

  /** The impact level and the summary have no column and are dropped as well. */
  lemma ImpactAndSummaryDropped(f: UpdateForm, submit: Submit, user: ContentCreateApi.Actor, now: string)
    ensures "impactLevel" !in ContentCreateApi.NewContent(UpdatePayload(f, submit), user, now)
    ensures "summary" !in ContentCreateApi.NewContent(UpdatePayload(f, submit), user, now)
  {
    assert "impactLevel" !in ContentCreateApi.RowKeys && "summary" !in ContentCreateApi.RowKeys;
  }

  /** The payload with the update type under the key the route reads. */
  function UpdatePayloadCorrected(f: UpdateForm, submit: Submit): JsonObject {
    (UpdatePayload(f, submit) - {"updateType"})["update_type" := JStr(f.updateType)]
  }

  /** Corrected, the chosen update type is stored. */
  lemma UpdateTypeStored(f: UpdateForm, submit: Submit, user: ContentCreateApi.Actor, now: string)
    ensures var row := ContentCreateApi.NewContent(UpdatePayloadCorrected(f, submit), user, now);
      && Get(row, "update_type") == Some(JStr(f.updateType))
      && Get(row, "content_type") == Some(JStr("update"))
  {
    var p := UpdatePayloadCorrected(f, submit);
    PayloadKeys(f, submit);
    ContentCreateApi.CopiedColumn(p, user, now, "update_type");
    ContentCreateApi.CamelTypeStored(p, user, now, "update");
  }
}
