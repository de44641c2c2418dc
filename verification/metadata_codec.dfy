/**
 * The metadata bag is an open JSON object: a handful of keys have a declared
 * shape and any other key may sit beside them.  This module reads such an
 * object as a typed `Metadata` (the declared keys as fields, every other key
 * in `extra`) and writes it back, and proves that the two readings describe
 * the same objects.
 */
module MetadataCodec {
  import opened Wrappers
  import opened Json
  import opened Models

  // ---------------------------------------------------------------------------
  // Leaf shapes

  function DecStr(j: Json): Option<string> {
    if j.JStr? then Some(j.s) else None
  }

  function DecInt(j: Json): Option<int> {
    if j.JNum? then Some(j.n) else None
  }

  function DecStrs(j: Json): Option<seq<string>> {
    if j.JArr? && forall i :: 0 <= i < |j.items| ==> j.items[i].JStr? then
      Some(seq(|j.items|, i requires 0 <= i < |j.items| && j.items[i].JStr? => j.items[i].s))
    else None
  }

  function DecSchema(j: Json): Option<SchemaType> {
    if j.JStr? then ParseSchemaType(j.s) else None
  }

  function EncSchema(t: SchemaType): Json {
    JStr(SchemaTypeName(t))
  }

  function EncFaq(f: Faq): Json {
    JObj(map["question" := JStr(f.question), "answer" := JStr(f.answer)])
  }

  function DecFaq(j: Json): Option<Faq> {
    if j.JObj? && j.fields.Keys == {"question", "answer"}
       && j.fields["question"].JStr? && j.fields["answer"].JStr?
    then Some(Faq(j.fields["question"].s, j.fields["answer"].s))
    else None
  }

  function EncStep(s: Step): Json {
    JObj(map["title" := JStr(s.title), "body" := JStr(s.body)])
  }

  function DecStep(j: Json): Option<Step> {
    if j.JObj? && j.fields.Keys == {"title", "body"}
       && j.fields["title"].JStr? && j.fields["body"].JStr?
    then Some(Step(j.fields["title"].s, j.fields["body"].s))
    else None
  }

  function EncFaqs(xs: seq<Faq>): Json {
    JArr(seq(|xs|, i requires 0 <= i < |xs| => EncFaq(xs[i])))
  }

  function DecFaqs(j: Json): Option<seq<Faq>> {
    if j.JArr? && forall i :: 0 <= i < |j.items| ==> DecFaq(j.items[i]).Some? then
      Some(seq(|j.items|, i requires 0 <= i < |j.items| && DecFaq(j.items[i]).Some? => DecFaq(j.items[i]).value))
    else None
  }

  function EncSteps(xs: seq<Step>): Json {
    JArr(seq(|xs|, i requires 0 <= i < |xs| => EncStep(xs[i])))
  }

  function DecSteps(j: Json): Option<seq<Step>> {
    if j.JArr? && forall i :: 0 <= i < |j.items| ==> DecStep(j.items[i]).Some? then
      Some(seq(|j.items|, i requires 0 <= i < |j.items| && DecStep(j.items[i]).Some? => DecStep(j.items[i]).value))
    else None
  }

  // ---------------------------------------------------------------------------
  // Optional object fields

  /**
   * Reading key `k` of `o` with decoder `dec`: `Some(None)` when the key is
   * absent, `Some(Some(x))` when it holds a value of the declared shape, and
   * `None` when it holds anything else.
   */
  function Field<T>(o: JsonObject, k: string, dec: Json -> Option<T>): Option<Option<T>> {
    if k !in o then Some(None)
    else if dec(o[k]).Some? then Some(Some(dec(o[k]).value))
    else None
  }

  /** Writing an optional field: an absent value leaves no key. */
  function PutField<T>(o: JsonObject, k: string, v: Option<T>, enc: T -> Json): JsonObject {
    if v.Some? then o[k := enc(v.value)] else o - {k}
  }

  // ---------------------------------------------------------------------------
  // Sub-objects

  const SeoKeys: set<string> :=
    {"metaTitle", "metaDescription", "ogImage", "keywords", "canonicalUrl", "schemaType"}

  /** An optional text field as the JSON value it is written as. */
  function Text(v: Option<string>): (r: Option<Json>)
    ensures r.Some? <==> v.Some?
    ensures v.Some? ==> r.value == JStr(v.value) && DecStr(r.value) == v
  {
    if v.Some? then Some(JStr(v.value)) else None
  }

  /** The JSON value an SEO block holds under key `k`, if any. */
  function SeoEntry(s: Seo, k: string): Option<Json> {
    if k == "metaTitle" then Text(s.metaTitle)
    else if k == "metaDescription" then Text(s.metaDescription)
    else if k == "ogImage" then Text(s.ogImage)
    else if k == "keywords" then MapOpt(s.keywords, StrList)
    else if k == "canonicalUrl" then Text(s.canonicalUrl)
    else if k == "schemaType" then MapOpt(s.schemaType, EncSchema)
    else None
  }

  function EncSeo(s: Seo): Json {
    JObj(map k | k in SeoKeys && SeoEntry(s, k).Some? :: SeoEntry(s, k).value)
  }

  function DecSeo(j: Json): Option<Seo> {
    if !j.JObj? || !(j.fields.Keys <= SeoKeys) then None
    else
      var o := j.fields;
      var a :- Field(o, "metaTitle", DecStr);
      var b :- Field(o, "metaDescription", DecStr);
      var c :- Field(o, "ogImage", DecStr);
      var d :- Field(o, "keywords", DecStrs);
      var e :- Field(o, "canonicalUrl", DecStr);
      var f :- Field(o, "schemaType", DecSchema);
      Some(Seo(a, b, c, d, e, f))
  }

  const GeoKeys: set<string> := {"region", "placename", "position"}

  function EncGeo(g: Geo): Json {
    var o0: JsonObject := map[];
    var o1 := PutField(o0, "region", g.region, x => JStr(x));
    var o2 := PutField(o1, "placename", g.placename, x => JStr(x));
    var o3 := PutField(o2, "position", g.position, x => JStr(x));
    JObj(o3)
  }

  function DecGeo(j: Json): Option<Geo> {
    if !j.JObj? || !(j.fields.Keys <= GeoKeys) then None
    else
      var o := j.fields;
      var a :- Field(o, "region", DecStr);
      var b :- Field(o, "placename", DecStr);
      var c :- Field(o, "position", DecStr);
      Some(Geo(a, b, c))
  }

  const AeoKeys: set<string> := {"question", "answerSnippet"}

  function EncAeo(a: Aeo): Json {
    var o0: JsonObject := map[];
    var o1 := PutField(o0, "question", a.question, x => JStr(x));
    var o2 := PutField(o1, "answerSnippet", a.answerSnippet, x => JStr(x));
    JObj(o2)
  }

  function DecAeo(j: Json): Option<Aeo> {
    if !j.JObj? || !(j.fields.Keys <= AeoKeys) then None
    else
      var o := j.fields;
      var a :- Field(o, "question", DecStr);
      var b :- Field(o, "answerSnippet", DecStr);
      Some(Aeo(a, b))
  }

  // ---------------------------------------------------------------------------
  // The whole bag

  function MapOpt<T>(v: Option<T>, enc: T -> Json): Option<Json> {
    if v.Some? then Some(enc(v.value)) else None
  }

  /** The JSON value typed metadata holds under key `k`, if any. */
  function Entry(m: Metadata, k: string): Option<Json> {
    if k == "views" then MapOpt(m.views, n => JNum(n))
    else if k == "likes" then MapOpt(m.likes, n => JNum(n))
    else if k == "tags" then MapOpt(m.tags, StrList)
    else if k == "categories" then MapOpt(m.categories, StrList)
    else if k == "seo" then MapOpt(m.seo, EncSeo)
    else if k == "geo" then MapOpt(m.geo, EncGeo)
    else if k == "aeo" then MapOpt(m.aeo, EncAeo)
    else if k == "changelog" then MapOpt(m.changelog, StrList)
    else if k == "faq" then MapOpt(m.faq, EncFaqs)
    else if k == "steps" then MapOpt(m.steps, EncSteps)
    else Get(m.extra, k)
  }

  /** Writes typed metadata as the JSON object stored in the record. */
  function Encode(m: Metadata): JsonObject {
    map k | k in m.extra.Keys + MetaKeys && Entry(m, k).Some? :: Entry(m, k).value
  }

  /** Every declared key of `o` holds a value of its declared shape (or is absent). */
  predicate DeclaredShapes(o: JsonObject) {
    && Field(o, "views", DecInt).Some?
    && Field(o, "likes", DecInt).Some?
    && Field(o, "tags", DecStrs).Some?
    && Field(o, "categories", DecStrs).Some?
    && Field(o, "seo", DecSeo).Some?
    && Field(o, "geo", DecGeo).Some?
    && Field(o, "aeo", DecAeo).Some?
    && Field(o, "changelog", DecStrs).Some?
    && Field(o, "faq", DecFaqs).Some?
    && Field(o, "steps", DecSteps).Some?
  }

  /**
   * Reads a stored metadata object: `None` when a declared key holds a value
   * of another shape; otherwise every undeclared key lands in `extra`.
   */
  function Decode(o: JsonObject): Option<Metadata> {
    if !DeclaredShapes(o) then None
    else Some(Metadata(
      Field(o, "views", DecInt).value,
      Field(o, "likes", DecInt).value,
      Field(o, "tags", DecStrs).value,
      Field(o, "categories", DecStrs).value,
      Field(o, "seo", DecSeo).value,
      Field(o, "geo", DecGeo).value,
      Field(o, "aeo", DecAeo).value,
      Field(o, "changelog", DecStrs).value,
      Field(o, "faq", DecFaqs).value,
      Field(o, "steps", DecSteps).value,
      map k | k in o && k !in MetaKeys :: o[k]))
  }

  // ---------------------------------------------------------------------------
  // Leaf round trips: decoding an encoding gives the value back, and a value
  // that decodes is exactly the encoding of what it decodes to.

  lemma StrsRoundTrip(xs: seq<string>, j: Json)
    ensures DecStrs(StrList(xs)) == Some(xs)
    ensures DecStrs(j).Some? ==> StrList(DecStrs(j).value) == j
  {
    var e := StrList(xs);
    assert forall i :: 0 <= i < |e.items| ==> e.items[i].JStr?;
    assert DecStrs(e).value == xs;
  }

  lemma SchemaRoundTrip(t: SchemaType, j: Json)
    ensures DecSchema(EncSchema(t)) == Some(t)
    ensures DecSchema(j).Some? ==> EncSchema(DecSchema(j).value) == j
  {
    SchemaTypeNamesRoundTrip(t, "");
  }

  lemma FaqRoundTrip(f: Faq, j: Json)
    ensures DecFaq(EncFaq(f)) == Some(f)
    ensures DecFaq(j).Some? ==> EncFaq(DecFaq(j).value) == j
  {
    if DecFaq(j).Some? {
      assert EncFaq(DecFaq(j).value).fields == j.fields;
    }
  }

  lemma StepRoundTrip(s: Step, j: Json)
    ensures DecStep(EncStep(s)) == Some(s)
    ensures DecStep(j).Some? ==> EncStep(DecStep(j).value) == j
  {
    if DecStep(j).Some? {
      assert EncStep(DecStep(j).value).fields == j.fields;
    }
  }

  lemma FaqsRoundTrip(xs: seq<Faq>, j: Json)
    ensures DecFaqs(EncFaqs(xs)) == Some(xs)
    ensures DecFaqs(j).Some? ==> EncFaqs(DecFaqs(j).value) == j
  {
    forall i | 0 <= i < |xs| ensures DecFaq(EncFaq(xs[i])) == Some(xs[i]) {
      FaqRoundTrip(xs[i], JNull);
    }
    var e := EncFaqs(xs);
    assert forall i :: 0 <= i < |e.items| ==> e.items[i] == EncFaq(xs[i]);
    assert DecFaqs(e).value == xs;
    if DecFaqs(j).Some? {
      forall i | 0 <= i < |j.items| ensures EncFaq(DecFaq(j.items[i]).value) == j.items[i] {
        FaqRoundTrip(Faq("", ""), j.items[i]);
      }
    }
  }

  lemma StepsRoundTrip(xs: seq<Step>, j: Json)
    ensures DecSteps(EncSteps(xs)) == Some(xs)
    ensures DecSteps(j).Some? ==> EncSteps(DecSteps(j).value) == j
  {
    forall i | 0 <= i < |xs| ensures DecStep(EncStep(xs[i])) == Some(xs[i]) {
      StepRoundTrip(xs[i], JNull);
    }
    var e := EncSteps(xs);
    assert forall i :: 0 <= i < |e.items| ==> e.items[i] == EncStep(xs[i]);
    assert DecSteps(e).value == xs;
    if DecSteps(j).Some? {
      forall i | 0 <= i < |j.items| ensures EncStep(DecStep(j.items[i]).value) == j.items[i] {
        StepRoundTrip(Step("", ""), j.items[i]);
      }
    }
  }

  // ---------------------------------------------------------------------------
  // Sub-object round trips

  lemma SeoRoundTrip(s: Seo, j: Json)
    ensures DecSeo(EncSeo(s)) == Some(s)
    ensures DecSeo(j).Some? ==> EncSeo(DecSeo(j).value) == j
  {
    SeoDecodesEncoding(s);
    if DecSeo(j).Some? {
      SeoEncodesDecoding(j);
    }
  }

  /** The text fields of an SEO encoding read back. */
  lemma SeoEncodedText(s: Seo)
    ensures Field(EncSeo(s).fields, "metaTitle", DecStr) == Some(s.metaTitle)
    ensures Field(EncSeo(s).fields, "metaDescription", DecStr) == Some(s.metaDescription)
    ensures Field(EncSeo(s).fields, "ogImage", DecStr) == Some(s.ogImage)
    ensures Field(EncSeo(s).fields, "canonicalUrl", DecStr) == Some(s.canonicalUrl)
  {
  }

  /** The keyword list and schema type of an SEO encoding read back. */
  lemma SeoEncodedLists(s: Seo)
    ensures Field(EncSeo(s).fields, "keywords", DecStrs) == Some(s.keywords)
    ensures Field(EncSeo(s).fields, "schemaType", DecSchema) == Some(s.schemaType)
  {
    if s.keywords.Some? { StrsRoundTrip(s.keywords.value, JNull); }
    if s.schemaType.Some? { SchemaRoundTrip(s.schemaType.value, JNull); }
  }

  lemma SeoDecodesEncoding(s: Seo)
    ensures DecSeo(EncSeo(s)) == Some(s)
  {
    SeoEncodedText(s);
    SeoEncodedLists(s);
  }

  /** A decoded SEO block holds what each key of the object reads as. */
  lemma SeoDecodedFields(j: Json)
    requires DecSeo(j).Some?
    ensures j.JObj? && j.fields.Keys <= SeoKeys
    ensures var o := j.fields;
      DecSeo(j).value == Seo(
        Field(o, "metaTitle", DecStr).value, Field(o, "metaDescription", DecStr).value,
        Field(o, "ogImage", DecStr).value, Field(o, "keywords", DecStrs).value,
        Field(o, "canonicalUrl", DecStr).value, Field(o, "schemaType", DecSchema).value)
  {
  }

  /** Re-encoding a decoded SEO block gives each key back its value. */
  lemma SeoEntryOfDecoded(j: Json, k: string)
    requires DecSeo(j).Some? && k in SeoKeys
    ensures SeoEntry(DecSeo(j).value, k) == Get(j.fields, k)
  {
    var o := j.fields;
    SeoDecodedFields(j);
    if k == "keywords" {
      if k in o { StrsRoundTrip([], o[k]); }
    } else if k == "schemaType" {
      if k in o { SchemaRoundTrip(Article, o[k]); }
    }
  }

  lemma SeoEncodesDecoding(j: Json)
    requires DecSeo(j).Some?
    ensures EncSeo(DecSeo(j).value) == j
  {
    var o := j.fields;
    var e := EncSeo(DecSeo(j).value).fields;
    SeoDecodedFields(j);
    forall k ensures (k in e <==> k in o) && (k in e ==> e[k] == o[k]) {
      if k in SeoKeys {
        SeoEntryOfDecoded(j, k);
      }
    }
    assert e == o;
  }

  lemma GeoRoundTrip(g: Geo, j: Json)
    ensures DecGeo(EncGeo(g)) == Some(g)
    ensures DecGeo(j).Some? ==> EncGeo(DecGeo(j).value) == j
  {
    if DecGeo(j).Some? {
      assert EncGeo(DecGeo(j).value).fields == j.fields;
    }
  }

  lemma AeoRoundTrip(a: Aeo, j: Json)
    ensures DecAeo(EncAeo(a)) == Some(a)
    ensures DecAeo(j).Some? ==> EncAeo(DecAeo(j).value) == j
  {
    if DecAeo(j).Some? {
      assert EncAeo(DecAeo(j).value).fields == j.fields;
    }
  }

  // ---------------------------------------------------------------------------
  // The whole bag

  /**
   * The typed view loses nothing: well-formed typed metadata is read back from
   * its JSON object, and every object whose declared keys have their declared
   * shapes is the encoding of the typed value it reads as.
   */
  lemma MetadataRoundTrip(m: Metadata, o: JsonObject)
    ensures MetadataWellFormed(m) ==> Decode(Encode(m)) == Some(m)
    ensures Decode(o).Some? ==> MetadataWellFormed(Decode(o).value) && Encode(Decode(o).value) == o
  {
    if MetadataWellFormed(m) {
      DecodesEncoding(m);
    }
    if Decode(o).Some? {
      EncodesDecoding(o);
    }
  }

  lemma EncodeAt(m: Metadata, k: string)
    ensures k in Encode(m) <==> (k in m.extra || k in MetaKeys) && Entry(m, k).Some?
    ensures k in Encode(m) ==> Encode(m)[k] == Entry(m, k).value
  {
  }

  lemma EncodedScalars(m: Metadata)
    ensures Field(Encode(m), "views", DecInt) == Some(m.views)
    ensures Field(Encode(m), "likes", DecInt) == Some(m.likes)
    ensures Field(Encode(m), "tags", DecStrs) == Some(m.tags)
    ensures Field(Encode(m), "categories", DecStrs) == Some(m.categories)
    ensures Field(Encode(m), "changelog", DecStrs) == Some(m.changelog)
  {
    EncodeAt(m, "views");
    EncodeAt(m, "likes");
    EncodeAt(m, "tags");
    EncodeAt(m, "categories");
    EncodeAt(m, "changelog");
    if m.tags.Some? { StrsRoundTrip(m.tags.value, JNull); }
    if m.categories.Some? { StrsRoundTrip(m.categories.value, JNull); }
    if m.changelog.Some? { StrsRoundTrip(m.changelog.value, JNull); }
  }

  lemma EncodedObjects(m: Metadata)
    ensures Field(Encode(m), "seo", DecSeo) == Some(m.seo)
    ensures Field(Encode(m), "geo", DecGeo) == Some(m.geo)
    ensures Field(Encode(m), "aeo", DecAeo) == Some(m.aeo)
    ensures Field(Encode(m), "faq", DecFaqs) == Some(m.faq)
    ensures Field(Encode(m), "steps", DecSteps) == Some(m.steps)
  {
    EncodeAt(m, "seo");
    EncodeAt(m, "geo");
    EncodeAt(m, "aeo");
    EncodeAt(m, "faq");
    EncodeAt(m, "steps");
    if m.seo.Some? { SeoRoundTrip(m.seo.value, JNull); }
    if m.geo.Some? { GeoRoundTrip(m.geo.value, JNull); }
    if m.aeo.Some? { AeoRoundTrip(m.aeo.value, JNull); }
    if m.faq.Some? { FaqsRoundTrip(m.faq.value, JNull); }
    if m.steps.Some? { StepsRoundTrip(m.steps.value, JNull); }
  }

  /** The undeclared keys of an encoding are exactly the extra entries. */
  lemma EncodedExtra(m: Metadata)
    requires MetadataWellFormed(m)
    ensures (map k | k in Encode(m) && k !in MetaKeys :: Encode(m)[k]) == m.extra
  {
    var o := Encode(m);
    var extra := map k | k in o && k !in MetaKeys :: o[k];
    forall k | k in extra ensures k in m.extra && extra[k] == m.extra[k] {
      EncodeAt(m, k);
      EntryOfExtra(m, k);
    }
    forall k | k in m.extra ensures k in extra {
      EncodeAt(m, k);
      EntryOfExtra(m, k);
    }
  }

  lemma DecodesEncoding(m: Metadata)
    requires MetadataWellFormed(m)
    ensures Decode(Encode(m)) == Some(m)
  {
    EncodedScalars(m);
    EncodedObjects(m);
    EncodedExtra(m);
  }

  /** What a decoded object holds under a declared key is the encoding of the decoded field. */
  lemma DecodedScalars(o: JsonObject)
    requires Decode(o).Some?
    ensures Entry(Decode(o).value, "views") == Get(o, "views")
    ensures Entry(Decode(o).value, "likes") == Get(o, "likes")
    ensures Entry(Decode(o).value, "tags") == Get(o, "tags")
    ensures Entry(Decode(o).value, "categories") == Get(o, "categories")
    ensures Entry(Decode(o).value, "changelog") == Get(o, "changelog")
  {
    if "tags" in o { StrsRoundTrip([], o["tags"]); }
    if "categories" in o { StrsRoundTrip([], o["categories"]); }
    if "changelog" in o { StrsRoundTrip([], o["changelog"]); }
  }

  lemma DecodedSeo(o: JsonObject)
    requires Decode(o).Some?
    ensures Entry(Decode(o).value, "seo") == Get(o, "seo")
  {
    if "seo" in o { SeoRoundTrip(Seo(None, None, None, None, None, None), o["seo"]); }
  }

  lemma DecodedGeo(o: JsonObject)
    requires Decode(o).Some?
    ensures Entry(Decode(o).value, "geo") == Get(o, "geo")
  {
    if "geo" in o { GeoRoundTrip(Geo(None, None, None), o["geo"]); }
  }

  lemma DecodedAeo(o: JsonObject)
    requires Decode(o).Some?
    ensures Entry(Decode(o).value, "aeo") == Get(o, "aeo")
  {
    if "aeo" in o { AeoRoundTrip(Aeo(None, None), o["aeo"]); }
  }

  lemma DecodedFaqs(o: JsonObject)
    requires Decode(o).Some?
    ensures Entry(Decode(o).value, "faq") == Get(o, "faq")
  {
    if "faq" in o { FaqsRoundTrip([], o["faq"]); }
  }

  lemma DecodedSteps(o: JsonObject)
    requires Decode(o).Some?
    ensures Entry(Decode(o).value, "steps") == Get(o, "steps")
  {
    if "steps" in o { StepsRoundTrip([], o["steps"]); }
  }

  lemma EntryOfExtra(m: Metadata, k: string)
    requires k !in MetaKeys
    ensures Entry(m, k) == Get(m.extra, k)
  {
  }

  lemma DecodedEntry(o: JsonObject, k: string)
    requires Decode(o).Some?
    ensures Entry(Decode(o).value, k) == Get(o, k)
  {
    if k == "views" || k == "likes" || k == "tags" || k == "categories" || k == "changelog" {
      DecodedScalars(o);
    } else if k == "seo" {
      DecodedSeo(o);
    } else if k == "geo" {
      DecodedGeo(o);
    } else if k == "aeo" {
      DecodedAeo(o);
    } else if k == "faq" {
      DecodedFaqs(o);
    } else if k == "steps" {
      DecodedSteps(o);
    } else {
      EntryOfExtra(Decode(o).value, k);
    }
  }

  lemma EncodesDecoding(o: JsonObject)
    requires Decode(o).Some?
    ensures MetadataWellFormed(Decode(o).value)
    ensures Encode(Decode(o).value) == o
  {
    var m := Decode(o).value;
    var e := Encode(m);
    assert m.extra == map k | k in o && k !in MetaKeys :: o[k];
    forall k ensures (k in e <==> k in o) && (k in e ==> e[k] == o[k]) {
      EncodeAt(m, k);
      DecodedEntry(o, k);
    }
    assert e == o;
  }
}
