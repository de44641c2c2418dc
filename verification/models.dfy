/**
 * The content data model: the closed enumerations, the polymorphic content
 * record with its optional per-type fields, the open metadata bag and the list
 * query.
 */
module Models {
  import opened Wrappers
  import opened Json

  // ---------------------------------------------------------------------------
  // Closed enumerations and their wire names

  datatype ContentStatus = Draft | Published | Archived

  function StatusName(s: ContentStatus): string {
    match s
    case Draft => "draft"
    case Published => "published"
    case Archived => "archived"
  }

  /** Reads a status name; anything but the three names is not a status. */
  function ParseStatus(x: string): (r: Option<ContentStatus>)
    ensures r.Some? ==> StatusName(r.value) == x
  {
    if x == "draft" then Some(Draft)
    else if x == "published" then Some(Published)
    else if x == "archived" then Some(Archived)
    else None
  }

  const AllStatuses: seq<ContentStatus> := [Draft, Published, Archived]

  datatype ContentType = Post | Update | Resource | Press | Feed

  function TypeName(t: ContentType): string {
    match t
    case Post => "post"
    case Update => "update"
    case Resource => "resource"
    case Press => "press"
    case Feed => "feed"
  }

  function ParseType(x: string): (r: Option<ContentType>)
    ensures r.Some? ==> TypeName(r.value) == x
  {
    if x == "post" then Some(Post)
    else if x == "update" then Some(Update)
    else if x == "resource" then Some(Resource)
    else if x == "press" then Some(Press)
    else if x == "feed" then Some(Feed)
    else None
  }

  const AllTypes: seq<ContentType> := [Post, Update, Resource, Press, Feed]

  datatype UpdateType = Feature | Improvement | Fix

  function UpdateTypeName(u: UpdateType): string {
    match u
    case Feature => "feature"
    case Improvement => "improvement"
    case Fix => "fix"
  }

  const AllUpdateTypes: seq<UpdateType> := [Feature, Improvement, Fix]

  datatype Platform = Instagram | LinkedIn | YouTube | Twitter | Facebook | OtherPlatform

  function PlatformName(p: Platform): string {
    match p
    case Instagram => "instagram"
    case LinkedIn => "linkedin"
    case YouTube => "youtube"
    case Twitter => "twitter"
    case Facebook => "facebook"
    case OtherPlatform => "other"
  }

  const AllPlatforms: seq<Platform> := [Instagram, LinkedIn, YouTube, Twitter, Facebook, OtherPlatform]

  datatype SchemaType = Article | NewsArticle | BlogPosting | TechArticle

  function SchemaTypeName(t: SchemaType): string {
    match t
    case Article => "Article"
    case NewsArticle => "NewsArticle"
    case BlogPosting => "BlogPosting"
    case TechArticle => "TechArticle"
  }

  function ParseSchemaType(x: string): (r: Option<SchemaType>)
    ensures r.Some? ==> SchemaTypeName(r.value) == x
  {
    if x == "Article" then Some(Article)
    else if x == "NewsArticle" then Some(NewsArticle)
    else if x == "BlogPosting" then Some(BlogPosting)
    else if x == "TechArticle" then Some(TechArticle)
    else None
  }

  /** `xs` lists every value of an enumeration once, under pairwise distinct names. */
  ghost predicate Enumerates<T(!new)>(xs: seq<T>, name: T -> string) {
    && (forall x :: x in xs)
    && (forall i, j :: 0 <= i < j < |xs| ==> name(xs[i]) != name(xs[j]))
  }

  // ---------------------------------------------------------------------------
  // Metadata: the typed sub-keys plus every other key in `extra`

  datatype Seo = Seo(
    metaTitle: Option<string>,
    metaDescription: Option<string>,
    ogImage: Option<string>,
    keywords: Option<seq<string>>,
    canonicalUrl: Option<string>,
    schemaType: Option<SchemaType>)

  datatype Geo = Geo(region: Option<string>, placename: Option<string>, position: Option<string>)

  datatype Aeo = Aeo(question: Option<string>, answerSnippet: Option<string>)

  datatype Faq = Faq(question: string, answer: string)

  datatype Step = Step(title: string, body: string)

  datatype Metadata = Metadata(
    views: Option<int>,
    likes: Option<int>,
    tags: Option<seq<string>>,
    categories: Option<seq<string>>,
    seo: Option<Seo>,
    geo: Option<Geo>,
    aeo: Option<Aeo>,
    changelog: Option<seq<string>>,
    faq: Option<seq<Faq>>,
    steps: Option<seq<Step>>,
    extra: map<string, Json>)

  /** The metadata keys that have a declared shape. */
  const MetaKeys: set<string> :=
    {"views", "likes", "tags", "categories", "seo", "geo", "aeo", "changelog", "faq", "steps"}

  /** The extra keys never shadow a typed sub-key. */
  predicate MetadataWellFormed(m: Metadata) {
    forall k :: k in m.extra ==> k !in MetaKeys
  }

  // ---------------------------------------------------------------------------
  // The stored record

  /** Timestamps are opaque values compared by their order only. */
  type Timestamp = int

  datatype Content = Content(
    id: string,
    title: string,
    slug: string,
    contentType: ContentType,
    status: ContentStatus,
    body: string,
    excerpt: string,
    featuredImage: Option<string>,
    authorId: string,
    authorName: string,
    authorEmail: string,
    platform: Option<Platform>,
    updateType: Option<UpdateType>,
    version: Option<string>,
    parentId: Option<string>,
    externalLink: Option<string>,
    metadata: Metadata,
    createdAt: Timestamp,
    updatedAt: Timestamp,
    publishedAt: Option<Timestamp>,
    deletedAt: Option<Timestamp>)

  /** The list query; every field may be absent. */
  datatype ContentQuery = ContentQuery(
    status: Option<string>,
    contentType: Option<string>,
    page: Option<int>,
    limit: Option<int>,
    search: Option<string>)

  // ---------------------------------------------------------------------------
  // Lemmas about the enumerations

  /** Each status has one name and each name one status; there are exactly three. */
  lemma StatusNamesRoundTrip(s: ContentStatus, x: string)
    ensures ParseStatus(StatusName(s)) == Some(s)
    ensures ParseStatus(x).Some? <==> exists t :: StatusName(t) == x
    ensures Enumerates(AllStatuses, StatusName) && |AllStatuses| == 3
  {
    if exists t :: StatusName(t) == x {
      var t :| StatusName(t) == x;
      assert ParseStatus(x) == Some(t) by { match t { case Draft => case Published => case Archived => } }
    }
    forall t: ContentStatus ensures t in AllStatuses {
      match t { case Draft => case Published => case Archived => }
    }
  }

  /** The five content types round-trip through their names; "social" is not one of them. */
  lemma TypeNamesRoundTrip(t: ContentType, x: string)
    ensures ParseType(TypeName(t)) == Some(t)
    ensures ParseType(x).Some? <==> exists u :: TypeName(u) == x
    ensures Enumerates(AllTypes, TypeName) && |AllTypes| == 5
    ensures ParseType("social") == None
  {
    if exists u :: TypeName(u) == x {
      var u :| TypeName(u) == x;
      assert ParseType(x) == Some(u) by {
        match u { case Post => case Update => case Resource => case Press => case Feed => }
      }
    }
    forall u: ContentType ensures u in AllTypes {
      match u { case Post => case Update => case Resource => case Press => case Feed => }
    }
  }

  /** Exactly three update types and six platforms, under distinct names. */
  lemma EnumerationSizes()
    ensures Enumerates(AllUpdateTypes, UpdateTypeName) && |AllUpdateTypes| == 3
    ensures Enumerates(AllPlatforms, PlatformName) && |AllPlatforms| == 6
  {
    forall u: UpdateType ensures u in AllUpdateTypes {
      match u { case Feature => case Improvement => case Fix => }
    }
    forall p: Platform ensures p in AllPlatforms {
      match p {
        case Instagram => case LinkedIn => case YouTube =>
        case Twitter => case Facebook => case OtherPlatform =>
      }
    }
  }

  /** A schema type is one of the four names, and each name reads back as itself. */
  lemma SchemaTypeNamesRoundTrip(t: SchemaType, x: string)
    ensures ParseSchemaType(SchemaTypeName(t)) == Some(t)
    ensures ParseSchemaType(x).Some? <==> x in {"Article", "NewsArticle", "BlogPosting", "TechArticle"}
  {
  }
}
