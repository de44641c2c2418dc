# BanjoCMS content core in Dafny

BanjoCMS is an admin back office for one polymorphic `content` table. The
table holds blog posts, platform updates, resources, press items and a social
feed. This project models the parts of it that decide what gets stored and
what gets listed:

- the content data model: closed enumerations, the content record, the open
  metadata bag and the list query;
- the list handler `GET /api/content`: it filters by status and type, orders
  newest first, cuts one page, and counts the total and the pages;
- the create handler `POST /api/content`: it maps a request body onto the
  columns of a new row, fills in defaults and stamps the author from the
  session;
- the trash handler `GET /api/content/trash`;
- the comma-separated list input, used for tags and categories;
- the content editor's form state: defaults, the edit-mode load merge, the
  metadata handlers, the FAQ builder, the submit payload and the redirect
  afterwards;
- the three "new" pages for resources, platform updates and social reposts,
  including what the create handler keeps of their payloads;
- the admin list page: the requests its filter buttons send and what each
  row shows;
- sidebar highlighting over the menu's links.

Modules follow the program:

| module | what it models |
|---|---|
| `Models` | the data model |
| `Json` | plain request and form objects, undefined properties, `\|\|` |
| `Strings` | ASCII `toLowerCase`, `trim`, `split`, `join` and decimal rendering |
| `Slug` | the slug regex replace |
| `CommaList` | the list input |
| `MetadataCodec` | typed metadata to and from the stored JSON object |
| `Seqs` | filter, descending sort and inclusive range |
| `ContentListApi` | the list handler |
| `ContentCreateApi` | the create handler |
| `TrashApi` | the trash handler |
| `Forms` | the submit buttons |
| `ContentEditor` | the content editor |
| `ResourcePage` | the new-resource page |
| `UpdatePage` | the new-update page |
| `SocialPage` | the new-repost page |
| `ContentListView` | the admin list page |
| `Navigation` | sidebar highlighting |

Objects that are built and spread at run time are maps from key to value:
request bodies, insert rows, the editor's form and the page payloads. An
absent key stands for `undefined`. The clock and the store are parameters:
- the create handler receives its ISO time as a string;
- the social page receives `Date.now()` as a natural number;
- each handler receives the store's rows, or its error, as a `Result`.

The code as written, which the model follows:

- The list handler reads only `status`, `contentType`, `page` and `limit`.
  It has no search, platform, update-type or parent filter, and it does not
  hide soft-deleted rows. `ContentListApi.IgnoredCriteria` states this.
- The create handler reads only snake_case names, except for `contentType`
  and `featuredImage`. It therefore loses the `parentId` and `updateType`
  that two of the pages send; see Findings.
- The social page posts the type `"social"`. That type is not one of the
  five content types, and the create handler stores it as given.
- The record's `deleted_at` column, which the trash handler reads, is not
  declared in the record interface. The model's `Content` carries it as
  `deletedAt`.

## Model

| member | source | states |
|---|---|---|
| `Models.ParseStatus` | src/lib/models.ts:2 | a string read as a status is that status's name |
| `Models.StatusNamesRoundTrip` | src/lib/models.ts:2 | every status reads back from its name; a string is a status exactly when it names one; there are exactly three, under distinct names |
| `Models.ParseType` | src/lib/models.ts:3 | a string read as a content type is that type's name |
| `Models.TypeNamesRoundTrip` | src/lib/models.ts:3 | the five content types round-trip through their names, are listed once each under distinct names, and "social" is not one of them |
| `Models.EnumerationSizes` | src/lib/models.ts:4-5 | exactly three update types and six platforms, each under its own name |
| `Models.ParseSchemaType` | src/lib/models.ts:44 | a string read as a schema type is that type's name |
| `Models.SchemaTypeNamesRoundTrip` | src/lib/models.ts:44 | a schema type is exactly one of Article, NewsArticle, BlogPosting and TechArticle, and each reads back as itself |
| `MetadataCodec.StrsRoundTrip` | src/lib/models.ts:34-35 | a string list survives encoding, and a decodable JSON array re-encodes to itself |
| `MetadataCodec.SchemaRoundTrip` | src/lib/models.ts:44 | the schema type is stored as its name, in both directions |
| `MetadataCodec.FaqRoundTrip` | src/lib/models.ts:62 | a question and answer pair survives encoding, and a decodable pair object re-encodes to itself |
| `MetadataCodec.FaqsRoundTrip` | src/lib/models.ts:62 | the same for the whole FAQ list, element by element |
| `MetadataCodec.StepRoundTrip` | src/lib/models.ts:63 | a how-to step survives encoding, and a decodable step object re-encodes to itself |
| `MetadataCodec.StepsRoundTrip` | src/lib/models.ts:63 | the same for the whole step list |
| `MetadataCodec.SeoRoundTrip` | src/lib/models.ts:38-45 | the SEO block, schema type included, round-trips in both directions |
| `MetadataCodec.GeoRoundTrip` | src/lib/models.ts:48-52 | the GEO block round-trips in both directions |
| `MetadataCodec.AeoRoundTrip` | src/lib/models.ts:55-58 | the AEO block round-trips in both directions |
| `MetadataCodec.EncodedExtra` | src/lib/models.ts:65 | the keys of a stored metadata object without a declared shape are exactly the extra entries, with their values |
| `MetadataCodec.DecodesEncoding` | src/lib/models.ts:28-66 | well-formed typed metadata is recovered from the object it is stored as |
| `MetadataCodec.EncodesDecoding` | src/lib/models.ts:28-66 | an object whose declared keys have their declared shapes is exactly the encoding of what it decodes to |
| `MetadataCodec.MetadataRoundTrip` | src/lib/models.ts:28-66 | both directions together; every decoded value is well formed |
| `Strings.Lower` | src/components/editor/content-editor.tsx:166 | lower-casing keeps the length and maps each character on its own, upper-case ASCII letters to lower case |
| `Strings.Trim` | src/components/ui/comma-separated-input.tsx:19 | the result has no white space at either end and uses only characters of the input; trimmed text is kept; the result is empty exactly when the input is all white space |
| `Strings.TrimInfix` | src/components/ui/comma-separated-input.tsx:19 | the trimmed text is an infix of the input with only white space before and after it |
| `Strings.Split` | src/components/ui/comma-separated-input.tsx:19 | splitting yields at least one piece, and no piece contains the separator |
| `Strings.SplitJoin` | src/components/ui/comma-separated-input.tsx:19 | joining the pieces with the separator gives the input back |
| `Strings.NatToString` | src/app/admin/social/new/page.tsx:42 | the decimal text of a number is non-empty, all digits, denotes that number, is "0" for zero and otherwise never starts with '0' |
| `Slug.Slugify` | src/components/editor/content-editor.tsx:143 | a derived slug has only a-z, 0-9 and '-', never two '-' in a row, has exactly the letters and digits of the lower-cased text in their order, and is no longer than the text |
| `Slug.SlugifyIsReference` | src/components/editor/content-editor.tsx:143 | the slug equals the independent two-phase reading: mask every other character to '-', then squeeze runs of '-' |
| `Slug.SlugifyIdempotent` | src/components/editor/content-editor.tsx:143 | deriving the slug of a slug changes nothing |
| `Slug.HelloWorld` | src/components/editor/content-editor.tsx:143 | "Hello World" becomes "hello-world" |
| `CommaList.Parse` | src/components/ui/comma-separated-input.tsx:33 | every parsed element is non-empty, trimmed and free of commas |
| `CommaList.ParseIsPipeline` | src/components/ui/comma-separated-input.tsx:19 | parsing is exactly the input split at commas, each piece trimmed, empty pieces dropped, in order |
| `CommaList.CleanIsTrimThenFilter` | src/components/ui/comma-separated-input.tsx:19 | trimming each piece and dropping the empty ones, in one pass, is the same as the map followed by the filter |
| `CommaList.BlankParsesEmpty` | src/components/ui/comma-separated-input.tsx:33 | text made only of commas and white space parses to the empty list |
| `CommaList.RoundTrip` | src/components/ui/comma-separated-input.tsx:14-24 | a list of clean elements (non-empty, trimmed, comma-free) is recovered from its ", "-joined display |
| `CommaList.ParseDisplayParse` | src/components/ui/comma-separated-input.tsx:19-24 | displaying a parsed list and parsing again gives the same list |
| `CommaList.InitialDisplayParses` | src/components/ui/comma-separated-input.tsx:14 | the initial text parses back to the parent's list, and is empty for an empty list |
| `CommaList.Resync` | src/components/ui/comma-separated-input.tsx:18-26 | for any parent list, the text is left alone when it already parses to that list and is otherwise replaced by the list's display; for a list of clean elements the text then parses to the list, and is left alone exactly when it already did |
| `CommaList.ResyncSettles` | src/components/ui/comma-separated-input.tsx:18-26 | a second sync with the same list changes nothing; for a list with an element that is empty, untrimmed or holds a comma, the text never parses back to it |
| `CommaList.Edit` | src/components/ui/comma-separated-input.tsx:28-35 | a keystroke keeps the raw text and emits a list of clean elements |
| `CommaList.EditThenResync` | src/components/ui/comma-separated-input.tsx:16-35 | for a list of clean elements, as every keystroke emits: after a keystroke, the sync that follows the parent's update never rewrites the text being typed |
| `Seqs.SortDesc` | src/app/api/content/route.ts:30 | ordering by a key descending gives a permutation of the input, largest key first |
| `Seqs.Range` | src/app/api/content/route.ts:30 | an inclusive offset range holds exactly the rows at offsets from..to that exist, in order |
| `Seqs.FilterAppend` | src/app/admin/resources/new/page.tsx:74 | filtering a concatenation filters each part and concatenates, so kept elements stay in their original order |
| `ContentListApi.Matching` | src/app/api/content/route.ts:23-24 | the filter keeps every row that matches status and type as often as it is stored, and drops every other row |
| `ContentListApi.MatchingReadsFilters` | src/app/api/content/route.ts:23-24 | which rows match depends only on the status and content-type parameters |
| `ContentListApi.IgnoredCriteria` | src/app/api/content/route.ts:13-24 | the search parameter and the soft-delete marker make no difference to the listing |
| `ContentListApi.Page` | src/app/api/content/route.ts:27-30 | a page holds at most `limit` rows, all taken from the ordered result, still in order |
| `ContentListApi.PageSlice` | src/app/api/content/route.ts:27-30 | for positive page and limit, page p is the slice of the result from (p-1)*limit up to p*limit |
| `ContentListApi.WindowsDisjoint` | src/app/api/content/route.ts:27-28 | the windows of two different pages share no offset |
| `ContentListApi.FirstPagesArePrefix` | src/app/api/content/route.ts:27-30 | pages 1..k laid end to end are exactly the first k*limit rows: no overlap, no gap, same order |
| `ContentListApi.AllPagesCoverResult` | src/app/api/content/route.ts:27-37 | pages 1 through the page count, laid end to end, are the whole result |
| `ContentListApi.PageNonEmptyIff` | src/app/api/content/route.ts:27-37 | a page holds rows exactly when its number lies between 1 and the page count |
| `ContentListApi.EarlierPagesAreNewer` | src/app/api/content/route.ts:30 | no row on an earlier page is older than a row on a later page |
| `ContentListApi.PageCount` | src/app/api/content/route.ts:37 | for a positive limit the page count is the least number of pages that covers the total; limit 0 gives null; a negative limit gives the value `Math.ceil` gives |
| `ContentListApi.TwentyFiveRowsExample` | src/app/api/content/route.ts:36-37 | 25 rows at 10 per page make 3 pages; the third holds 5 rows and the fourth none |
| `ContentListApi.List` | src/app/api/content/route.ts:7-55 | a store error is reported as an error carrying the store's message; otherwise the page, limit, total and page count agree with the query, and the content is exactly page p of the matching rows ordered newest first |
| `TrashApi.ListTrash` | src/app/api/content/trash/route.ts:6-26 | a store error gives status 500 with its message; otherwise the list holds every trashed row as often as it is stored and nothing else, most recently deleted first |
| `TrashApi.TrashOrder` | src/app/api/content/trash/route.ts:13-14 | every listed row has a deletion time, and those times never increase down the list |
| `TrashApi.TrashPartitions` | src/app/api/content/trash/route.ts:13 | the trash and the live rows together are exactly the stored rows |
| `ContentCreateApi.AuthorName` | src/app/api/content/route.ts:79 | `body.author?.name` is defined exactly when the author is an object with a name, and is then that name |
| `ContentCreateApi.NewContent` | src/app/api/content/route.ts:69-90 | the row has only table columns, and each copied column holds what the body holds under the same name |
| `ContentCreateApi.CopiedColumn` | src/app/api/content/route.ts:70-86 | a copied column holds exactly the body's property of that name, or is unset when the property is |
| `ContentCreateApi.UnreadKeysDropped` | src/app/api/content/route.ts:69-90 | two bodies that agree on the properties the handler reads give the same row, so every other property is dropped |
| `ContentCreateApi.DefaultsFilled` | src/app/api/content/route.ts:69-90 | every new row has a truthy type, author name and metadata |
| `ContentCreateApi.FallbackColumns` | src/app/api/content/route.ts:79-88 | the author name is the body's author name when truthy, otherwise "Admin"; the metadata is the body's when truthy, otherwise an empty object |
| `ContentCreateApi.ContentTypeChoice` | src/app/api/content/route.ts:72 | the type is the truthy snake_case property, else the truthy camelCase one, else "post" |
| `ContentCreateApi.SnakeTypeStored` | src/app/api/content/route.ts:72 | a non-empty snake_case type is stored as given |
| `ContentCreateApi.CamelTypeStored` | src/app/api/content/route.ts:72 | a non-empty camelCase type is stored when no snake_case one is sent |
| `ContentCreateApi.FeaturedImageChoice` | src/app/api/content/route.ts:76 | the image is the truthy snake_case property, otherwise the camelCase one as it is |
| `ContentCreateApi.AuthorFromSession` | src/app/api/content/route.ts:77-78 | the author id and email come from the session, whatever the body says |
| `ContentCreateApi.MetadataStored` | src/app/api/content/route.ts:88 | truthy metadata is stored as sent |
| `ContentCreateApi.PublishedIff` | src/app/api/content/route.ts:89 | the row carries the publication time exactly when the body's status is "published", and null otherwise |
| `ContentCreateApi.StatusAndAuthor` | src/app/api/content/route.ts:73-89 | the row keeps the body's status, is stamped exactly when that status is "published", and carries the session user's id |
| `ContentCreateApi.Post` | src/app/api/content/route.ts:57-114 | no session user gives the unauthorized response; otherwise the response is created with the stored record exactly when the store accepts the row, and a failure with the store's message otherwise |
| `Forms.StatusText` | src/components/editor/content-editor.tsx:134 | "Publish" sends the published status and "Save Draft" the draft status |
| `Forms.OptStr` | src/components/editor/content-editor.tsx:144 | a missing user id leaves `author_id` out of the body, and a present one is sent as a string |
| `ContentEditor.InitialForm` | src/components/editor/content-editor.tsx:70-73 | the create-mode form has the default keys and values, except that the type is the page's own |
| `ContentEditor.LoadMerge` | src/components/editor/content-editor.tsx:85-95 | after a load, fetched values win over defaults at the top level, unfetched defaults stay, and metadata is the merged metadata |
| `ContentEditor.MergeSection` | src/components/editor/content-editor.tsx:91-93 | a merged section is an object with the default fields and the stored fields; a stored field holds its stored value and every other field its default |
| `ContentEditor.MergeMetadata` | src/components/editor/content-editor.tsx:88-94 | merged metadata has the default keys and the stored keys; outside the three sections a stored key keeps its value and any other its default; the three sections are merged field by field |
| `ContentEditor.LoadComplete` | src/components/editor/content-editor.tsx:84-95 | after a load every default key is present, and metadata and its SEO, GEO and AEO sections are objects with at least their default keys |
| `ContentEditor.LoadKeepsStoredMetadata` | src/components/editor/content-editor.tsx:88-94 | every stored metadata key outside the three sections keeps its stored value, and so does every stored field inside them |
| `ContentEditor.LoadKeepsDefaults` | src/components/editor/content-editor.tsx:88-90 | a default metadata key outside the sections that the record does not store keeps its default value |
| `ContentEditor.LoadKeepsDefaultFields` | src/components/editor/content-editor.tsx:91-93 | a default field of the SEO, GEO or AEO section that the stored section lacks keeps its default value |
| `ContentEditor.MergeMetadataIdempotent` | src/components/editor/content-editor.tsx:88-94 | merging already merged metadata changes nothing |
| `ContentEditor.LoadIdempotent` | src/components/editor/content-editor.tsx:85-95 | loading an already loaded state changes nothing |
| `ContentEditor.WithMeta` | src/components/editor/content-editor.tsx:107-109 | replacing the metadata changes no other key |
| `ContentEditor.WithMetaTwice` | src/components/editor/content-editor.tsx:107-109 | the later of two metadata replacements wins |
| `ContentEditor.SetMetadataKey` | src/components/editor/content-editor.tsx:361-373 | setting one metadata key gives it the new value and leaves the other metadata keys and all other form keys alone |
| `ContentEditor.MetadataChange` | src/components/editor/content-editor.tsx:111-122 | after the change, the section is an object whose field holds the new value |
| `ContentEditor.MetadataChangeFrame` | src/components/editor/content-editor.tsx:111-122 | no other form key, metadata key or field of the same section changes |
| `ContentEditor.MetadataChangesCommute` | src/components/editor/content-editor.tsx:111-122 | edits to different fields commute, and a later edit of the same field wins |
| `ContentEditor.ArrayMetadata` | src/components/editor/content-editor.tsx:124-132 | the key holds the list parsed from the text; every other metadata key and every other form key is unchanged |
| `ContentEditor.ArrayMetadataRoundTrip` | src/components/editor/content-editor.tsx:124-132 | typing a list's display stores exactly that list, and the stored value decodes back to it |
| `ContentEditor.AddFaq` | src/components/editor/content-editor.tsx:421-422 | adding appends one empty question and answer at the end; other metadata keys and form keys are unchanged |
| `ContentEditor.RemoveIndex` | src/components/editor/content-editor.tsx:410 | filtering out index i drops exactly that entry and keeps the others in order |
| `ContentEditor.RemoveFaq` | src/components/editor/content-editor.tsx:410-411 | the FAQ list loses exactly row i; other metadata keys and other form keys are unchanged |
| `ContentEditor.UpdateFaq` | src/components/editor/content-editor.tsx:391-402 | typing changes only the chosen field of row i: the list keeps its length, the other rows, the other metadata keys and the other form keys are unchanged, and a row that is not an object leaves the state as it was |
| `ContentEditor.RemoveUndoesAdd` | src/components/editor/content-editor.tsx:410-422 | deleting the row just added leaves the FAQ list as it was before the add, and every other key as it was |
| `ContentEditor.FaqEditsTyped` | src/components/editor/content-editor.tsx:391-422 | through the codec, adding appends an empty entry and editing changes one field of one entry |
| `ContentEditor.SlugValue` | src/components/editor/content-editor.tsx:143 | a truthy slug is kept verbatim; otherwise a string title gives its derived slug, which is well formed; a missing or null title gives an undefined slug; any other title throws |
| `ContentEditor.SubmitPayload` | src/components/editor/content-editor.tsx:140-145 | the payload exists exactly when the slug can be built; it carries the pressed button's status, the slug and the user id, and every other form key unchanged |
| `ContentEditor.SubmitThenCreate` | src/components/editor/content-editor.tsx:140-153 | once posted, the row has the button's status, is stamped exactly when "Publish" was pressed, and has the session user as author |
| `ContentEditor.InitialFormPayload` | src/components/editor/content-editor.tsx:140-145 | from a fresh form with a title, the payload carries the page's type and the slug derived from the title |
| `ContentEditor.CreateFromInitialForm` | src/components/editor/content-editor.tsx:140-153 | a new item is stored with its page's type and the slug derived from its title |
| `ContentEditor.RedirectFor` | src/components/editor/content-editor.tsx:158-166 | each type name goes to its own list page, and anything else to the blog list |
| `ContentEditor.RedirectPath` | src/components/editor/content-editor.tsx:166 | a missing or null type goes to the blog list, a string type to the list page of its lower-cased name, and any other value throws |
| `ContentEditor.RedirectByType` | src/components/editor/content-editor.tsx:158-166 | each type returns to its own list whatever the letter case, and unknown names such as "social" go to the blog list |
| `ContentListView.ListRequest` | src/components/content/content-list.tsx:49-50 | "all" sends an empty status and any other filter its own name; every request carries the page's type, limit 100 and no page |
| `ContentListView.RequestMatches` | src/components/content/content-list.tsx:49-50 | a row matches a button's request exactly when it has the page's type and, unless the button is "all", the button's status |
| `ContentListView.FilterShowsMatchingRows` | src/components/content/content-list.tsx:46-52 | each of the four buttons lists at most 100 stored rows of the page's type with the button's status, newest first |
| `ContentListView.FirstHundredOnly` | src/components/content/content-list.tsx:50 | the page shows exactly the first min(100, matching) rows of the ordered result |
| `ContentListView.BadgeVariant` | src/components/content/content-list.tsx:69-73 | published text gets the default badge, draft the secondary, archived the destructive, and any other text the outline badge |
| `ContentListView.BadgesDistinct` | src/components/content/content-list.tsx:162 | each status has its own badge, and none of them is the fallback |
| `ContentListView.DisplayDate` | src/components/content/content-list.tsx:168 | the date shown is the publication time when there is one, else the creation time |
| `ContentListView.ShownDatesNeedNotDescend` | src/components/content/content-list.tsx:168 | a list ordered by creation time can show a later date below an earlier one |
| `ContentListView.AuthorShown` | src/components/content/content-list.tsx:166 | the author column shows the author's name when there is one, and "Unknown" otherwise |
| `ContentListView.SlugLine` | src/components/content/content-list.tsx:151-152 | the feed page never shows a slug line; every other page shows one exactly when the slug is non-empty, and it shows the slug itself |
| `Navigation.IsActive` | src/components/layout/sidebar.tsx:37-39 | a link other than the dashboard is lit exactly when the path starts with it; the dashboard only on itself |
| `Navigation.ActiveOnOwnPage` | src/components/layout/sidebar.tsx:37-39 | every link is lit on its own page |
| `Navigation.PrefixIsCharacterwise` | src/components/layout/sidebar.tsx:37 | the prefix test is on characters: the blog link is lit on "/admin/blogroll", and the dashboard is not lit on the blog page |
| `Navigation.AtMostOneActive` | src/config/site-config.tsx:12-48 | on any path at most one of the seven menu links is lit |
| `Navigation.EditorReturnsToMenuPage` | src/components/editor/content-editor.tsx:158-166 | every page the editor returns to is a menu link, and that link is lit there |
| `ResourcePage.AddAttachment` | src/app/admin/resources/new/page.tsx:42-47 | adding appends one empty row; the rest of the form is unchanged |
| `ResourcePage.Splice1` | src/app/admin/resources/new/page.tsx:51 | an index inside the list removes exactly that row; a negative index counts from the end, and one below minus the length removes the first row; an index past the end removes nothing |
| `ResourcePage.RemoveAttachment` | src/app/admin/resources/new/page.tsx:49-53 | only the attachment list changes, as `splice(index, 1)` changes it |
| `ResourcePage.UpdateAttachment` | src/app/admin/resources/new/page.tsx:55-59 | only the chosen field of the chosen row changes; length, other rows and the rest of the form are kept |
| `ResourcePage.RemoveUndoesAdd` | src/app/admin/resources/new/page.tsx:42-53 | removing the row just added, by its index or by -1, gives the form back |
| `ResourcePage.ResourceSlug` | src/app/admin/resources/new/page.tsx:67 | a typed slug is sent verbatim; otherwise the slug derived from the title, which is well formed |
| `ResourcePage.PayloadAttachmentsAndCategories` | src/app/admin/resources/new/page.tsx:74-76 | only rows with a URL are sent, each as often as it appears and in their order; the categories are sent as their parsed, clean list |
| `ResourcePage.PayloadKeys` | src/app/admin/resources/new/page.tsx:65-78 | the body has type "resource" only in camelCase, the slug, the version and the metadata, and no `parent_id` |
| `ResourcePage.ParentIdDropped` | src/app/admin/resources/new/page.tsx:73 | as written, the stored row never has a parent; its type, slug, version and categories do arrive |
| `ResourcePage.SummaryAndAttachmentsDropped` | src/app/admin/resources/new/page.tsx:68-74 | the summary and the attachments are not stored |
| `ResourcePage.ParentIdStored` | src/app/admin/resources/new/page.tsx:73 | with the key corrected, the chosen parent is stored, and no choice is stored as null |
| `UpdatePage.DefaultIsMinorFeature` | src/app/admin/updates/new/page.tsx:17-24 | a new update starts as a minor feature |
| `UpdatePage.UpdateSlug` | src/app/admin/updates/new/page.tsx:33 | the slug is the one derived from "v", the version, "-" and the title; it is well formed and always starts with 'v' |
| `UpdatePage.UpdateSlugAlnums` | src/app/admin/updates/new/page.tsx:33 | the slug's letters and digits are 'v', then the version's, then the title's, lower-cased |
| `UpdatePage.PayloadKeys` | src/app/admin/updates/new/page.tsx:30-44 | the body has type "update" only in camelCase, the slug, the version and an empty metadata object, and no `update_type` |
| `UpdatePage.UpdateTypeDropped` | src/app/admin/updates/new/page.tsx:37 | as written, the chosen update type never reaches the row; type, slug, version and empty metadata do |
| `UpdatePage.ImpactAndSummaryDropped` | src/app/admin/updates/new/page.tsx:38-39 | the impact level and the summary are not stored |
| `UpdatePage.UpdateTypeStored` | src/app/admin/updates/new/page.tsx:37 | with the key corrected, the chosen update type is stored |
| `SocialPage.PickerMatchesModel` | src/app/admin/social/new/page.tsx:13-28 | the picker offers exactly the model's six platforms in order, and the form starts on the first, Instagram |
| `SocialPage.SocialSlug` | src/app/admin/social/new/page.tsx:42 | the slug is the title's slug and a '-', followed by exactly the clock reading in decimal |
| `SocialPage.SlugsDistinctInTime` | src/app/admin/social/new/page.tsx:42 | two reposts with the same title get the same slug exactly when made at the same instant |
| `SocialPage.TrailingPunctuationDoublesHyphen` | src/app/admin/social/new/page.tsx:42 | a title ending in punctuation leaves "--" before the timestamp, so the slug is not well formed |
| `SocialPage.NonEmpty` | src/app/admin/social/new/page.tsx:46-47 | an empty text leaves the key out, and a non-empty one is sent as it is |
| `SocialPage.PayloadKeys` | src/app/admin/social/new/page.tsx:39-52 | embed code and post URL are present exactly when non-empty; type "social" only in camelCase; slug, platform and tags metadata as built |
| `SocialPage.LinksDropped` | src/app/admin/social/new/page.tsx:46-48 | the embed code, the post URL and the description are not stored |
| `SocialPage.StoredRepost` | src/app/admin/social/new/page.tsx:39-52 | the row has type "social", which is no content type, with the slug, the platform and the parsed tags, and without the links and the description |

## Left out

- Storage, authentication and the query builder: the store is a sequence of rows or an error, and the session user is an optional parameter.
- The ISO clock, `Date.now()` and `toLocaleDateString`: times are parameters or opaque ordered integers, and the date shown is the timestamp itself.
- Ties in `created_at` and `deleted_at`: the store may order them any way; the model fixes one stable order.
- Unicode: lower-casing, trimming and the slug regex are modelled on ASCII only.
- `parseInt` of page and limit: they are integers, so NaN and fractions are not modelled. A zero limit gives a null page count, as `Math.ceil` of Infinity or NaN does once serialised.
- Numbers in JSON are integers.
- Spreading a value that is not an object contributes nothing, as the model's `Fields` says. JavaScript would also spread strings and arrays by index.
- Request bodies that are not objects are not modelled.
- Keys inherited through the prototype chain are not modelled.
- The per-record endpoints for read, update, delete, restore and purge are not part of this model; the editor's fetch in edit mode is represented only by its result `data`.
- The filters that the list handler does not implement: search, platform, update type, parent and exclusion of trashed rows.
- The FAQ builder assigns to the old row object in place before copying the metadata; the model builds a new row object. The state that results is the same.
- React state timing, effects, alerts, routing and rendering are not modelled, beyond the pure state updates above. The mobile header's highlighting is the same expression as the sidebar's.
- The resource page's request for parent options is not modelled; it sends `parentId=root`, which the list handler ignores.
- `Models.Content`: the type and status are closed enumerations, so a stored row of type "social", or with a status outside the three, which the create handler stores as given, is outside the rows the list and trash handlers are modelled over; the create handler and the pages keep such values as strings.
- `ContentListView.FilterShowsMatchingRows`: states which rows may appear and their order; the exact set shown is `ContentListView.FirstHundredOnly`.

## Findings

| source | as written | input that shows it | evidently intended | confidence | as-written member | corrected member |
|---|---|---|---|---|---|---|
| src/app/admin/resources/new/page.tsx:73 | the page posts the parent as `parentId`, and the create handler reads only `parent_id` (src/app/api/content/route.ts:86) | any form with `parentId` = "abc": the stored row has no `parent_id` | the chosen parent is stored in `parent_id`, and no choice is stored as null | not executed | `ResourcePage.ParentIdDropped` | `ResourcePage.ParentIdStored` |
| src/app/admin/updates/new/page.tsx:37 | the page posts the type as `updateType`, and the create handler reads only `update_type` (src/app/api/content/route.ts:83) | any form with update type "fix": the stored row has no `update_type` | the chosen update type is stored in `update_type` | not executed | `UpdatePage.UpdateTypeDropped` | `UpdatePage.UpdateTypeStored` |
