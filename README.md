# Wielabs challenge: YC crawler and CSV loader, modelled in Dafny

The repository has two small programs, and this project models both.

**The YC crawler** (`challenge-2/crawlerPage.ts`). It is seeded with the Y Combinator page URL of every
company and runs with a concurrency of one. A URL that starts with
`https://www.ycombinator.com/companies` is a company page. On such a page the crawler does two things:
- it queues the page's launch post URLs;
- it appends one `CompanyDetails` record to `companyDetailsArray`.

Any other URL is a launch post page. Its post is appended to the `launches` of the first record
that has the post's company name.

**The CSV loader** (`challenge-1/createSchema.ts`, `challenge-1/insertData.ts`).
- Schema: it creates one SQLite table per CSV file. An auto-increment `id` comes first, then one
  non-nullable column per header. Headers whose lower-cased form is `index` are left out. The column
  type is `date` when the lower-cased header contains `date`. Otherwise it is `integer` when the header
  contains `number of employees`, and `string` in every other case.
- Data: it buffers every row without its `Index` entry. At the end of each file it splits the
  buffer into batches of at most 500 rows and makes one `batchInsert` per batch, in order.

## Modules

| file | module | what it holds |
|---|---|---|
| `wrappers.dfy` | `Wrappers` | `Option`, which stands for `undefined` |
| `seqs.dfy` | `Seqs` | `Filter` (the `Array.prototype.filter` semantics) and `Flatten` |
| `text.dfy` | `Text` | ASCII `toLowerCase`, `includes`, decimal printing of numbers, splitting at a character |
| `interfaces.dfy` | `Interfaces` | the crawler's output records |
| `payload.dfy` | `Payload` | the decoded `data-page` JSON that the handlers read, and the result of a fetch |
| `date_format.dfy` | `DateFormat` | the launch post's `D/M/YYYY at H:MM` date |
| `youtube.dfy` | `Youtube` | the YouTube link regular expression as a leftmost scan |
| `field_mapping.dfy` | `FieldMapping` | the `x \|\| undefined` mappings, the answered-question filter, the two record builders |
| `crawler_page.dfy` | `CrawlerPage` | the URL classifier, the class `Crawler` (request list, request queue, `companyDetailsArray`, the two handlers, the run loop) and `StartCrawling` |
| `create_schema.dfy` | `CreateSchema` | the header filter, the table name, the column definitions, the column builder |
| `insert_data.dfy` | `InsertData` | the row filter, the `reduce` batching, the class `Loader` (row buffers and `batchInsert` calls) and `Load` |
| `header_consistency.dfy` | `HeaderConsistency` | where the schema's `index` filter and the loader's `Index` filter agree |

## Modelling choices

- **Drain policy.** The crawler uses a request list and a request queue together. The model takes
  every seed URL from the list first, in seed order. After that it takes the queued launch URLs
  first-in first-out. `Crawler.Valid` states this policy, and `StartCrawling` guarantees that the
  seeds come first. The crawling library drains its shared sources in this order. In the model,
  neither source removes duplicates.
- **Enqueue before push.** In the code, the company handler queues the launch URLs (lines 40-46)
  *before* it pushes its record (line 140). The handler only returns once both are done, and one
  request is handled at a time. The method's body keeps that order. Its contract states the state
  after the call: the queue has grown by the launch URLs and the store by the one record.
  - `CrawlerPage.RecordPersists` proves that a record, once created, stays findable by its name for
    the rest of the run.
  - `CrawlerPage.LaunchAttachesAfterCompany` proves that a launch page visited after that record is
    attached to the first record of that name.

  Both need the post's `companyName` to equal the company's `name`. Nothing in the payload
  guarantees this, and the crawler does not check it.
- **Visit order.** `InTurn` says that every visit of a run was the next pending request when it
  was taken: the seeds in order, then the queue as the earlier visits had grown it. `Run` and
  `StartCrawling` guarantee it. So the visits are determined by the pages fetched. For a crawl
  that ran until nothing was pending, `LaunchVisitedAfterCompany` shows that every launch URL of a
  company page is visited after that page, which is the order `LaunchAttachesAfterCompany` needs.
- **Records and seeds.** The store only grows: `ReplayLaunchesGrow` shows that no record and no
  launch post is ever removed or overwritten. There is one record per seed at most only when no queued
  URL creates one (`RecordsAtMostSeeds`). A launch URL that starts with the company prefix is handled
  as a company page, and `QueuedCompanyPage` shows the two records this gives from one seed.
- **Replaying a run.** `StepStore` and `StepQueue` give the store and the queue after one handled
  page. `ReplayStore` and `ReplayQueue` give them after a sequence of visits. `Crawler.Step`,
  `Crawler.Run` and `StartCrawling` state their results through these functions.
- **Fetching and decoding.** The page fetch and the `JSON.parse` of the `data-page` attribute are
  one function parameter, `fetch: string -> Fetched`.
  - A failed fetch abandons the request.
  - A page without the attribute is `NoPayload`: nothing changes.
  - A payload of the wrong shape makes the handler throw. When it throws before line 42 (the
    payload, `props.company` or `props.launches` is missing), nothing has changed. The model reports
    `Failed` and changes nothing.
  - A company payload with `company` and `launches` but without `founders`, `jobPostings`,
    `newsItems` or the question answers throws after the launch URLs are queued. That is
    `PartialCompanyProps`: the URLs are queued, no record is pushed, and the outcome is `Failed`.
    Its launch posts later find no record unless another record has the same name.
- **Dates.** `DateFormat.ParseDate` is a reference reader for the launch date. It accepts a day,
  month, year and hour only without leading zeros, and minutes only as the code writes them: a `0` in front
  exactly when `getMinutes()` is below ten.
  `ParseFormatDate` and `ParseDateOnlyFormat` together show that `FormatDate` prints exactly the
  one string this reader maps to the date.
- **Run bound.** The queue has no de-duplication, so a run has no bound the model could prove.
  `Crawler.Run` takes a `budget` of requests. When it stops before the budget, both sources are
  drained and every queued URL was visited.
- **`|| undefined`.** A string field becomes absent when it is missing or empty. `is_active`
  survives only when it is `true`.
- **`LocatedAt`.** `interfaces.ts` declares `location`, `city` and `country` as strings. The code
  stores `undefined` for empty ones, so the model's fields are `Option<string>`.
- **The `index` filters.** The schema drops every header that lower-cases to `index`. The loader
  drops only the key spelled exactly `Index`.
  - `HeaderConsistency.RowMatchesSchema` proves that the row keys equal the table's columns exactly
    when no header is another spelling of `index`.
  - `HeaderConsistency.LowercaseIndexHeader` shows the mismatch on the header `index`.
- **Table names.** The schema creates `Organizations` and `Customers`. The loader inserts into
  `customers` and `organizations`. SQLite compares table names without regard to case, so the names
  refer to the same tables. The model keeps the names as written.
- **Batch failures.** A `batchInsert` that throws is caught inside `insertBatch`, and that file's
  remaining batches are skipped. The parameter `accepts` says which calls the database completes.
  A CSV parser error rejects the run. After a customers error the organizations file is not read.

## Model

| member | source | states |
|---|---|---|
| Text.NatToString | challenge-2/crawlerPage.ts:156-158 | the decimal text of a number with no leading zero (a first `0` only for zero itself): one digit exactly below ten, two digits from 10 to 99, and it reads back as the number |
| Text.CanonicalUnique | challenge-2/crawlerPage.ts:156-158 | a numeral without leading zeros is the one printed for its value, so the unpadded text of a number is unique |
| Text.ToLower | challenge-1/createSchema.ts:105-107 | same length, and each character lower-cased on its own |
| Text.Contains | challenge-1/createSchema.ts:51 | `includes`: true exactly when the substring occurs at some index |
| Text.ContainsJoin | challenge-1/createSchema.ts:30-31 | joining with a separator that the substring lacks, onto a tail without the substring, adds no occurrence |
| DateFormat.PaddedMinutes | challenge-2/crawlerPage.ts:157-158 | the minutes read back as themselves; at least two digits, a first `0` exactly below ten and then exactly two; below 60 always two characters |
| DateFormat.FormatDate | challenge-2/crawlerPage.ts:156-158 | the `D/M/YYYY at H:MM` template; what it promises is proved in `ParseFormatDate` and `ParseDateOnlyFormat`, under a parser that accepts only unpadded day, month, year and hours and two-digit minutes below ten |
| DateFormat.ParseFormatDate | challenge-2/crawlerPage.ts:155-158 | the formatted date loses nothing: parsing `D/M/YYYY at H:MM` gives back day, 0-based month, year, hours and minutes |
| DateFormat.ParseDateOnlyFormat | challenge-2/crawlerPage.ts:156-158 | the formatted string is the only string that parses to its date: day, month+1, year and hours unpadded, minutes padded to two digits |
| DateFormat.FieldsOnlyFormat | challenge-2/crawlerPage.ts:156-158 | fields that parse to a date are exactly the ones the template prints for it |
| DateFormat.NumberOnly | challenge-2/crawlerPage.ts:156-157 | a field read as `n` is `n` printed as `${n}` prints it |
| DateFormat.MinutesUnique | challenge-2/crawlerPage.ts:157-158 | a minutes field of the padded form is the one the code's `getMinutes() < 10 ? "0" : ""` prefix gives for its value |
| DateFormat.FieldsOfFormat | challenge-2/crawlerPage.ts:156-158 | each printed field reads back as its value, and the month is printed one higher |
| DateFormat.ParseLayers | challenge-2/crawlerPage.ts:156-158 | the separators `/`, `/`, ` at `, `:` come off in the order the format puts them on |
| DateFormat.MinutesAreTwoDigits | challenge-2/crawlerPage.ts:157-158 | for a clock minute the date ends in `:` and two digits, the first `0` exactly below ten |
| DateFormat.EpochExample | challenge-2/crawlerPage.ts:156-158 | the first minute of 1970 prints as `1/1/1970 at 0:00` |
| Youtube.ExtractLink | challenge-2/crawlerPage.ts:162-165 | absent exactly when the body has no match; otherwise the captured group of the leftmost match, which starts with the watch URL and has no `)` |
| Youtube.CapturedLink | challenge-2/crawlerPage.ts:162 | a captured group is the watch URL plus at least one character, with no `)` |
| Youtube.MatchEndUnique | challenge-2/crawlerPage.ts:162 | a match is determined by where it starts |
| FieldMapping.OrAbsent | challenge-2/crawlerPage.ts:50-54 | a missing or empty string becomes absent; any other value passes unchanged |
| FieldMapping.TrueOrAbsent | challenge-2/crawlerPage.ts:63 | only `true` survives `is_active \|\| undefined`; `false` never appears |
| FieldMapping.JobRecord | challenge-2/crawlerPage.ts:77-87 | every job field is copied; the role-specific type is the job's value when non-empty and absent otherwise |
| FieldMapping.NewsRecord | challenge-2/crawlerPage.ts:90-96 | title, URL and date of the news item are copied |
| FieldMapping.Location | challenge-2/crawlerPage.ts:99-103 | location, city and country are each the company's value when non-empty and absent otherwise |
| FieldMapping.CompanySocials | challenge-2/crawlerPage.ts:49-55 | each of the five links is the company's own value when that is a non-empty string, and absent otherwise |
| FieldMapping.FounderRecord | challenge-2/crawlerPage.ts:59-72 | name and bio copied; the role and the four links are each the founder's value when non-empty and absent otherwise; active exactly when the source says `true`; no CrunchBase link |
| FieldMapping.AnsweredQnA | challenge-2/crawlerPage.ts:109-114 | exactly the answered entries survive, each as often as given |
| FieldMapping.AnsweredQnAConcat | challenge-2/crawlerPage.ts:109-114 | the answered-question filter keeps the order of the entries |
| FieldMapping.QnAField | challenge-2/crawlerPage.ts:135-138 | the field is present exactly when some question was answered, and then it holds the answered entries |
| FieldMapping.CompanyRecord | challenge-2/crawlerPage.ts:116-138 | the record carries the page URL and the company's name, one-liner, description, founding year, team size, website, status and tags; its socials and location are built from the company; founders, jobs and news are built one per input entry, in order; no launches; the question law holds; it is well formed |
| FieldMapping.LaunchRecord | challenge-2/crawlerPage.ts:155-178 | title, tagline, author, vote count, URL and latest flag are copied; the creation date is the formatted date; the YouTube link is the body's extracted link, present exactly when the body matches |
| CrawlerPage.Classify | challenge-2/crawlerPage.ts:199-203 | a company page exactly when the URL starts with the literal prefix |
| CrawlerPage.YcUrls | challenge-2/crawlerPage.ts:124 | the page URL of every record, one per record, in order |
| CrawlerPage.LaunchUrls | challenge-2/crawlerPage.ts:40-44 | one URL per launch, in order |
| CrawlerPage.QueuedLaunches | challenge-2/crawlerPage.ts:40-46 | a company payload, full or partial, queues the URL of each of its launches, in order; no payload, a launch payload or an undecodable one queues nothing |
| CrawlerPage.SeedUrls | challenge-2/crawlerPage.ts:16-18 | one seed per company, its `ycUrl`, in order |
| CrawlerPage.FindByName | challenge-2/crawlerPage.ts:181-183 | `find` by exact name: the index of the first record with that name, and absent exactly when no record has it |
| CrawlerPage.AttachLaunch | challenge-2/crawlerPage.ts:181-184 | the number of records is kept; with no record of that name nothing changes |
| CrawlerPage.AttachLaunchAt | challenge-2/crawlerPage.ts:181-184 | the post is appended to the launches of the first record with the name; every other record and field stays as it was |
| CrawlerPage.AttachLaunchKeeps | challenge-2/crawlerPage.ts:184 | attaching keeps every record's page URL and well-formedness |
| CrawlerPage.AttachAll | challenge-2/crawlerPage.ts:181-184 | handling several launch posts under one name keeps the number of records, and changes nothing when no record has the name |
| CrawlerPage.AttachAllAppends | challenge-2/crawlerPage.ts:181-184 | several launch posts for one company end up, in handling order, at the end of that record's launches, and nothing else changes |
| CrawlerPage.StepStore | challenge-2/crawlerPage.ts:195-204 | one handled page grows the store by one record exactly when it creates a record, and otherwise keeps its length |
| CrawlerPage.StepQueue | challenge-2/crawlerPage.ts:40-46 | one handled page only appends to the queue, and only a fetched company page does |
| CrawlerPage.ReplayStore | challenge-2/crawlerPage.ts:189-211 | a run of visits adds at most one record per visit and removes none |
| CrawlerPage.ReplayQueue | challenge-2/crawlerPage.ts:189-211 | a run of visits only appends to the queue, and only when it visits a company page |
| CrawlerPage.ReplayQueuePrefix | challenge-2/crawlerPage.ts:40-46 | the queue after the first visits of a run is a prefix of the queue after all of them |
| CrawlerPage.Pending | challenge-2/crawlerPage.ts:189-194 | what a crawl still has to take starts with the whole request list, then the queue |
| CrawlerPage.InTurnSnoc | challenge-2/crawlerPage.ts:189-194 | taking the next pending request extends a run in which every visit was taken in turn |
| CrawlerPage.QueuedVisitedLater | challenge-2/crawlerPage.ts:189-211 | in a crawl from the seeds that ran until nothing was pending, a URL queued by visit `i` is visited later, at its place after the seeds |
| CrawlerPage.QueuedByCompany | challenge-2/crawlerPage.ts:40-46 | each launch URL of a record-creating company page is queued by that visit, at a position after the queue it found |
| CrawlerPage.LaunchVisitedAfterCompany | challenge-2/crawlerPage.ts:40-46 | in such a crawl every launch URL of a record-creating company page is visited after that page |
| CrawlerPage.StepLaunchesGrow | challenge-2/crawlerPage.ts:140 | one handled page only appends: records at the end, launch posts at the end of one record, every other field kept |
| CrawlerPage.ReplayLaunchesGrow | challenge-2/crawlerPage.ts:184 | a whole run never removes or overwrites a record or a launch post: each record only gains launch posts at its end |
| CrawlerPage.RecordsAtMostSeeds | challenge-2/crawlerPage.ts:140 | when no visit after the seeds creates a record, a crawl has at most one record per seed |
| CrawlerPage.QueuedCompanyPage | challenge-2/crawlerPage.ts:199-203 | without that condition the bound fails: a seed whose launch list holds a company page gives two records from one seed |
| CrawlerPage.StepUrls | challenge-2/crawlerPage.ts:140 | one handled page adds its URL to the records' URLs exactly when it creates a record |
| CrawlerPage.StepKeepsNames | challenge-2/crawlerPage.ts:181-184 | one handled page never shrinks the store and keeps every record's name |
| CrawlerPage.ReplayUrls | challenge-2/crawlerPage.ts:189-211 | the records' URLs after a run are the old ones followed by the record-creating visits, in order |
| CrawlerPage.RecordPersists | challenge-2/crawlerPage.ts:181-183 | a record created by a visit can still be found by its name at the end of the run |
| CrawlerPage.LaunchAttachesAfterCompany | challenge-2/crawlerPage.ts:150-185 | a launch page visited after its company's record was created, with the record's name as the post's company name, is appended to the first record of that name |
| CrawlerPage.Crawler.constructor | challenge-2/crawlerPage.ts:16-20 | the request list holds the seeds; the queue and the store are empty |
| CrawlerPage.Crawler.AddRequest | challenge-2/crawlerPage.ts:43 | `addRequest` appends the URL to the queue without de-duplication; nothing else changes |
| CrawlerPage.Crawler.NextRequest | challenge-2/crawlerPage.ts:193-194 | the next seed while any remain, then the next queued URL; it is the next entry of the list followed by the queue; the visit is recorded |
| CrawlerPage.Crawler.HandleCompanyPage | challenge-2/crawlerPage.ts:26-141 | with a company payload, the queue grows by the launch URLs in order and the store by the one built record; a partial company payload queues the launch URLs, pushes nothing and fails; with no payload, or one of another shape, nothing changes |
| CrawlerPage.Crawler.HandleLaunchPost | challenge-2/crawlerPage.ts:150-185 | with a launch payload, the built post is attached by the post's company name; the queue, the number of records and their URLs never change |
| CrawlerPage.Crawler.RequestHandler | challenge-2/crawlerPage.ts:195-204 | dispatch on the prefix: a company URL queues its launch URLs and, with a company payload, appends the built record; a launch URL leaves the queue alone and attaches its post by company name |
| CrawlerPage.Crawler.Step | challenge-2/crawlerPage.ts:195-204 | the next entry of the list followed by the queue is taken and recorded; the store and the queue become those of one handled page |
| CrawlerPage.Crawler.Run | challenge-2/crawlerPage.ts:189-211 | at most `budget` requests; every visit was the next pending request when it was taken; the visits are a prefix of the list followed by the queue; the store and the queue are the replay of the visits; stopping early means both sources are drained; the new records' URLs are exactly the record-creating visits, in visit order |
| CrawlerPage.StartCrawling | challenge-2/crawlerPage.ts:14-20 | every visit was the next pending request when it was taken, and the visits are a prefix of the seeds followed by the queue; the records are the replay of the visits from an empty store; their URLs are the record-creating visits, in order; when the budget was not used up the visits are the seeds then every queued URL; every record is well formed |
| CreateSchema.FilterHeaders | challenge-1/createSchema.ts:89 | a header is kept exactly when its lower-cased form is not `index`, as often as given |
| CreateSchema.FilterHeadersConcat | challenge-1/createSchema.ts:89 | the filter keeps the headers in their order |
| CreateSchema.TableName | challenge-1/createSchema.ts:50-56 | `Organizations` exactly when the path contains `organizations`, else `Customers` |
| CreateSchema.GenerateColumnDefinitions | challenge-1/createSchema.ts:102-113 | one definition per header, in order; `date` exactly when the lower-cased header contains `date`; `integer` exactly when it does not but contains `number of employees`; `string` otherwise |
| CreateSchema.KindOf | challenge-1/createSchema.ts:65-71 | each column type selects its own Knex builder, and none is the auto-increment |
| CreateSchema.BuildColumns | challenge-1/createSchema.ts:61-73 | the primary key `id` first, then one non-nullable column of the chosen type per definition, in order |
| CreateSchema.CreateTableFromCsv | challenge-1/createSchema.ts:49-74 | the table name law; `id` first; then one non-nullable, non-primary column per kept header, none named `index` in any case, of kind date, integer or string by the header's lower-cased text |
| CreateSchema.JoinPath | challenge-1/createSchema.ts:30-31 | the directory, one `/`, then the file name |
| CreateSchema.OrganizationsPath | challenge-1/createSchema.ts:30 | the organizations file's path always selects `Organizations` |
| CreateSchema.CustomersPath | challenge-1/createSchema.ts:31 | the customers file's path selects `Organizations` exactly when its directory name contains `organizations` |
| CreateSchema.CreateSchemaTables | challenge-1/createSchema.ts:18-41 | two tables, `Organizations` then `Customers`, unless the directory name contains `organizations`; then the second `createTable` throws and only one table exists |
| InsertData.FilterRow | challenge-1/insertData.ts:78-80 | the filtered row is never longer than the row |
| InsertData.FilterRowEntries | challenge-1/insertData.ts:78-80 | exactly the entries whose key is not spelled `Index` survive, each as often as given |
| InsertData.FilterRows | challenge-1/insertData.ts:76-81 | the buffer holds one filtered row per row read, in order |
| InsertData.FilterRowsEntries | challenge-1/insertData.ts:76-81 | buffering one more row appends its filtered form; each buffered row keeps exactly its entries not keyed `Index` |
| InsertData.Chunk | challenge-1/insertData.ts:44-52 | the reference batching always has at least one batch |
| InsertData.AddToBatches | challenge-1/insertData.ts:45-50 | one `reduce` step appends the row to the batched rows; it opens a new batch exactly when the last one is full |
| InsertData.ChunkFlatten | challenge-1/insertData.ts:44-52 | the batches hold exactly the rows, in order |
| InsertData.ChunkShape | challenge-1/insertData.ts:44-52 | at least one batch; none above 500; all but the last full; no rows give the single empty batch, otherwise there are ceil(n/500) batches and none is empty |
| InsertData.ChunkSnoc | challenge-1/insertData.ts:45-50 | one `reduce` step extends the batching of the rows by one row |
| InsertData.SplitBatches | challenge-1/insertData.ts:44-52 | the `reduce` seeded with `[[]]` computes the reference batching |
| InsertData.AttemptsShape | challenge-1/insertData.ts:55-62 | one call per batch, in order; every call but the last completed; the calls stop short only at a call that threw |
| InsertData.Attempts | challenge-1/insertData.ts:55-62 | at most one call per batch |
| InsertData.AllAccepted | challenge-1/insertData.ts:55-58 | when the database completes every call, every row reaches it once, in order |
| InsertData.Loader.constructor | challenge-1/insertData.ts:65-66 | both row buffers start empty, with no calls made |
| InsertData.Loader.OnData | challenge-1/insertData.ts:76-82 | the filtered row is appended to its file's buffer; nothing else changes; no buffered row has an `Index` entry |
| InsertData.Loader.InsertBatch | challenge-1/insertData.ts:39-63 | the calls made are the attempts over the reference batching; the buffers are untouched |
| InsertData.Loader.OnEnd | challenge-1/insertData.ts:83-94 | the buffer's batches are inserted into the file's table and the buffer is reset to empty; the organizations handler closes the connection |
| InsertData.Loader.OnError | challenge-1/insertData.ts:95-98 | no insert is made; only the organizations reader closes the connection |
| InsertData.Loader.ReadFile | challenge-1/insertData.ts:73-99 | it resolves exactly when the stream ends normally; then the calls are the batches of the filtered rows and the buffer is empty; on an error the filtered rows stay buffered and nothing is inserted |
| InsertData.Load | challenge-1/insertData.ts:13-128 | it completes exactly when neither file fails to read; the customers calls come first, then the organizations calls; a customers read error makes no call at all |
| HeaderConsistency.KeysFilterRow | challenge-1/insertData.ts:78-80 | filtering a row's entries filters its keys the same way |
| HeaderConsistency.RowMatchesSchema | challenge-1/createSchema.ts:89 | a row's filtered keys equal the table's columns exactly when every header that lower-cases to `index` is spelled `Index` |
| HeaderConsistency.LowercaseIndexHeader | challenge-1/insertData.ts:79 | a file headed `index` keeps that key in its rows but gets no such column |

## Left out

- Fetching, Cheerio, the `div[data-page]` lookup and `JSON.parse`: one function parameter stands
  for all of them.
- Payload typing: a decoded payload has one of the expected shapes. A payload that makes a handler
  throw is `Undecodable` (nothing changed) or `PartialCompanyProps` (the launch URLs already
  queued). A field of the wrong type that JavaScript would pass through silently is not modelled.
- The crawling library's own behaviour is not modelled:
  - retries of failed requests;
  - the request list's persistence and its removal of duplicate seeds;
  - the queue's uniqueness keys.

  A failed fetch abandons the request, and every `addRequest` appends.
- `maxConcurrency: 1` and `Promise.all` over `addRequest`: the model is sequential, and the launch
  URLs are queued in array order.
- CrawlerPage.Crawler.Run: carries a request `budget`, because without de-duplication the run has
  no bound to prove.
- CrawlerPage.StartCrawling: models a single call. In the source `companyDetailsArray` is a module
  constant, so a second call in the same process would see the first call's records.
- `new Date(...)` and time zones: the creation time arrives already split into local day, month,
  year, hours and minutes.
- Text.ToLower: lower-cases ASCII letters only. The code's comparisons are against `index`, `date`
  and `number of employees`, which are ASCII. A non-ASCII letter whose lower-case form is ASCII (the
  Kelvin sign) is not folded.
- CreateSchema.JoinPath: joins with `/` and does not normalise `.`, `..` or a trailing separator,
  as `path.join` does.
- `Object.entries` and `Object.fromEntries`: a row is its entries in header order. Duplicate
  headers are not merged.
- Row values are strings. The database's conversions into `integer` and `date` columns are not
  modelled.
- The archive download, extraction and directory creation (`downloadFile.ts`, `extractFolder.ts`,
  `makeDirs.ts`) and `challenge.ts` are not part of this model.
- A read-stream error from `fs.createReadStream`, such as a missing file: `.pipe()` does not
  forward it to the parser, so it is an uncaught exception and not a rejection. The model's read
  errors are the parser's `error` events only.
- CSV parsing and the database itself (fast-csv, Knex). A `batchInsert` is a recorded call whose
  outcome the `accepts` parameter gives. A database error other than a duplicate table in
  `createSchema` is not modelled.
- `console.log` and `console.error` output, including the per-batch message that always says 500
  rows.
