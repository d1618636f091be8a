# Sunnie skincare — a verified model of the server core

This project models the server side of the Sunnie skincare / Sunnie Code site in Dafny.

- **Store:** the in-memory store (`MemStorage`) holds users, blog posts, skin analyses, company services and portfolio items.
- **Record building:** how the store fills defaults when it creates a record, and how partial updates are merged into it.
- **Listings:** the filtered and sorted listings that the public and admin pages read.
- **API handlers:** the Express handlers for blog posts, image upload, multi-platform blog generation, skin analysis and statistics.
- **Reply normalisation:** how the AI gateway turns whatever the language model returned into a blog or skin-analysis result. This covers both the live gateway and the legacy one.
- **Client helpers:** the validators and formatters used by the client.

Each module follows one part of the program:

| module | file | models |
|---|---|---|
| `Js` | js.dfy | the JavaScript semantics the code relies on: `\|\|` against `??`, `Math.round(total / n)`, and `parseInt` on a route parameter |
| `Listing` | listing.dfy | `Array.from(map.values())` in insertion order, `filter`, the stable `sort`, and `find` |
| `Schema` | schema.dfy | the table records, the insert and update schemas, and the zod schema for manual blog input |
| `Storage` | storage.dfy | `MemStorage` as a class with one `map` field per table and one id counter per table |
| `Upstream` | upstream.dfy | the shape of an upstream reply (`choices[0].message.content` parsed as JSON), and the score clamp `Math.max(1, Math.min(100, x \|\| d))` |
| `Gateway` | gateway.dfy | server/lib/openai-new.ts: the three platform variants and the skin analysis |
| `LegacyGateway` | legacy_gateway.dfy | server/lib/openai.ts: the legacy skin analysis and the Instagram reel analysis |
| `Routes` | routes.dfy | the handlers of server/routes.ts, each with its status code and message |
| `ClientUtils` | client_utils.dfy | client/src/lib/openai.ts: the Instagram URL check and the SEO score label and colour |

**Ids, listing order and sorting.** Ids come from per-table counters that only grow. A JavaScript `Map` therefore yields its values in ascending id order. Every listing is modelled as the stored values taken in ascending key order, then filtered, then sorted with a stable insertion sort. The listing contracts say:

- which records appear, and that each appears once;
- the sort order;
- that ties keep ascending id order, because `Array.prototype.sort` is stable.

**Time.** Timestamps are integers.

- The clock reading of each operation is a parameter.
- The calendar functions `getMonth`/`getFullYear` are function parameters.
- `/api/stats` reads the clock twice, once for the month and once for the year, so `Routes.GetStats` takes two readings.

**Upstream replies.** The language model's reply is a parameter of type `Upstream.Reply`:

- a failed call;
- empty content, which is read as `"{}"`;
- content that is not a JSON object literal, or is `null`, on which reading a field throws;
- a parsed object, given as its fields.

## Model

| member | source | states |
|---|---|---|
| `Js.RoundedMean` | server/routes.ts:233 | `Math.round(total / n)` is the integer nearest the mean, with halves rounded up: `2*total - n < 2*n*r <= 2*total + n` |
| `Js.RoundedMeanBounds` | server/routes.ts:232-236 | if every element lies in `[lo, hi]`, the rounded mean lies in `[lo, hi]` too |
| `Js.DecimalValue` | server/routes.ts:129 | the decimal digits written for `n` are worth `n` |
| `Js.UnsignedDecimal` | server/routes.ts:129 | the unsigned part of `parseInt` reads back the decimal form of `n`, whatever non-digit text follows |
| `Js.ParseIntDecimal` | server/routes.ts:129 | `parseInt(String(n) + tail)` is `n` when `tail` does not continue the number, so `"12abc"` gives 12 |
| `Js.ParseIntNegativeDecimal` | server/routes.ts:129 | `parseInt("-" + String(n) + tail)` is `-n` |
| `Js.ParseIntNoDigits` | server/routes.ts:129 | a parameter without a decimal digit parses to NaN (`None`) |
| `Listing.InsertionOrderContents` | server/storage.ts:152 | `Array.from(map.values())` holds exactly the stored values, once each, in ascending key order |
| `Listing.Filter` | server/storage.ts:153-155 | `filter` returns only accepted elements drawn from the input, loses no accepted element, and keeping all of them changes nothing |
| `Listing.FilterMultiplicity` | server/storage.ts:153-155 | every accepted element occurs in the result exactly as often as in the input, and no rejected element occurs |
| `Listing.FilterAppend` | server/storage.ts:153-155 | filtering a concatenation is the concatenation of the filtered parts, so the kept elements keep their input order |
| `Listing.FilterSingleton` | server/storage.ts:153-155 | a one-element list keeps its element exactly when the predicate accepts it |
| `Listing.FilterCount` | server/routes.ts:227-230 | the filtered length is the number of positions whose element is accepted |
| `Listing.DistinctFilterCount` | server/routes.ts:227-230 | in a list without repeats, the filtered length is the number of distinct accepted elements |
| `Listing.FilterExtremes` | server/routes.ts:227-230 | accepting every element keeps the whole length, and accepting none leaves nothing |
| `Listing.SortDesc` | server/storage.ts:157-159 | sorting by `b.createdAt - a.createdAt` yields a non-increasing permutation of the input |
| `Listing.SortAsc` | server/storage.ts:232 | sorting by `a.order - b.order` yields a non-decreasing permutation of the input |
| `Listing.SortDescStable` | server/storage.ts:157-159 | the sort is stable: equal keys keep their earlier (ascending id) order |
| `Listing.SortAscStable` | server/storage.ts:232 | the ascending sort is stable in the same sense |
| `Listing.FindInOrder` | server/storage.ts:134-136 | `find` over the values returns a matching value with the smallest key, or nothing when no value matches |
| `Listing.SelectDesc` | server/storage.ts:151-160 | values-filter-sort: exactly the accepted stored values, once each, newest first, ties by ascending id |
| `Listing.SelectAsc` | server/storage.ts:229-233 | the same with the smallest key first |
| `Listing.DisjointCount` | server/storage.ts:153-154 | two duplicate-free listings with no common element, both drawn from a third listing, are together no longer than it |
| `Schema.ParseInsertBlogPost` | shared/schema.ts:12-27 | an insert body is accepted exactly when the four not-null columns without a default are present; the present optional columns are carried over |
| `Schema.ParseManualBlogContent` | shared/schema.ts:81-89 | the manual blog input is accepted exactly when the outline has at least 50 characters, there is at least one before/after image, and `skinType`/`treatmentType` are absent or in their enums; a rejection lists at least one issue, naming the short outline and the empty image list |
| `Storage.NewUser` | server/storage.ts:139-148 | a new user keeps its name and password, and gets role `"user"` when the role is missing or empty |
| `Storage.NewBlogPost` | server/storage.ts:166-184 | a new post is stamped with `now` twice; an empty thumbnail becomes `null`; an empty platform or status takes `"basic"`/`"draft"`; missing images, views, likes and score take `[]`/0 |
| `Storage.ApplyBlogPostUpdate` | server/storage.ts:189-197 | a merged update keeps id and creation time, refreshes `updatedAt`, and changes exactly the fields present in the update |
| `Storage.EmptyUpdateOnlyTouches` | server/storage.ts:193-197 | an empty update body changes nothing but `updatedAt` |
| `Storage.UpdateIdempotent` | server/storage.ts:193-197 | applying the same update twice gives the same post as applying it once |
| `Storage.NewSkinAnalysis` | server/storage.ts:207-213 | a new analysis keeps every field it was given and is stamped with its id and `now` |
| `Storage.NewService` | server/storage.ts:235-246 | a new service keeps a given `false`/`0` (`??` not `\|\|`), and defaults `isActive` to `true` and `order` to 0 only when they are missing |
| `Storage.ApplyServiceUpdate` | server/storage.ts:251-258 | a partial service update keeps id and creation time and changes exactly the present fields |
| `Storage.NewPortfolio` | server/storage.ts:270-282 | a new portfolio item keeps its fields, and `isActive` defaults to `true` only when missing |
| `Storage.ApplyPortfolioUpdate` | server/storage.ts:287-294 | a partial portfolio update keeps id and creation time and changes exactly the present fields |
| `Storage.MemStorage.constructor` | server/storage.ts:61-75 | a new store is empty apart from the three demo services and two demo portfolio items, with ids 1.. and counters one past them |
| `Storage.MemStorage.InitializeDemoData` | server/storage.ts:77-126 | seeding stores the demo services with ids 1-3 and the demo portfolio with ids 1-2 |
| `Storage.MemStorage.GetUser` | server/storage.ts:129-131 | returns the user stored under the id, or nothing when there is none |
| `Storage.MemStorage.GetUserByUsername` | server/storage.ts:133-137 | returns the earliest-created user with that name, or nothing when no user has it |
| `Storage.MemStorage.CreateUser` | server/storage.ts:139-148 | stores the new user under a fresh id greater than every existing one, and bumps the counter |
| `Storage.MemStorage.GetBlogPosts` | server/storage.ts:151-160 | the published or draft posts (or all), each once, newest first, ties by ascending id |
| `Storage.MemStorage.GetBlogPost` | server/storage.ts:162-164 | returns the post stored under the id, or nothing |
| `Storage.MemStorage.CreateBlogPost` | server/storage.ts:166-187 | stores the new post under a fresh id greater than every existing one, and leaves other posts alone |
| `Storage.MemStorage.UpdateBlogPost` | server/storage.ts:189-200 | a missing id changes nothing and returns nothing; otherwise only that post is replaced by the merged one |
| `Storage.MemStorage.DeleteBlogPost` | server/storage.ts:202-204 | reports whether the id was present and removes exactly that post |
| `Storage.MemStorage.CreateSkinAnalysis` | server/storage.ts:207-216 | stores the new analysis under a fresh id |
| `Storage.MemStorage.GetSkinAnalyses` | server/storage.ts:218-222 | every analysis once, newest first, ties by ascending id |
| `Storage.MemStorage.GetSkinAnalysis` | server/storage.ts:224-226 | returns the analysis stored under the id, or nothing |
| `Storage.MemStorage.GetServices` | server/storage.ts:229-233 | the active services, each once, by ascending `order`, ties by ascending id |
| `Storage.MemStorage.CreateService` | server/storage.ts:235-249 | stores the new service under a fresh id |
| `Storage.MemStorage.UpdateService` | server/storage.ts:251-261 | a missing id changes nothing; otherwise only that service is replaced by the merged one |
| `Storage.MemStorage.GetPortfolio` | server/storage.ts:264-268 | the active portfolio items, each once, newest first, ties by ascending id |
| `Storage.MemStorage.CreatePortfolio` | server/storage.ts:270-285 | stores the new item under a fresh id |
| `Storage.MemStorage.UpdatePortfolio` | server/storage.ts:287-297 | a missing id changes nothing; otherwise only that item is replaced by the merged one |
| `Storage.PublishedDraftPartition` | server/storage.ts:151-160 | the published and draft listings share no post, both lie within the full listing, and together they are no longer than it |
| `Upstream.FieldsOf` | server/lib/openai-new.ts:182-184 | `JSON.parse(content \|\| "{}")` fails exactly on a failed call or unparsable content, and empty content reads as `{}` |
| `Upstream.ClampScore` | server/lib/openai-new.ts:270-273 | `Math.max(1, Math.min(100, x \|\| d))` is always in [1, 100]: in-range values pass, large ones give 100, negative ones give 1, missing or 0 gives the default |
| `Upstream.ClampIdempotent` | server/lib/openai-new.ts:270-273 | clamping a clamped score changes nothing |
| `Upstream.ClampMonotone` | server/lib/openai-new.ts:270-273 | clamping preserves order on positive scores |
| `Upstream.NormaliseSkin` | server/lib/openai-new.ts:269-279 | every skin level is the clamped reply value, and recommendations default only when missing |
| `Upstream.EmptySkinGivesDefaults` | server/lib/openai-new.ts:269-279 | an empty reply yields exactly the defaults |
| `Upstream.InRangeReplyUnchanged` | server/lib/openai-new.ts:269-279 | a reply whose levels are already in range comes back unchanged |
| `Gateway.NormaliseBasic` | server/lib/openai-new.ts:187-193 | each basic field is the reply's value when truthy and its default otherwise, so title, content and excerpt are never empty |
| `Gateway.NormaliseNaver` | server/lib/openai-new.ts:194-201 | the same for the Naver variant, including `tags` |
| `Gateway.NormaliseTistory` | server/lib/openai-new.ts:202-209 | the same for the Tistory variant, including `categories` |
| `Gateway.GenerateMultiPlatformBlog` | server/lib/openai-new.ts:182-215 | fails with the generic Korean error exactly when one of the three calls fails or its content cannot be read; otherwise each variant is its normalised reply |
| `Gateway.NoContentGivesDefaults` | server/lib/openai-new.ts:186-210 | three empty replies yield the three default variants |
| `Gateway.EmptyKeywordsKept` | server/lib/openai-new.ts:191 | an empty `keywords` array is truthy and is kept, not defaulted |
| `Gateway.SeoScoreNotClamped` | server/lib/openai-new.ts:192-200 | the blog `seoScore` is not clamped: 150 and -5 pass through |
| `Gateway.AnalyzeSkinImage` | server/lib/openai-new.ts:218-284 | fails exactly on an unusable reply; otherwise every level is in [1, 100] and an empty reply gives 75/60/50/30 with three recommendations |
| `LegacyGateway.AnalyzeSkinImage` | server/lib/openai.ts:289-351 | the legacy analysis: same failure cases, levels in [1, 100], empty reply gives 70/70/50/30 and one recommendation |
| `LegacyGateway.NormaliseReel` | server/lib/openai.ts:276-282 | the reel blog normaliser: title, content and excerpt are the reply's non-empty text or the reel fallback text; keywords are the reply's list when given, otherwise the five reel keywords; the score is the reply's value in [1, 100], 100 above that, 1 below 0, and 85 when missing or 0 |
| `LegacyGateway.AnalyzeInstagramReel` | server/lib/openai.ts:219-287 | always fails with the reel error, because the helper it calls first is not defined anywhere |
| `Routes.ListPublishedPosts` | server/routes.ts:25-32 | `GET /api/blog-posts` answers 200 with exactly the published posts, each once, newest first, equal creation times in ascending id order |
| `Routes.ListAllPosts` | server/routes.ts:35-42 | `GET /api/admin/blog-posts` answers 200 with every post, each once, newest first, equal creation times in ascending id order |
| `Routes.ParseDataUrl` | server/routes.ts:52-55 | the inverse of the data-URL template: whatever it accepts is the template applied to its result |
| `Routes.DataUrlRoundTrip` | server/routes.ts:52-55 | `data:${mimetype};base64,${payload}` reads back its MIME type and payload when the type has no `;` |
| `Routes.DataUrlInjective` | server/routes.ts:52-55 | two files whose MIME types contain no `;` and that differ in MIME type or payload never get the same URL; the `;` condition is needed, since `a;base64,x` with payload `y` and `a` with payload `x;base64,y` give one URL |
| `Routes.UploadImages` | server/routes.ts:45-62 | answers 400 exactly when no file arrived; otherwise the i-th answer is `data:<mimetype>;base64,<base64 of buffer>` of the i-th file, and for a MIME type without `;` it reads back to that type and payload |
| `Routes.PostImages` | server/routes.ts:85 | the post's images are the before/after images, then the product images, then the overview images |
| `Routes.GeneratedInsert` | server/routes.ts:80-89 | the stored post takes the basic variant's text, keywords and score, status `"published"` and platform `"basic"` |
| `Routes.GenerateBlog` | server/routes.ts:65-105 | answers 400 with the validation issues on bad input and 500 on a failed generation, changing nothing; otherwise it stores exactly one new published post, whose title, content, excerpt, keywords and score are the basic variant's, with no thumbnail, the submitted images, zero views and likes and both stamps `now`, and returns it with the three variants |
| `Routes.ListServices` | server/routes.ts:108-115 | `GET /api/services` answers with exactly the active services, each once, by ascending `order`, equal orders in ascending id order |
| `Routes.ListPortfolio` | server/routes.ts:118-125 | `GET /api/portfolio` answers with exactly the active items, each once, newest first, equal creation times in ascending id order |
| `Routes.GetPost` | server/routes.ts:127-138 | answers 200 with the post under `parseInt(id)`, or 404 when it is NaN or absent |
| `Routes.GetPostByDecimalId` | server/routes.ts:127-138 | a decimal id followed by any non-number text finds the post with that id |
| `Routes.CreatePost` | server/routes.ts:140-148 | answers 201 with the stored post exactly when the body is valid, and 400 otherwise without changing the store |
| `Routes.UpdatePost` | server/routes.ts:150-162 | answers 400 on an invalid body before looking at the id, 404 on a NaN or absent id, and otherwise 200 with the merged post |
| `Routes.DeletePost` | server/routes.ts:164-175 | answers 204 and removes the post exactly when `parseInt(id)` names a stored post, and 404 otherwise |
| `Routes.AnalyzeSkin` | server/routes.ts:180-208 | answers 400 with no file and 500 when the analysis fails, storing nothing; otherwise it stores the analysis with the image as a data URL and returns it |
| `Routes.ListSkinAnalyses` | server/routes.ts:211-218 | `GET /api/skin-analyses` answers with every analysis, each once, newest first, equal creation times in ascending id order |
| `Routes.SumBounds` | server/routes.ts:232-235 | the `reduce` sum of values in `[lo, hi]` lies between `n*lo` and `n*hi` |
| `Routes.Average` | server/routes.ts:232-236 | the average is 0 for no posts and otherwise the rounded mean of the sum |
| `Routes.AverageInRange` | server/routes.ts:232-236 | the average of values in `[lo, hi]` lies in `[lo, hi]` |
| `Routes.CountInMonth` | server/routes.ts:224-230 | the monthly count is the number of listing positions whose post was created in the given month and year, and, for a listing without repeats, the number of such posts |
| `Routes.MonthlyExtremes` | server/routes.ts:224-230 | the monthly count is the whole listing when every post is of the month, and 0 when none is |
| `Routes.ComputeStats` | server/routes.ts:223-243 | the total is the post count; the monthly count is the number of posts created in the given month and year; the averages are the rounded means of views and SEO score; no posts gives all zeros |
| `Routes.GetStats` | server/routes.ts:221-247 | `/api/stats` gives the number of stored posts, the number of stored posts whose creation month and year are those of the clock readings, and the rounded mean views and SEO score over every post; an empty store gives all zeros |
| `Routes.AverageSeoScoreInRange` | server/routes.ts:235-236 | when every stored score is in [0, 100], so is the average score |
| `ClientUtils.FormatSeoScore` | client/src/lib/openai.ts:23-28 | the label is 우수 iff score >= 90, 좋음 iff in [80, 90), 보통 iff in [70, 80), 개선 필요 iff below 70 |
| `ClientUtils.GetSeoScoreColor` | client/src/lib/openai.ts:31-36 | the colour class uses the same four bands |
| `ClientUtils.LabelAndColourAgree` | client/src/lib/openai.ts:23-36 | two scores get the same label exactly when they get the same colour |
| `ClientUtils.FormatMonotone` | client/src/lib/openai.ts:23-28 | a higher score never gets a worse label |
| `ClientUtils.ParseInstagramUrl` | client/src/lib/openai.ts:18 | every URL the parser accepts is the rendering of a well-formed Instagram post or reel URL |
| `ClientUtils.ParseRender` | client/src/lib/openai.ts:18 | the parser recovers every well-formed URL from its rendering |
| `ClientUtils.IsValidInstagramUrl` | client/src/lib/openai.ts:17-20 | the regular expression accepts a string exactly when it is the rendering of some well-formed URL |
| `ClientUtils.RejectsEmptyId` | client/src/lib/openai.ts:18 | `…/p/` with no id is rejected |
| `ClientUtils.RejectsExtraSegment` | client/src/lib/openai.ts:18 | a second path segment after the id is rejected |
| `ClientUtils.RejectsFragment` | client/src/lib/openai.ts:18 | a `#fragment` after the id is rejected |
| `ClientUtils.RejectsOtherPath` | client/src/lib/openai.ts:18 | paths other than `p/` and `reel/` are rejected |
| `ClientUtils.RejectsOtherHost` | client/src/lib/openai.ts:18 | hosts other than `instagram.com` and `www.instagram.com` are rejected |
| `ClientUtils.AcceptsReel` | client/src/lib/openai.ts:18 | a `www` reel URL with `_`, `-` and a trailing slash is accepted |

The model follows the code in these places, where a reader might expect otherwise:

- The generator keeps an empty `keywords: []` or `recommendations: []` from the reply. An empty array is truthy, so only a missing field takes the default.
- The blog `seoScore` from the generator is not clamped, so a stored score need not lie in [0, 100]. Only skin levels and the legacy reel score are clamped.
- Post `status`, `platform` and user `role` are free text, not enumerations. A listing for `published = false` selects exactly `"draft"`.
- The live skin defaults are 75/60/50/30. The legacy ones are 70/70/50/30.

## Left out

- Floating point: scores, views and levels are integers. A non-integer number from the model's reply is not modelled, nor is `NaN` from a non-numeric field. The client band functions take a `real`.
- JSON field types: a reply field of the wrong JSON type, and a JSON number, string or array as the whole reply, are treated as missing fields.
- Partial update bodies: a field given explicitly as `undefined` is not modelled.
- String length: zod's `min(50)` counts UTF-16 code units. The model counts characters.
- Upload limits: multer's 10 MB size limit, the five-file limit and the image-only MIME filter are not modelled. The handlers see the files that got through.
- Base64: the encoding is a function parameter. Only the data-URL template around it is modelled.
- Errors: Express's own 500 paths (an exception from storage, JSON serialisation) are not modelled. The store never throws.
- Prompts: the prompt texts, model names, token limits and the network call are not modelled. Only the reply each call produced is, as a parameter.
- Clock: `new Date()` and the calendar are parameters. A store operation takes one reading.
- Clock ordering: `updatedAt >= createdAt` is not claimed, because the model does not assume the clock moves forward.
- Async: `async`/`await` is not modelled. The constructor calls `initializeDemoData` without awaiting it. The seeding finishes in queued microtasks, before any request is served, so it is modelled as part of construction with one clock reading.
- Legacy blog generator: `generateMultiPlatformBlog` in server/lib/openai.ts:42-216 is the same code as the live one in server/lib/openai-new.ts. It is modelled once, as `Gateway.GenerateMultiPlatformBlog`.
- `Js.ParseIntDecimal`: does not model integers beyond 2^53 or the `-0` result. Ids are small naturals. The same holds for the id parameter read by `Routes.GetPost`, `Routes.UpdatePost` and `Routes.DeletePost`, which use this parse.
- `Routes.GenerateBlog`: an ill-typed body (a wrong JSON type, or `null` in an optional field) is answered 400 with an empty issue list. zod's issue text for type errors is not modelled.
- Users: user routes and authentication are not part of the server code, so only the storage operations are modelled.
- Client: the React components and pages are not part of this model.
