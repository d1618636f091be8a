/** The request handlers over the store: what each route answers, with
    which status code, and what it changes in the store. Express itself,
    the upload middleware and the base64 encoder are parameters or are
    left out; a handler sees the already-parsed request. */
module Routes {
  import opened Wrappers
  import opened Schema
  import Js
  import Listing
  import opened Storage
  import Upstream
  import Gateway

  /** A JSON answer: 200 with a body, 201 with the created record, 204 with
      nothing, an error status with a message, or the 400 of a failed
      validation with its issues. */
  datatype Response<T> =
    | Ok(body: T)
    | Created(body: T)
    | NoBody
    | Error(code: int, message: string)
    | Invalid(message: string, issues: seq<Issue>)
  {
    function Status(): int {
      match this
      case Ok(_) => 200
      case Created(_) => 201
      case NoBody => 204
      case Error(code, _) => code
      case Invalid(_, _) => 400
    }
  }

  const UploadRequired := "이미지를 업로드해주세요."
  const InvalidInput := "입력 데이터가 올바르지 않습니다."
  const GenerateFailed := "블로그 생성에 실패했습니다. 입력 내용을 확인해주세요."
  const PostNotFound := "블로그 포스트를 찾을 수 없습니다."
  const BadData := "잘못된 데이터입니다."
  const AnalyzeFailed := "피부 분석에 실패했습니다. 다시 시도해주세요."

  // ---- listings ----

  /** `GET /api/blog-posts`: only published posts. */
  function ListPublishedPosts(store: MemStorage): (r: Response<seq<BlogPost>>)
    reads store
    requires store.Valid()
    ensures r.Ok?
    ensures forall p :: p in r.body <==> p in store.blogPosts.Values && p.status == "published"
    ensures Listing.Distinct(r.body)
    ensures Listing.SortedDesc(r.body, PostCreatedAt) && Listing.TiesAscending(r.body, PostCreatedAt, PostId)
  {
    Ok(store.GetBlogPosts(Some(true)))
  }

  /** `GET /api/admin/blog-posts`: every post, whatever its status. */
  function ListAllPosts(store: MemStorage): (r: Response<seq<BlogPost>>)
    reads store
    requires store.Valid()
    ensures r.Ok?
    ensures forall p :: p in r.body <==> p in store.blogPosts.Values
    ensures Listing.Distinct(r.body) && |r.body| == |store.blogPosts|
    ensures Listing.SortedDesc(r.body, PostCreatedAt) && Listing.TiesAscending(r.body, PostCreatedAt, PostId)
  {
    Ok(store.GetBlogPosts(None))
  }

  /** `GET /api/services`: the active services in display order. */
  function ListServices(store: MemStorage): (r: Response<seq<Service>>)
    reads store
    requires store.Valid()
    ensures r.Ok?
    ensures forall s :: s in r.body <==> s in store.services.Values && s.isActive
    ensures Listing.Distinct(r.body)
    ensures Listing.SortedAsc(r.body, ServiceOrder) && Listing.TiesAscending(r.body, ServiceOrder, ServiceId)
  {
    Ok(store.GetServices())
  }

  /** `GET /api/portfolio`: the active items, newest first. */
  function ListPortfolio(store: MemStorage): (r: Response<seq<Portfolio>>)
    reads store
    requires store.Valid()
    ensures r.Ok?
    ensures forall p :: p in r.body <==> p in store.portfolio.Values && p.isActive
    ensures Listing.Distinct(r.body)
    ensures Listing.SortedDesc(r.body, PortfolioCreatedAt) && Listing.TiesAscending(r.body, PortfolioCreatedAt, PortfolioId)
  {
    Ok(store.GetPortfolio())
  }

  /** `GET /api/skin-analyses`: every analysis, newest first. */
  function ListSkinAnalyses(store: MemStorage): (r: Response<seq<SkinAnalysis>>)
    reads store
    requires store.Valid()
    ensures r.Ok?
    ensures forall a :: a in r.body <==> a in store.skinAnalyses.Values
    ensures Listing.Distinct(r.body) && |r.body| == |store.skinAnalyses|
    ensures Listing.SortedDesc(r.body, AnalysisCreatedAt) && Listing.TiesAscending(r.body, AnalysisCreatedAt, AnalysisId)
  {
    Ok(store.GetSkinAnalyses())
  }

  // ---- data URLs ----

  /** One file as the upload middleware hands it over. */
  datatype UploadedFile = UploadedFile(mimetype: string, buffer: seq<bv8>)

  function DataUrl(mimetype: string, payload: string): string {
    "data:" + mimetype + ";base64," + payload
  }

  /** The position of the first `c` in `s`. */
  function IndexOf(s: string, c: char): (r: Option<nat>)
    ensures r.Some? ==> r.value < |s| && s[r.value] == c && c !in s[..r.value]
    ensures r.None? ==> c !in s
  {
    if s == [] then None
    else if s[0] == c then Some(0)
    else match IndexOf(s[1..], c)
      case None => None
      case Some(i) =>
        assert s[..i + 1] == [s[0]] + s[1..][..i];
        Some(i + 1)
  }

  /** Reads a data URL back into its media type and payload. */
  function ParseDataUrl(s: string): (r: Option<(string, string)>)
    ensures r.Some? ==> ';' !in r.value.0 && DataUrl(r.value.0, r.value.1) == s
  {
    if |s| < 5 || s[..5] != "data:" then None
    else
      var rest := s[5..];
      match IndexOf(rest, ';')
      case None => None
      case Some(i) =>
        if |rest| < i + 8 || rest[i..i + 8] != ";base64," then None
        else
          assert s == "data:" + rest[..i] + ";base64," + rest[i + 8..];
          Some((rest[..i], rest[i + 8..]))
  }

  /** A media type without `;` and its payload are recovered from the URL
      built from them. */
  lemma {:induction false} DataUrlRoundTrip(mimetype: string, payload: string)
    requires ';' !in mimetype
    ensures ParseDataUrl(DataUrl(mimetype, payload)) == Some((mimetype, payload))
  {
    var s := DataUrl(mimetype, payload);
    var rest := s[5..];
    assert rest == mimetype + ";base64," + payload;
    IndexOfAfter(mimetype, ";base64," + payload, ';');
    assert rest[..|mimetype|] == mimetype;
    assert rest[|mimetype|..|mimetype| + 8] == ";base64,";
    assert rest[|mimetype| + 8..] == payload;
  }

  lemma {:induction false} IndexOfAfter(a: string, b: string, c: char)
    requires c !in a && |b| > 0 && b[0] == c
    ensures IndexOf(a + b, c) == Some(|a|)
  {
    if a != [] {
      assert (a + b)[1..] == a[1..] + b;
      IndexOfAfter(a[1..], b, c);
    }
  }

  /** Two uploads of image types never share a URL unless their types and
      payloads agree. */
  lemma DataUrlInjective(m1: string, p1: string, m2: string, p2: string)
    requires ';' !in m1 && ';' !in m2
    requires DataUrl(m1, p1) == DataUrl(m2, p2)
    ensures m1 == m2 && p1 == p2
  {
    DataUrlRoundTrip(m1, p1);
    DataUrlRoundTrip(m2, p2);
  }

  /** `POST /api/admin/upload-images`: 400 without files, otherwise one data
      URL per file, in upload order. `base64` stands for the encoder. */
  function UploadImages(files: Option<seq<UploadedFile>>, base64: seq<bv8> -> string): (r: Response<seq<string>>)
    ensures r.Ok? || r == Error(400, UploadRequired)
    ensures r.Error? <==> files.None? || files.value == []
    ensures r.Ok? ==> |r.body| == |files.value|
    ensures r.Ok? ==> forall i :: 0 <= i < |r.body| ==>
              r.body[i] == DataUrl(files.value[i].mimetype, base64(files.value[i].buffer))
    ensures r.Ok? ==> forall i :: 0 <= i < |r.body| ==>
              ';' !in files.value[i].mimetype ==>
                ParseDataUrl(r.body[i]) == Some((files.value[i].mimetype, base64(files.value[i].buffer)))
  {
    if files.None? || files.value == [] then Error(400, UploadRequired)
    else
      var fs := files.value;
      var urls := seq(|fs|, i requires 0 <= i < |fs| => DataUrl(fs[i].mimetype, base64(fs[i].buffer)));
      assert forall i :: 0 <= i < |fs| && ';' !in fs[i].mimetype ==>
               ParseDataUrl(urls[i]) == Some((fs[i].mimetype, base64(fs[i].buffer))) by {
        forall i | 0 <= i < |fs| && ';' !in fs[i].mimetype {
          DataUrlRoundTrip(fs[i].mimetype, base64(fs[i].buffer));
        }
      }
      Ok(urls)
  }

  // ---- blog generation ----

  /** The 200 answer of blog generation: the stored post with the basic
      variant, and the two other variants that are returned but not
      stored. */
  datatype GeneratedBlog = GeneratedBlog(
    blogPost: BlogPost,
    basic: Gateway.BasicVariant,
    naver: Gateway.NaverVariant,
    tistory: Gateway.TistoryVariant)

  /** The images of the stored post: before/after, then product, then
      overview images, a missing list counting as empty. */
  function PostImages(data: ManualBlogContent): (r: seq<string>)
    ensures |r| == |data.beforeAfterImages| + |data.productImages.GetOr([])| + |data.overviewImages.GetOr([])|
    ensures r[..|data.beforeAfterImages|] == data.beforeAfterImages
    ensures r[|data.beforeAfterImages|..|data.beforeAfterImages| + |data.productImages.GetOr([])|]
         == data.productImages.GetOr([])
    ensures r[|data.beforeAfterImages| + |data.productImages.GetOr([])|..] == data.overviewImages.GetOr([])
  {
    data.beforeAfterImages + Js.Coalesce(data.productImages, []) + Js.Coalesce(data.overviewImages, [])
  }

  /** The insert record built from the basic variant. */
  function GeneratedInsert(data: ManualBlogContent, basic: Gateway.BasicVariant): (ins: InsertBlogPost)
    ensures ins.title == basic.title && ins.content == basic.content && ins.excerpt == basic.excerpt
    ensures ins.seoKeywords == basic.keywords && ins.seoScore == Some(basic.seoScore)
    ensures ins.status == Some("published") && ins.platform == Some("basic")
    ensures ins.customImages == Some(PostImages(data))
    ensures ins.thumbnailUrl.None? && ins.views.None? && ins.likes.None?
  {
    InsertBlogPost(basic.title, basic.content, basic.excerpt, basic.keywords, None, Some("basic"),
                   Some(PostImages(data)), Some("published"), None, None, Some(basic.seoScore))
  }

  /** `POST /api/admin/generate-blog`. A body that fails validation gets
      400 with its issues before anything is generated; a failed generation
      gets 500; in both cases the store is untouched. Otherwise exactly one
      post, the basic variant, is stored, published. `replies` stands for the
      three upstream answers to this body's prompts. */
  method GenerateBlog(store: MemStorage, body: Body<ManualBlogBody>,
                      replies: (Upstream.Reply<Upstream.BlogFields>, Upstream.Reply<Upstream.BlogFields>,
                                Upstream.Reply<Upstream.BlogFields>),
                      now: Time)
    returns (r: Response<GeneratedBlog>)
    requires store.Valid()
    modifies store`blogPosts, store`currentBlogPostId
    ensures store.Valid()
    ensures body.IllTyped? ==> r == Invalid(InvalidInput, [])
    ensures body.WellTyped? && ParseManualBlogContent(body.value).Failure? ==>
              r == Invalid(InvalidInput, ParseManualBlogContent(body.value).error)
    ensures body.WellTyped? && ParseManualBlogContent(body.value).Success?
            && Gateway.GenerateMultiPlatformBlog(replies.0, replies.1, replies.2).Failure? ==>
              r == Error(500, GenerateFailed)
    ensures !r.Ok? ==> store.blogPosts == old(store.blogPosts) && store.currentBlogPostId == old(store.currentBlogPostId)
    ensures r.Ok? <==> body.WellTyped? && ParseManualBlogContent(body.value).Success?
                       && Gateway.GenerateMultiPlatformBlog(replies.0, replies.1, replies.2).Success?
    ensures r.Ok? ==>
              var post := r.body.blogPost;
              && post.id == old(store.currentBlogPostId)
              && store.blogPosts == old(store.blogPosts)[post.id := post]
              && post.status == "published" && post.platform == "basic"
              && post.customImages == PostImages(ParseManualBlogContent(body.value).value)
              && post.title == r.body.basic.title && post.seoKeywords == r.body.basic.keywords
              && post.content == r.body.basic.content && post.excerpt == r.body.basic.excerpt
              && post.thumbnailUrl.None?
              && post.seoScore == r.body.basic.seoScore
              && post.createdAt == now && post.updatedAt == now && post.views == 0 && post.likes == 0
    ensures r.Ok? ==>
              Gateway.GenerateMultiPlatformBlog(replies.0, replies.1, replies.2)
                == Success(Gateway.MultiPlatformBlog(r.body.basic, r.body.naver, r.body.tistory))
  {
    if body.IllTyped? {
      return Invalid(InvalidInput, []);
    }
    var validation := ParseManualBlogContent(body.value);
    if validation.Failure? {
      return Invalid(InvalidInput, validation.error);
    }
    var data := validation.value;
    var generated := Gateway.GenerateMultiPlatformBlog(replies.0, replies.1, replies.2);
    if generated.Failure? {
      return Error(500, GenerateFailed);
    }
    var blog := generated.value;
    var post := store.CreateBlogPost(GeneratedInsert(data, blog.basic), now);
    r := Ok(GeneratedBlog(post, blog.basic, blog.naver, blog.tistory));
  }

  // ---- one post by id ----

  /** `GET /api/blog-posts/:id`: the id is read with `parseInt`, so a
      non-numeric id, like an unknown one, gets 404. */
  function GetPost(store: MemStorage, idParam: string): (r: Response<BlogPost>)
    reads store
    requires store.Valid()
    ensures r.Ok? || r == Error(404, PostNotFound)
    ensures r.Ok? <==> Js.ParseInt(idParam).Some? && Js.ParseInt(idParam).value in store.blogPosts
    ensures r.Ok? ==> r.body == store.blogPosts[Js.ParseInt(idParam).value]
  {
    match Js.ParseInt(idParam)
    case None => Error(404, PostNotFound)
    case Some(id) => match store.GetBlogPost(id)
      case None => Error(404, PostNotFound)
      case Some(post) => Ok(post)
  }

  /** A stored post is found under the decimal form of its id, however the
      path segment continues after the digits. */
  lemma GetPostByDecimalId(store: MemStorage, id: nat, tail: string)
    requires store.Valid() && id in store.blogPosts
    requires Js.EndsNumber(tail)
    ensures GetPost(store, Js.Decimal(id) + tail) == Ok(store.blogPosts[id])
    ensures GetPost(store, Js.Decimal(id) + tail).body.id == id
  {
    Js.ParseIntDecimal(id, tail);
  }

  /** `POST /api/blog-posts`: 201 with the new post when the body passes the
      insert schema, else 400 and no change. */
  method CreatePost(store: MemStorage, body: Body<BlogPostBody>, now: Time) returns (r: Response<BlogPost>)
    requires store.Valid()
    modifies store`blogPosts, store`currentBlogPostId
    ensures store.Valid()
    ensures r.Created? || r == Error(400, BadData)
    ensures r.Created? <==> body.WellTyped? && ParseInsertBlogPost(body.value).Some?
    ensures r.Error? ==> store.blogPosts == old(store.blogPosts) && store.currentBlogPostId == old(store.currentBlogPostId)
    ensures r.Created? ==> r.body == NewBlogPost(ParseInsertBlogPost(body.value).value, old(store.currentBlogPostId), now)
    ensures r.Created? ==> r.body.id !in old(store.blogPosts) && store.blogPosts == old(store.blogPosts)[r.body.id := r.body]
  {
    if body.IllTyped? {
      return Error(400, BadData);
    }
    match ParseInsertBlogPost(body.value)
    case None =>
      r := Error(400, BadData);
    case Some(ins) =>
      var post := store.CreateBlogPost(ins, now);
      r := Created(post);
  }

  /** `PATCH /api/blog-posts/:id`: the body is checked first, so a bad body
      gets 400 even for an unknown id; then an unknown or non-numeric id
      gets 404; otherwise 200 with the merged post. */
  method UpdatePost(store: MemStorage, idParam: string, body: Body<UpdateBlogPost>, now: Time)
    returns (r: Response<BlogPost>)
    requires store.Valid()
    modifies store`blogPosts
    ensures store.Valid()
    ensures body.IllTyped? ==> r == Error(400, BadData)
    ensures body.WellTyped? && (Js.ParseInt(idParam).None? || Js.ParseInt(idParam).value !in old(store.blogPosts)) ==>
              r == Error(404, PostNotFound)
    ensures !r.Ok? ==> store.blogPosts == old(store.blogPosts)
    ensures r.Ok? <==> body.WellTyped? && Js.ParseInt(idParam).Some? && Js.ParseInt(idParam).value in old(store.blogPosts)
    ensures r.Ok? ==>
              var id := Js.ParseInt(idParam).value;
              && r.body == ApplyBlogPostUpdate(old(store.blogPosts)[id], body.value, now)
              && store.blogPosts == old(store.blogPosts)[id := r.body]
  {
    var id := Js.ParseInt(idParam);
    if body.IllTyped? {
      return Error(400, BadData);
    }
    if id.None? {
      return Error(404, PostNotFound);
    }
    var post := store.UpdateBlogPost(id.value, body.value, now);
    if post.None? {
      return Error(404, PostNotFound);
    }
    r := Ok(post.value);
  }

  /** `DELETE /api/blog-posts/:id`: 204 when the post was there, else 404;
      only that post goes. */
  method DeletePost(store: MemStorage, idParam: string) returns (r: Response<()>)
    requires store.Valid()
    modifies store`blogPosts
    ensures store.Valid()
    ensures r == NoBody || r == Error(404, PostNotFound)
    ensures r == NoBody <==> Js.ParseInt(idParam).Some? && Js.ParseInt(idParam).value in old(store.blogPosts)
    ensures r == NoBody ==> store.blogPosts == old(store.blogPosts) - {Js.ParseInt(idParam).value}
    ensures r != NoBody ==> store.blogPosts == old(store.blogPosts)
  {
    var id := Js.ParseInt(idParam);
    if id.None? {
      return Error(404, PostNotFound);
    }
    var removed := store.DeleteBlogPost(id.value);
    r := if removed then NoBody else Error(404, PostNotFound);
  }

  // ---- skin analysis ----

  /** `POST /api/analyze-skin`: 400 without a file, 500 when the analysis
      fails, otherwise the stored record: the image as a data URL and the
      normalised scores and recommendations unchanged. `reply` stands for
      the upstream answer for this image. */
  method AnalyzeSkin(store: MemStorage, file: Option<UploadedFile>, base64: seq<bv8> -> string,
                     reply: Upstream.Reply<Upstream.SkinFields>, now: Time)
    returns (r: Response<SkinAnalysis>)
    requires store.Valid()
    modifies store`skinAnalyses, store`currentSkinAnalysisId
    ensures store.Valid()
    ensures file.None? ==> r == Error(400, UploadRequired)
    ensures file.Some? && Gateway.AnalyzeSkinImage(reply).Failure? ==> r == Error(500, AnalyzeFailed)
    ensures !r.Ok? ==> store.skinAnalyses == old(store.skinAnalyses)
                       && store.currentSkinAnalysisId == old(store.currentSkinAnalysisId)
    ensures r.Ok? <==> file.Some? && Gateway.AnalyzeSkinImage(reply).Success?
    ensures r.Ok? ==>
              var a := Gateway.AnalyzeSkinImage(reply).value;
              && r.body.id == old(store.currentSkinAnalysisId) && r.body.createdAt == now
              && store.skinAnalyses == old(store.skinAnalyses)[r.body.id := r.body]
              && r.body.imageUrl == DataUrl(file.value.mimetype, base64(file.value.buffer))
              && r.body.overallScore == a.overallScore && r.body.moistureLevel == a.moistureLevel
              && r.body.oilLevel == a.oilLevel && r.body.troubleLevel == a.troubleLevel
              && r.body.recommendations == a.recommendations
              && 1 <= r.body.overallScore <= 100 && 1 <= r.body.moistureLevel <= 100
              && 1 <= r.body.oilLevel <= 100 && 1 <= r.body.troubleLevel <= 100
  {
    if file.None? {
      return Error(400, UploadRequired);
    }
    var payload := base64(file.value.buffer);
    var analysis := Gateway.AnalyzeSkinImage(reply);
    if analysis.Failure? {
      return Error(500, AnalyzeFailed);
    }
    var a := analysis.value;
    var record := store.CreateSkinAnalysis(
      InsertSkinAnalysis(DataUrl(file.value.mimetype, payload), a.overallScore, a.moistureLevel,
                         a.oilLevel, a.troubleLevel, a.recommendations), now);
    r := Ok(record);
  }

  // ---- statistics ----

  datatype Stats = Stats(totalPosts: int, monthlyPosts: int, avgViews: int, avgSeoScore: int)

  function Views(p: BlogPost): int { p.views }
  function SeoScore(p: BlogPost): int { p.seoScore }

  /** `posts.reduce((sum, post) => sum + key(post), 0)`. */
  function Sum(posts: seq<BlogPost>, key: BlogPost -> int): int {
    if posts == [] then 0 else Sum(posts[..|posts| - 1], key) + key(posts[|posts| - 1])
  }

  /** Values that all lie in [lo, hi] sum to between n*lo and n*hi. */
  lemma {:induction false} SumBounds(posts: seq<BlogPost>, key: BlogPost -> int, lo: int, hi: int)
    requires forall i :: 0 <= i < |posts| ==> lo <= key(posts[i]) <= hi
    ensures |posts| * lo <= Sum(posts, key) <= |posts| * hi
  {
    if posts != [] {
      SumBounds(posts[..|posts| - 1], key, lo, hi);
    }
  }

  /** `Math.round(total / n)`, and 0 for no posts. */
  function Average(posts: seq<BlogPost>, key: BlogPost -> int): (r: int)
    ensures posts == [] ==> r == 0
    ensures posts != [] ==> 2 * Sum(posts, key) - |posts| < 2 * |posts| * r <= 2 * Sum(posts, key) + |posts|
  {
    if |posts| > 0 then Js.RoundedMean(Sum(posts, key), |posts|) else 0
  }

  /** The average of values in [lo, hi] lies in [lo, hi]. */
  lemma AverageInRange(posts: seq<BlogPost>, key: BlogPost -> int, lo: int, hi: int)
    requires posts != []
    requires forall i :: 0 <= i < |posts| ==> lo <= key(posts[i]) <= hi
    ensures lo <= Average(posts, key) <= hi
  {
    SumBounds(posts, key, lo, hi);
    Js.RoundedMeanBounds(Sum(posts, key), |posts|, lo, hi);
  }

  predicate InMonth(p: BlogPost, month: int, year: int, monthOf: Time -> int, yearOf: Time -> int) {
    monthOf(p.createdAt) == month && yearOf(p.createdAt) == year
  }

  /** The filter of `/api/stats`: created in the given month of the given year. */
  function MonthFilter(month: int, year: int, monthOf: Time -> int, yearOf: Time -> int): (keep: BlogPost -> bool)
    ensures forall p :: keep(p) == InMonth(p, month, year, monthOf, yearOf)
  {
    p => InMonth(p, month, year, monthOf, yearOf)
  }

  /** `posts.filter(in the given month).length`. */
  function CountInMonth(posts: seq<BlogPost>, month: int, year: int, monthOf: Time -> int, yearOf: Time -> int)
    : (n: nat)
    ensures n <= |posts|
    ensures n == |Listing.KeptPositions(posts, MonthFilter(month, year, monthOf, yearOf))|
    ensures Listing.Distinct(posts) ==> n == |Listing.KeptElements(posts, MonthFilter(month, year, monthOf, yearOf))|
  {
    var keep := MonthFilter(month, year, monthOf, yearOf);
    Listing.FilterCount(posts, keep);
    if Listing.Distinct(posts) then
      Listing.DistinctFilterCount(posts, keep);
      |Listing.Filter(posts, keep)|
    else
      |Listing.Filter(posts, keep)|
  }

  /** When every post is of the month, all of them are counted; when none
      is, the count is 0. */
  lemma MonthlyExtremes(posts: seq<BlogPost>, month: int, year: int, monthOf: Time -> int, yearOf: Time -> int)
    ensures (forall i :: 0 <= i < |posts| ==> InMonth(posts[i], month, year, monthOf, yearOf))
        ==> CountInMonth(posts, month, year, monthOf, yearOf) == |posts|
    ensures (forall i :: 0 <= i < |posts| ==> !InMonth(posts[i], month, year, monthOf, yearOf))
        ==> CountInMonth(posts, month, year, monthOf, yearOf) == 0
  {
    Listing.FilterExtremes(posts, MonthFilter(month, year, monthOf, yearOf));
  }

  /** The figures of `/api/stats` over a post listing: the count, how many
      were created in the given month of the given year, and the rounded
      mean views and SEO score. */
  function ComputeStats(posts: seq<BlogPost>, month: int, year: int, monthOf: Time -> int, yearOf: Time -> int)
    : (s: Stats)
    ensures s.totalPosts == |posts|
    ensures 0 <= s.monthlyPosts <= s.totalPosts
    ensures s.monthlyPosts == |Listing.KeptPositions(posts, MonthFilter(month, year, monthOf, yearOf))|
    ensures Listing.Distinct(posts) ==> s.monthlyPosts == |Listing.KeptElements(posts, MonthFilter(month, year, monthOf, yearOf))|
    ensures posts == [] ==> s == Stats(0, 0, 0, 0)
    ensures s.avgViews == Average(posts, Views) && s.avgSeoScore == Average(posts, SeoScore)
  {
    Stats(|posts|, CountInMonth(posts, month, year, monthOf, yearOf), Average(posts, Views), Average(posts, SeoScore))
  }

  /** The posts of the month in a listing of every stored post are the
      stored posts of the month. */
  lemma StoredMonthlyPosts(store: MemStorage, posts: seq<BlogPost>, month: int, year: int,
                           monthOf: Time -> int, yearOf: Time -> int)
    requires forall p :: p in posts <==> p in store.blogPosts.Values
    ensures Listing.KeptElements(posts, MonthFilter(month, year, monthOf, yearOf))
         == set p | p in store.blogPosts.Values && InMonth(p, month, year, monthOf, yearOf)
  {
    var keep := MonthFilter(month, year, monthOf, yearOf);
    Listing.KeptElementsOf(posts, store.blogPosts.Values, keep);
  }

  /** `GET /api/stats`: computed over every post. The clock is read twice,
      once for the month and once for the year, so the two readings are two
      parameters; `monthOf` and `yearOf` stand for the calendar. */
  function GetStats(store: MemStorage, monthClock: Time, yearClock: Time, monthOf: Time -> int, yearOf: Time -> int)
    : (r: Response<Stats>)
    reads store
    requires store.Valid()
    ensures r.Ok?
    ensures r.body.totalPosts == |store.blogPosts|
    ensures r.body.monthlyPosts <= r.body.totalPosts
    ensures r.body.monthlyPosts
         == |set p | p in store.blogPosts.Values && InMonth(p, monthOf(monthClock), yearOf(yearClock), monthOf, yearOf)|
    ensures r.body.avgViews == Average(store.GetBlogPosts(None), Views)
    ensures r.body.avgSeoScore == Average(store.GetBlogPosts(None), SeoScore)
    ensures store.blogPosts == map[] ==> r.body == Stats(0, 0, 0, 0)
  {
    var posts := store.GetBlogPosts(None);
    var month, year := monthOf(monthClock), yearOf(yearClock);
    StoredMonthlyPosts(store, posts, month, year, monthOf, yearOf);
    Ok(ComputeStats(posts, month, year, monthOf, yearOf))
  }

  /** When every stored score lies in [0, 100], so does the average score. */
  lemma AverageSeoScoreInRange(store: MemStorage, monthClock: Time, yearClock: Time,
                               monthOf: Time -> int, yearOf: Time -> int)
    requires store.Valid() && store.blogPosts != map[]
    requires forall k :: k in store.blogPosts ==> 0 <= store.blogPosts[k].seoScore <= 100
    ensures 0 <= GetStats(store, monthClock, yearClock, monthOf, yearOf).body.avgSeoScore <= 100
  {
    var posts := store.GetBlogPosts(None);
    assert |posts| == |store.blogPosts|;
    forall i | 0 <= i < |posts|
      ensures 0 <= SeoScore(posts[i]) <= 100
    {
      assert posts[i] in store.blogPosts.Values;
    }
    AverageInRange(posts, SeoScore, 0, 100);
  }
}
