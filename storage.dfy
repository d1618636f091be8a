/** The in-memory record store: five tables keyed by per-table counters
    that start at 1 and advance on every create. */
module Storage {
  import opened Wrappers
  import opened Schema
  import Js
  import Listing

  // ---- the records the create methods build ----

  /** A new user: the role defaults to "user" when missing or empty. */
  function NewUser(ins: InsertUser, id: int): (u: User)
    ensures u.id == id && u.username == ins.username && u.password == ins.password
    ensures ins.role.Some? && ins.role.value != "" ==> u.role == ins.role.value
    ensures ins.role.None? || ins.role.value == "" ==> u.role == DefaultRole
  {
    User(id, ins.username, ins.password, Js.OrString(ins.role, DefaultRole))
  }

  /** A new blog post stamped `now` twice. Each optional column keeps a
      supplied truthy value and otherwise takes the column default; for the
      numeric columns the default is 0, so a supplied 0 and a missing value
      agree, and for the image list an empty list is kept as given. */
  function NewBlogPost(ins: InsertBlogPost, id: int, now: Time): (p: BlogPost)
    ensures p.id == id && p.createdAt == now && p.updatedAt == now
    ensures p.title == ins.title && p.content == ins.content && p.excerpt == ins.excerpt
    ensures p.seoKeywords == ins.seoKeywords
    ensures p.thumbnailUrl.Some? <==> ins.thumbnailUrl.Some? && ins.thumbnailUrl.value != ""
    ensures p.thumbnailUrl.Some? ==> p.thumbnailUrl == ins.thumbnailUrl
    ensures ins.platform.Some? && ins.platform.value != "" ==> p.platform == ins.platform.value
    ensures ins.platform.None? || ins.platform.value == "" ==> p.platform == DefaultPlatform
    ensures ins.status.Some? && ins.status.value != "" ==> p.status == ins.status.value
    ensures ins.status.None? || ins.status.value == "" ==> p.status == DefaultStatus
    ensures p.customImages == ins.customImages.GetOr(DefaultCustomImages)
    ensures p.views == ins.views.GetOr(DefaultViews)
    ensures p.likes == ins.likes.GetOr(DefaultLikes)
    ensures p.seoScore == ins.seoScore.GetOr(DefaultSeoScore)
  {
    BlogPost(
      id, ins.title, ins.content, ins.excerpt, ins.seoKeywords,
      if Js.OrString(ins.thumbnailUrl, "") == "" then None else Some(Js.OrString(ins.thumbnailUrl, "")),
      Js.OrString(ins.platform, DefaultPlatform),
      Js.Coalesce(ins.customImages, DefaultCustomImages),
      Js.OrString(ins.status, DefaultStatus),
      Js.OrNumber(ins.views, DefaultViews),
      Js.OrNumber(ins.likes, DefaultLikes),
      Js.OrNumber(ins.seoScore, DefaultSeoScore),
      now, now)
  }

  /** A merged blog post: given columns overwrite, the rest are kept, the
      id and creation time never change and `updatedAt` becomes `now`. */
  function ApplyBlogPostUpdate(p: BlogPost, u: UpdateBlogPost, now: Time): (q: BlogPost)
    ensures q.id == p.id && q.createdAt == p.createdAt && q.updatedAt == now
    ensures Merges(u.title, p.title, q.title) && Merges(u.content, p.content, q.content)
    ensures Merges(u.excerpt, p.excerpt, q.excerpt) && Merges(u.seoKeywords, p.seoKeywords, q.seoKeywords)
    ensures Merges(u.thumbnailUrl, p.thumbnailUrl, q.thumbnailUrl) && Merges(u.platform, p.platform, q.platform)
    ensures Merges(u.customImages, p.customImages, q.customImages) && Merges(u.status, p.status, q.status)
    ensures Merges(u.views, p.views, q.views) && Merges(u.likes, p.likes, q.likes)
    ensures Merges(u.seoScore, p.seoScore, q.seoScore)
  {
    p.(title := u.title.Or(p.title),
       content := u.content.Or(p.content),
       excerpt := u.excerpt.Or(p.excerpt),
       seoKeywords := u.seoKeywords.Or(p.seoKeywords),
       thumbnailUrl := u.thumbnailUrl.Or(p.thumbnailUrl),
       platform := u.platform.Or(p.platform),
       customImages := u.customImages.Or(p.customImages),
       status := u.status.Or(p.status),
       views := u.views.Or(p.views),
       likes := u.likes.Or(p.likes),
       seoScore := u.seoScore.Or(p.seoScore),
       updatedAt := now)
  }

  const NoBlogPostChanges := UpdateBlogPost(Absent, Absent, Absent, Absent, Absent, Absent,
                                            Absent, Absent, Absent, Absent, Absent)

  /** An update that gives no column only refreshes `updatedAt`. */
  lemma EmptyUpdateOnlyTouches(p: BlogPost, now: Time)
    ensures ApplyBlogPostUpdate(p, NoBlogPostChanges, now) == p.(updatedAt := now)
  {
  }

  /** Applying the same update twice at the same time is applying it once. */
  lemma UpdateIdempotent(p: BlogPost, u: UpdateBlogPost, now: Time)
    ensures ApplyBlogPostUpdate(ApplyBlogPostUpdate(p, u, now), u, now) == ApplyBlogPostUpdate(p, u, now)
  {
  }

  /** A new skin analysis: the insert record, an id and a creation time. */
  function NewSkinAnalysis(ins: InsertSkinAnalysis, id: int, now: Time): (a: SkinAnalysis)
    ensures a.id == id && a.createdAt == now && a.imageUrl == ins.imageUrl
    ensures a.overallScore == ins.overallScore && a.moistureLevel == ins.moistureLevel
    ensures a.oilLevel == ins.oilLevel && a.troubleLevel == ins.troubleLevel
    ensures a.recommendations == ins.recommendations
  {
    SkinAnalysis(id, ins.imageUrl, ins.overallScore, ins.moistureLevel, ins.oilLevel,
                 ins.troubleLevel, ins.recommendations, now)
  }

  /** A new service: `isActive` and `order` default only when missing
      (`??`), so an explicit `false` or `0` is kept. */
  function NewService(ins: InsertService, id: int, now: Time): (s: Service)
    ensures s.id == id && s.createdAt == now
    ensures s.title == ins.title && s.description == ins.description
    ensures s.icon == ins.icon && s.features == ins.features
    ensures ins.isActive.Some? ==> s.isActive == ins.isActive.value
    ensures ins.isActive.None? ==> s.isActive == DefaultServiceActive
    ensures ins.order.Some? ==> s.order == ins.order.value
    ensures ins.order.None? ==> s.order == DefaultServiceOrder
  {
    Service(id, ins.title, ins.description, ins.icon, ins.features,
            Js.Coalesce(ins.isActive, DefaultServiceActive),
            Js.Coalesce(ins.order, DefaultServiceOrder), now)
  }

  /** A merged service: given fields overwrite; id and creation time stay. */
  function ApplyServiceUpdate(s: Service, u: ServiceUpdate): (t: Service)
    ensures t.id == s.id && t.createdAt == s.createdAt
    ensures Merges(u.title, s.title, t.title) && Merges(u.description, s.description, t.description)
    ensures Merges(u.icon, s.icon, t.icon) && Merges(u.features, s.features, t.features)
    ensures Merges(u.isActive, s.isActive, t.isActive) && Merges(u.order, s.order, t.order)
  {
    s.(title := u.title.Or(s.title),
       description := u.description.Or(s.description),
       icon := u.icon.Or(s.icon),
       features := u.features.Or(s.features),
       isActive := u.isActive.Or(s.isActive),
       order := u.order.Or(s.order))
  }

  /** A new portfolio item: `isActive` defaults only when missing, and a
      missing URL becomes `null` (both are `None` here). */
  function NewPortfolio(ins: InsertPortfolio, id: int, now: Time): (p: Portfolio)
    ensures p.id == id && p.createdAt == now
    ensures p.title == ins.title && p.description == ins.description
    ensures p.imageUrl == ins.imageUrl && p.projectUrl == ins.projectUrl
    ensures p.technologies == ins.technologies && p.category == ins.category
    ensures ins.isActive.Some? ==> p.isActive == ins.isActive.value
    ensures ins.isActive.None? ==> p.isActive == DefaultPortfolioActive
  {
    Portfolio(id, ins.title, ins.description, ins.imageUrl, ins.projectUrl, ins.technologies, ins.category,
              Js.Coalesce(ins.isActive, DefaultPortfolioActive), now)
  }

  /** A merged portfolio item: given fields overwrite; id and creation
      time stay. */
  function ApplyPortfolioUpdate(p: Portfolio, u: PortfolioUpdate): (q: Portfolio)
    ensures q.id == p.id && q.createdAt == p.createdAt
    ensures Merges(u.title, p.title, q.title) && Merges(u.description, p.description, q.description)
    ensures Merges(u.imageUrl, p.imageUrl, q.imageUrl) && Merges(u.projectUrl, p.projectUrl, q.projectUrl)
    ensures Merges(u.technologies, p.technologies, q.technologies) && Merges(u.category, p.category, q.category)
    ensures Merges(u.isActive, p.isActive, q.isActive)
  {
    p.(title := u.title.Or(p.title),
       description := u.description.Or(p.description),
       imageUrl := u.imageUrl.Or(p.imageUrl),
       projectUrl := u.projectUrl.Or(p.projectUrl),
       technologies := u.technologies.Or(p.technologies),
       category := u.category.Or(p.category),
       isActive := u.isActive.Or(p.isActive))
  }

  // ---- keys and sort keys of the listings ----

  function UserId(u: User): int { u.id }
  function PostId(p: BlogPost): int { p.id }
  function PostCreatedAt(p: BlogPost): int { p.createdAt }
  function AnalysisId(a: SkinAnalysis): int { a.id }
  function AnalysisCreatedAt(a: SkinAnalysis): int { a.createdAt }
  function ServiceId(s: Service): int { s.id }
  function ServiceOrder(s: Service): int { s.order }
  function ServiceActive(s: Service): bool { s.isActive }
  function PortfolioId(p: Portfolio): int { p.id }
  function PortfolioCreatedAt(p: Portfolio): int { p.createdAt }
  function PortfolioActive(p: Portfolio): bool { p.isActive }

  /** The filter of `getBlogPosts(published)`: everything when the flag is
      left out, else exactly "published" or exactly "draft". */
  predicate StatusMatches(p: BlogPost, published: Option<bool>) {
    match published
    case None => true
    case Some(true) => p.status == "published"
    case Some(false) => p.status == "draft"
  }

  // ---- the demo data the constructor inserts ----

  const DemoServices: seq<InsertService> := [
    InsertService("AI 피부 진단",
      "첨단 AI 기술을 활용한 정확한 피부 상태 분석과 맞춤형 케어 솔루션을 제공합니다.",
      "Camera", ["실시간 피부 분석", "맞춤형 케어 추천", "피부 타입 진단", "개선 효과 추적"],
      Some(true), Some(1)),
    InsertService("1:1 전문 상담",
      "5년 경력의 전문 피부관리사와의 개인별 맞춤 상담으로 최적의 케어 플랜을 제공합니다.",
      "MessageCircle", ["개인별 맞춤 상담", "전문가 케어 플랜", "실시간 Q&A", "사후 관리 서비스"],
      Some(true), Some(2)),
    InsertService("제품 추천 서비스",
      "개인의 피부 타입과 고민에 최적화된 검증된 제품들을 추천해드립니다.",
      "Heart", ["피부 타입별 추천", "성분 분석", "가격대별 옵션", "리뷰 기반 선별"],
      Some(true), Some(3))
  ]

  const DemoPortfolio: seq<InsertPortfolio> := [
    InsertPortfolio("민감성 피부 케어 성공 사례",
      "6개월간의 전문 케어를 통해 민감성 피부가 건강한 피부로 개선된 고객 사례",
      None, None, ["전문 케어", "맞춤 제품", "피부 분석", "사후 관리"], "skincare-success", Some(true)),
    InsertPortfolio("E-commerce 솔루션",
      "모바일 최적화된 온라인 쇼핑몰 플랫폼으로 높은 전환율을 달성",
      None, None, ["Next.js", "PostgreSQL", "Stripe", "Tailwind"], "web-development", Some(true))
  ]

  class MemStorage {
    var users: map<int, User>
    var blogPosts: map<int, BlogPost>
    var skinAnalyses: map<int, SkinAnalysis>
    var services: map<int, Service>
    var portfolio: map<int, Portfolio>
    var currentUserId: int
    var currentBlogPostId: int
    var currentSkinAnalysisId: int
    var currentServiceId: int
    var currentPortfolioId: int

    /** Every table's keys lie below its counter, so the counter is always a
        fresh id, and every record is stored under its own id. */
    ghost predicate Valid()
      reads this
    {
      && Listing.KeysBelow(users, currentUserId) && (forall k :: k in users ==> users[k].id == k)
      && Listing.KeysBelow(blogPosts, currentBlogPostId) && (forall k :: k in blogPosts ==> blogPosts[k].id == k)
      && Listing.KeysBelow(skinAnalyses, currentSkinAnalysisId) && (forall k :: k in skinAnalyses ==> skinAnalyses[k].id == k)
      && Listing.KeysBelow(services, currentServiceId) && (forall k :: k in services ==> services[k].id == k)
      && Listing.KeysBelow(portfolio, currentPortfolioId) && (forall k :: k in portfolio ==> portfolio[k].id == k)
      && 1 <= currentUserId && 1 <= currentBlogPostId && 1 <= currentSkinAnalysisId
      && 1 <= currentServiceId && 1 <= currentPortfolioId
    }

    /** Every counter starts at 1; the demo services and portfolio items are
        then created in order, all at `now`. */
    constructor (now: Time)
      ensures Valid()
      ensures users == map[] && blogPosts == map[] && skinAnalyses == map[]
      ensures services == map[1 := NewService(DemoServices[0], 1, now),
                              2 := NewService(DemoServices[1], 2, now),
                              3 := NewService(DemoServices[2], 3, now)]
      ensures portfolio == map[1 := NewPortfolio(DemoPortfolio[0], 1, now),
                               2 := NewPortfolio(DemoPortfolio[1], 2, now)]
      ensures currentUserId == 1 && currentBlogPostId == 1 && currentSkinAnalysisId == 1
      ensures currentServiceId == 4 && currentPortfolioId == 3
    {
      users := map[];
      blogPosts := map[];
      skinAnalyses := map[];
      services := map[];
      portfolio := map[];
      currentUserId := 1;
      currentBlogPostId := 1;
      currentSkinAnalysisId := 1;
      currentServiceId := 1;
      currentPortfolioId := 1;
      new;
      InitializeDemoData(now);
    }

    method InitializeDemoData(now: Time)
      requires Valid()
      requires services == map[] && portfolio == map[] && currentServiceId == 1 && currentPortfolioId == 1
      modifies this`services, this`currentServiceId, this`portfolio, this`currentPortfolioId
      ensures Valid()
      ensures services == map[1 := NewService(DemoServices[0], 1, now),
                              2 := NewService(DemoServices[1], 2, now),
                              3 := NewService(DemoServices[2], 3, now)]
      ensures portfolio == map[1 := NewPortfolio(DemoPortfolio[0], 1, now),
                               2 := NewPortfolio(DemoPortfolio[1], 2, now)]
      ensures currentServiceId == 4 && currentPortfolioId == 3
    {
      var _ := CreateService(DemoServices[0], now);
      var _ := CreateService(DemoServices[1], now);
      var _ := CreateService(DemoServices[2], now);
      var _ := CreatePortfolio(DemoPortfolio[0], now);
      var _ := CreatePortfolio(DemoPortfolio[1], now);
    }

    // ---- users ----

    function GetUser(id: int): (r: Option<User>)
      reads this
      requires Valid()
      ensures r.Some? <==> id in users
      ensures r.Some? ==> r.value == users[id] && r.value.id == id
    {
      if id in users then Some(users[id]) else None
    }

    /** The first user in insertion order, that is with the smallest id,
        whose username is `username`. */
    function GetUserByUsername(username: string): (r: Option<User>)
      reads this
      requires Valid()
      ensures r.Some? ==> r.value.username == username && r.value.id in users && users[r.value.id] == r.value
      ensures r.Some? ==> forall k :: k in users && k < r.value.id ==> users[k].username != username
      ensures r.None? ==> forall k :: k in users ==> users[k].username != username
    {
      Listing.FindInOrder(users, currentUserId, (u: User) => u.username == username, UserId)
    }

    /** A new user under a fresh id, larger than every id so far. */
    method CreateUser(ins: InsertUser) returns (user: User)
      requires Valid()
      modifies this`users, this`currentUserId
      ensures Valid()
      ensures user == NewUser(ins, old(currentUserId))
      ensures user.id !in old(users) && forall k :: k in old(users) ==> k < user.id
      ensures users == old(users)[user.id := user]
      ensures currentUserId == old(currentUserId) + 1
    {
      var id := currentUserId;
      currentUserId := currentUserId + 1;
      user := NewUser(ins, id);
      users := users[id := user];
    }

    // ---- blog posts ----

    /** `getBlogPosts(published)`: exactly the stored posts that match the
        status filter, each once, newest first, and posts created at the
        same time in ascending id (creation) order. */
    function GetBlogPosts(published: Option<bool>): (r: seq<BlogPost>)
      reads this
      requires Valid()
      ensures forall p :: p in r <==> p in blogPosts.Values && StatusMatches(p, published)
      ensures Listing.Distinct(r)
      ensures Listing.SortedDesc(r, PostCreatedAt) && Listing.TiesAscending(r, PostCreatedAt, PostId)
      ensures published.None? ==> |r| == |blogPosts|
    {
      Listing.SelectDesc(blogPosts, currentBlogPostId, p => StatusMatches(p, published), PostCreatedAt, PostId)
    }

    function GetBlogPost(id: int): (r: Option<BlogPost>)
      reads this
      requires Valid()
      ensures r.Some? <==> id in blogPosts
      ensures r.Some? ==> r.value == blogPosts[id] && r.value.id == id
    {
      if id in blogPosts then Some(blogPosts[id]) else None
    }

    /** A new post under a fresh id, larger than every id so far, even ids
        of posts deleted since. */
    method CreateBlogPost(ins: InsertBlogPost, now: Time) returns (post: BlogPost)
      requires Valid()
      modifies this`blogPosts, this`currentBlogPostId
      ensures Valid()
      ensures post == NewBlogPost(ins, old(currentBlogPostId), now)
      ensures post.id !in old(blogPosts) && forall k :: k in old(blogPosts) ==> k < post.id
      ensures blogPosts == old(blogPosts)[post.id := post]
      ensures currentBlogPostId == old(currentBlogPostId) + 1
    {
      var id := currentBlogPostId;
      currentBlogPostId := currentBlogPostId + 1;
      post := NewBlogPost(ins, id, now);
      blogPosts := blogPosts[id := post];
    }

    /** A missing id gives `None` and changes nothing; otherwise the merged
        post replaces the stored one under the same key. */
    method UpdateBlogPost(id: int, updates: UpdateBlogPost, now: Time) returns (r: Option<BlogPost>)
      requires Valid()
      modifies this`blogPosts
      ensures Valid()
      ensures r.None? <==> id !in old(blogPosts)
      ensures r.None? ==> blogPosts == old(blogPosts)
      ensures r.Some? ==> r.value == ApplyBlogPostUpdate(old(blogPosts)[id], updates, now)
      ensures r.Some? ==> blogPosts == old(blogPosts)[id := r.value]
    {
      if id !in blogPosts {
        return None;
      }
      var updated := ApplyBlogPostUpdate(blogPosts[id], updates, now);
      blogPosts := blogPosts[id := updated];
      r := Some(updated);
    }

    /** `true` exactly when the id was stored; only that key goes, so a
        second delete of the same id gives `false`. */
    method DeleteBlogPost(id: int) returns (removed: bool)
      requires Valid()
      modifies this`blogPosts
      ensures Valid()
      ensures removed <==> id in old(blogPosts)
      ensures blogPosts == old(blogPosts) - {id}
      ensures id !in blogPosts
    {
      removed := id in blogPosts;
      blogPosts := blogPosts - {id};
    }

    // ---- skin analyses ----

    method CreateSkinAnalysis(ins: InsertSkinAnalysis, now: Time) returns (analysis: SkinAnalysis)
      requires Valid()
      modifies this`skinAnalyses, this`currentSkinAnalysisId
      ensures Valid()
      ensures analysis == NewSkinAnalysis(ins, old(currentSkinAnalysisId), now)
      ensures analysis.id !in old(skinAnalyses) && forall k :: k in old(skinAnalyses) ==> k < analysis.id
      ensures skinAnalyses == old(skinAnalyses)[analysis.id := analysis]
      ensures currentSkinAnalysisId == old(currentSkinAnalysisId) + 1
    {
      var id := currentSkinAnalysisId;
      currentSkinAnalysisId := currentSkinAnalysisId + 1;
      analysis := NewSkinAnalysis(ins, id, now);
      skinAnalyses := skinAnalyses[id := analysis];
    }

    /** Every stored analysis once, newest first. */
    function GetSkinAnalyses(): (r: seq<SkinAnalysis>)
      reads this
      requires Valid()
      ensures forall a :: a in r <==> a in skinAnalyses.Values
      ensures Listing.Distinct(r) && |r| == |skinAnalyses|
      ensures Listing.SortedDesc(r, AnalysisCreatedAt) && Listing.TiesAscending(r, AnalysisCreatedAt, AnalysisId)
    {
      Listing.SelectDesc(skinAnalyses, currentSkinAnalysisId, a => true, AnalysisCreatedAt, AnalysisId)
    }

    function GetSkinAnalysis(id: int): (r: Option<SkinAnalysis>)
      reads this
      requires Valid()
      ensures r.Some? <==> id in skinAnalyses
      ensures r.Some? ==> r.value == skinAnalyses[id] && r.value.id == id
    {
      if id in skinAnalyses then Some(skinAnalyses[id]) else None
    }

    // ---- services ----

    /** Only active services, each once, smallest `order` first, equal
        orders in creation order. */
    function GetServices(): (r: seq<Service>)
      reads this
      requires Valid()
      ensures forall s :: s in r <==> s in services.Values && s.isActive
      ensures Listing.Distinct(r)
      ensures Listing.SortedAsc(r, ServiceOrder) && Listing.TiesAscending(r, ServiceOrder, ServiceId)
    {
      Listing.SelectAsc(services, currentServiceId, ServiceActive, ServiceOrder, ServiceId)
    }

    method CreateService(ins: InsertService, now: Time) returns (service: Service)
      requires Valid()
      modifies this`services, this`currentServiceId
      ensures Valid()
      ensures service == NewService(ins, old(currentServiceId), now)
      ensures service.id !in old(services) && forall k :: k in old(services) ==> k < service.id
      ensures services == old(services)[service.id := service]
      ensures currentServiceId == old(currentServiceId) + 1
    {
      var id := currentServiceId;
      currentServiceId := currentServiceId + 1;
      service := NewService(ins, id, now);
      services := services[id := service];
    }

    method UpdateService(id: int, updates: ServiceUpdate) returns (r: Option<Service>)
      requires Valid()
      modifies this`services
      ensures Valid()
      ensures r.None? <==> id !in old(services)
      ensures r.None? ==> services == old(services)
      ensures r.Some? ==> r.value == ApplyServiceUpdate(old(services)[id], updates)
      ensures r.Some? ==> services == old(services)[id := r.value]
    {
      if id !in services {
        return None;
      }
      var updated := ApplyServiceUpdate(services[id], updates);
      services := services[id := updated];
      r := Some(updated);
    }

    // ---- portfolio ----

    /** Only active items, each once, newest first, equal times in creation
        order. */
    function GetPortfolio(): (r: seq<Portfolio>)
      reads this
      requires Valid()
      ensures forall p :: p in r <==> p in portfolio.Values && p.isActive
      ensures Listing.Distinct(r)
      ensures Listing.SortedDesc(r, PortfolioCreatedAt) && Listing.TiesAscending(r, PortfolioCreatedAt, PortfolioId)
    {
      Listing.SelectDesc(portfolio, currentPortfolioId, PortfolioActive, PortfolioCreatedAt, PortfolioId)
    }

    method CreatePortfolio(ins: InsertPortfolio, now: Time) returns (item: Portfolio)
      requires Valid()
      modifies this`portfolio, this`currentPortfolioId
      ensures Valid()
      ensures item == NewPortfolio(ins, old(currentPortfolioId), now)
      ensures item.id !in old(portfolio) && forall k :: k in old(portfolio) ==> k < item.id
      ensures portfolio == old(portfolio)[item.id := item]
      ensures currentPortfolioId == old(currentPortfolioId) + 1
    {
      var id := currentPortfolioId;
      currentPortfolioId := currentPortfolioId + 1;
      item := NewPortfolio(ins, id, now);
      portfolio := portfolio[id := item];
    }

    method UpdatePortfolio(id: int, updates: PortfolioUpdate) returns (r: Option<Portfolio>)
      requires Valid()
      modifies this`portfolio
      ensures Valid()
      ensures r.None? <==> id !in old(portfolio)
      ensures r.None? ==> portfolio == old(portfolio)
      ensures r.Some? ==> r.value == ApplyPortfolioUpdate(old(portfolio)[id], updates)
      ensures r.Some? ==> portfolio == old(portfolio)[id := r.value]
    {
      if id !in portfolio {
        return None;
      }
      var updated := ApplyPortfolioUpdate(portfolio[id], updates);
      portfolio := portfolio[id := updated];
      r := Some(updated);
    }
  }

  /** The published and the draft listings never share a post, and both
      are drawn from the full listing. Posts whose free-text status is
      neither value appear only in the full listing. */
  lemma PublishedDraftPartition(store: MemStorage)
    requires store.Valid()
    ensures forall p :: p in store.GetBlogPosts(Some(true)) ==> p !in store.GetBlogPosts(Some(false))
    ensures forall p :: p in store.GetBlogPosts(Some(true)) ==> p in store.GetBlogPosts(None)
    ensures forall p :: p in store.GetBlogPosts(Some(false)) ==> p in store.GetBlogPosts(None)
    ensures |store.GetBlogPosts(Some(true))| + |store.GetBlogPosts(Some(false))| <= |store.GetBlogPosts(None)|
  {
    var pub, draft, all := store.GetBlogPosts(Some(true)), store.GetBlogPosts(Some(false)), store.GetBlogPosts(None);
    Listing.DisjointCount(pub, draft, all);
  }
}
