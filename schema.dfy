/** The record shapes of the five tables, the shapes their insert and update
    schemas accept, the column defaults, and the validator for the manual
    blog-content request. */
module Schema {
  import opened Wrappers

  /** A point in time as `Date.getTime()` reports it (milliseconds). */
  type Time = int

  /** A key of a partial update: left out, or given a value. */
  datatype Field<T> = Absent | Present(value: T) {
    function Or(current: T): T {
      if Present? then value else current
    }
  }

  /** `{ ...before, ...update }` on one key: a given value overwrites, a
      missing key keeps the stored value. */
  predicate Merges<T(==)>(f: Field<T>, before: T, after: T) {
    (f.Present? ==> after == f.value) && (f.Absent? ==> after == before)
  }

  /** A request body as the schema parser sees it: either every field it
      carries has the column's JSON type, or some field has another type
      (which the parser rejects). */
  datatype Body<T> = WellTyped(value: T) | IllTyped

  // ---- column defaults ----

  const DefaultRole := "user"
  const DefaultPlatform := "basic"
  const DefaultCustomImages: seq<string> := []
  const DefaultStatus := "draft"
  const DefaultViews := 0
  const DefaultLikes := 0
  const DefaultSeoScore := 0
  const DefaultServiceActive := true
  const DefaultServiceOrder := 0
  const DefaultPortfolioActive := true

  // ---- users ----

  datatype User = User(id: int, username: string, password: string, role: string)

  /** The insert schema picks username, password and an optional role. */
  datatype InsertUser = InsertUser(username: string, password: string, role: Option<string>)

  // ---- blog posts ----

  datatype BlogPost = BlogPost(
    id: int,
    title: string,
    content: string,
    excerpt: string,
    seoKeywords: seq<string>,
    thumbnailUrl: Option<string>,
    platform: string,
    customImages: seq<string>,
    status: string,
    views: int,
    likes: int,
    seoScore: int,
    createdAt: Time,
    updatedAt: Time)

  /** The blog-post insert schema: every column except `id`, `createdAt`
      and `updatedAt`; columns with a default, and the nullable thumbnail,
      may be left out. */
  datatype InsertBlogPost = InsertBlogPost(
    title: string,
    content: string,
    excerpt: string,
    seoKeywords: seq<string>,
    thumbnailUrl: Option<string>,
    platform: Option<string>,
    customImages: Option<seq<string>>,
    status: Option<string>,
    views: Option<int>,
    likes: Option<int>,
    seoScore: Option<int>)

  /** A create request before the required columns are checked. */
  datatype BlogPostBody = BlogPostBody(
    title: Option<string>,
    content: Option<string>,
    excerpt: Option<string>,
    seoKeywords: Option<seq<string>>,
    thumbnailUrl: Option<string>,
    platform: Option<string>,
    customImages: Option<seq<string>>,
    status: Option<string>,
    views: Option<int>,
    likes: Option<int>,
    seoScore: Option<int>)

  /** The update schema is the insert schema made partial: any column but
      `id`, `createdAt` and `updatedAt` may be given, and none must be. */
  datatype UpdateBlogPost = UpdateBlogPost(
    title: Field<string>,
    content: Field<string>,
    excerpt: Field<string>,
    seoKeywords: Field<seq<string>>,
    thumbnailUrl: Field<Option<string>>,
    platform: Field<string>,
    customImages: Field<seq<string>>,
    status: Field<string>,
    views: Field<int>,
    likes: Field<int>,
    seoScore: Field<int>)

  /** The insert schema's parse: the four columns without a default and
      without `null` must be present. */
  function ParseInsertBlogPost(b: BlogPostBody): (r: Option<InsertBlogPost>)
    ensures r.Some? <==> b.title.Some? && b.content.Some? && b.excerpt.Some? && b.seoKeywords.Some?
    ensures r.Some? ==>
      && r.value.title == b.title.value && r.value.content == b.content.value
      && r.value.excerpt == b.excerpt.value && r.value.seoKeywords == b.seoKeywords.value
      && r.value.thumbnailUrl == b.thumbnailUrl && r.value.platform == b.platform
      && r.value.customImages == b.customImages && r.value.status == b.status
      && r.value.views == b.views && r.value.likes == b.likes && r.value.seoScore == b.seoScore
  {
    match (b.title, b.content, b.excerpt, b.seoKeywords)
    case (Some(title), Some(content), Some(excerpt), Some(keywords)) =>
      Some(InsertBlogPost(title, content, excerpt, keywords, b.thumbnailUrl, b.platform,
                          b.customImages, b.status, b.views, b.likes, b.seoScore))
    case _ => None
  }

  // ---- skin analyses ----

  datatype SkinAnalysis = SkinAnalysis(
    id: int,
    imageUrl: string,
    overallScore: int,
    moistureLevel: int,
    oilLevel: int,
    troubleLevel: int,
    recommendations: seq<string>,
    createdAt: Time)

  datatype InsertSkinAnalysis = InsertSkinAnalysis(
    imageUrl: string,
    overallScore: int,
    moistureLevel: int,
    oilLevel: int,
    troubleLevel: int,
    recommendations: seq<string>)

  // ---- services ----

  datatype Service = Service(
    id: int,
    title: string,
    description: string,
    icon: string,
    features: seq<string>,
    isActive: bool,
    order: int,
    createdAt: Time)

  datatype InsertService = InsertService(
    title: string,
    description: string,
    icon: string,
    features: seq<string>,
    isActive: Option<bool>,
    order: Option<int>)

  datatype ServiceUpdate = ServiceUpdate(
    title: Field<string>,
    description: Field<string>,
    icon: Field<string>,
    features: Field<seq<string>>,
    isActive: Field<bool>,
    order: Field<int>)

  // ---- portfolio ----

  datatype Portfolio = Portfolio(
    id: int,
    title: string,
    description: string,
    imageUrl: Option<string>,
    projectUrl: Option<string>,
    technologies: seq<string>,
    category: string,
    isActive: bool,
    createdAt: Time)

  datatype InsertPortfolio = InsertPortfolio(
    title: string,
    description: string,
    imageUrl: Option<string>,
    projectUrl: Option<string>,
    technologies: seq<string>,
    category: string,
    isActive: Option<bool>)

  datatype PortfolioUpdate = PortfolioUpdate(
    title: Field<string>,
    description: Field<string>,
    imageUrl: Field<Option<string>>,
    projectUrl: Field<Option<string>>,
    technologies: Field<seq<string>>,
    category: Field<string>,
    isActive: Field<bool>)

  // ---- the manual blog-content request ----

  const MinOutlineLength := 50
  const SkinTypes := ["dry", "oily", "combination", "sensitive", "normal"]
  const TreatmentTypes := ["acne", "aging", "pigmentation", "hydration", "pore", "sensitive"]

  /** The request body of blog generation, before validation. */
  datatype ManualBlogBody = ManualBlogBody(
    contentOutline: Option<string>,
    beforeAfterImages: Option<seq<string>>,
    productImages: Option<seq<string>>,
    overviewImages: Option<seq<string>>,
    targetKeywords: Option<seq<string>>,
    skinType: Option<string>,
    treatmentType: Option<string>)

  /** A body that passed validation. */
  datatype ManualBlogContent = ManualBlogContent(
    contentOutline: string,
    beforeAfterImages: seq<string>,
    productImages: Option<seq<string>>,
    overviewImages: Option<seq<string>>,
    targetKeywords: Option<seq<string>>,
    skinType: Option<string>,
    treatmentType: Option<string>)

  /** One validation failure, in the order the schema lists its fields. */
  datatype Issue =
    | OutlineRequired
    | OutlineTooShort
    | BeforeAfterRequired
    | BeforeAfterEmpty
    | SkinTypeInvalid
    | TreatmentTypeInvalid

  function OutlineIssues(outline: Option<string>): seq<Issue> {
    match outline
    case None => [OutlineRequired]
    case Some(s) => if |s| < MinOutlineLength then [OutlineTooShort] else []
  }

  function BeforeAfterIssues(images: Option<seq<string>>): seq<Issue> {
    match images
    case None => [BeforeAfterRequired]
    case Some(list) => if |list| < 1 then [BeforeAfterEmpty] else []
  }

  function EnumIssues(value: Option<string>, allowed: seq<string>, issue: Issue): seq<Issue> {
    if value.Some? && value.value !in allowed then [issue] else []
  }

  /** Every issue the schema reports for `b`, field by field. */
  function Issues(b: ManualBlogBody): seq<Issue> {
    OutlineIssues(b.contentOutline)
    + BeforeAfterIssues(b.beforeAfterImages)
    + EnumIssues(b.skinType, SkinTypes, SkinTypeInvalid)
    + EnumIssues(b.treatmentType, TreatmentTypes, TreatmentTypeInvalid)
  }

  /** `manualBlogContentSchema.safeParse`: the outline has at least 50
      characters, at least one before/after image is given, and a skin or
      treatment type, when given, is one of the listed values. A body that
      passes is carried over unchanged; one that fails lists every issue. */
  function ParseManualBlogContent(b: ManualBlogBody): (r: Result<ManualBlogContent, seq<Issue>>)
    ensures r.Success? <==>
      && b.contentOutline.Some? && |b.contentOutline.value| >= 50
      && b.beforeAfterImages.Some? && |b.beforeAfterImages.value| >= 1
      && (b.skinType.Some? ==> b.skinType.value in SkinTypes)
      && (b.treatmentType.Some? ==> b.treatmentType.value in TreatmentTypes)
    ensures r.Success? ==>
      && r.value.contentOutline == b.contentOutline.value
      && r.value.beforeAfterImages == b.beforeAfterImages.value
      && r.value.productImages == b.productImages
      && r.value.overviewImages == b.overviewImages
      && r.value.targetKeywords == b.targetKeywords
      && r.value.skinType == b.skinType
      && r.value.treatmentType == b.treatmentType
    ensures r.Failure? ==> |r.error| > 0
    ensures r.Failure? && b.contentOutline.Some? && |b.contentOutline.value| < 50 ==> OutlineTooShort in r.error
    ensures r.Failure? && b.beforeAfterImages == Some([]) ==> BeforeAfterEmpty in r.error
  {
    var issues := Issues(b);
    if issues == [] then
      Success(ManualBlogContent(b.contentOutline.value, b.beforeAfterImages.value, b.productImages,
                                b.overviewImages, b.targetKeywords, b.skinType, b.treatmentType))
    else
      Failure(issues)
  }
}
