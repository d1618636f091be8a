/** The live upstream module (server/lib/openai-new.ts): three blog
    variants generated at once, and a skin analysis, each normalised from
    whatever the upstream reply carried. Any failure becomes one generic
    error and no partial result. */
module Gateway {
  import opened Wrappers
  import Js
  import opened Upstream

  datatype BasicVariant = BasicVariant(
    title: string, content: string, excerpt: string, keywords: seq<string>, seoScore: int)

  datatype NaverVariant = NaverVariant(
    title: string, content: string, excerpt: string, keywords: seq<string>, tags: seq<string>, seoScore: int)

  datatype TistoryVariant = TistoryVariant(
    title: string, content: string, excerpt: string, keywords: seq<string>, categories: seq<string>, seoScore: int)

  datatype MultiPlatformBlog = MultiPlatformBlog(basic: BasicVariant, naver: NaverVariant, tistory: TistoryVariant)

  const BlogError := "블로그 생성 중 오류가 발생했습니다."
  const SkinError := "피부 분석 중 오류가 발생했습니다."

  const BasicTitle := "전문 피부 케어 가이드"
  const BasicContent := "전문적인 피부 관리 방법을 소개합니다."
  const BasicExcerpt := "건강한 피부를 위한 전문가 조언"
  const BasicKeywords := ["피부관리", "뷰티", "스킨케어"]
  const BasicSeoScore := 80

  const NaverTitle := "피부 고민 해결하는 전문가 케어 방법은?"
  const NaverContent := "네이버 최적화 콘텐츠"
  const NaverExcerpt := "네이버 검색 최적화된 피부 케어 팁"
  const NaverKeywords := ["피부관리", "뷰티팁", "스킨케어루틴"]
  const NaverTags := ["피부관리", "뷰티", "케어팁", "스킨케어"]
  const NaverSeoScore := 85

  const TistoryTitle := "과학적 근거 기반 피부 케어 완전 가이드"
  const TistoryContent := "티스토리 최적화 콘텐츠"
  const TistoryExcerpt := "구글 SEO 최적화된 전문 피부 케어"
  const TistoryKeywords := ["skincare", "beauty", "피부관리"]
  const TistoryCategories := ["뷰티", "피부관리", "케어팁"]
  const TistorySeoScore := 88

  /** `r` is `x || d` for a string field: the upstream value when it is a
      non-empty string, the fallback otherwise. */
  predicate PicksString(x: Option<string>, d: string, r: string) {
    (x.Some? && x.value != "" ==> r == x.value) && (x.None? || x.value == "" ==> r == d)
  }

  /** `r` is `x || d` for a number field: 0 falls back like a missing value. */
  predicate PicksNumber(x: Option<int>, d: int, r: int) {
    (x.Some? && x.value != 0 ==> r == x.value) && (x.None? || x.value == 0 ==> r == d)
  }

  /** `r` is `x || d` for a list field: any list, even an empty one, is kept. */
  predicate PicksList(x: Option<seq<string>>, d: seq<string>, r: seq<string>) {
    (x.Some? ==> r == x.value) && (x.None? ==> r == d)
  }

  function NormaliseBasic(f: BlogFields): (v: BasicVariant)
    ensures PicksString(f.title, BasicTitle, v.title)
    ensures PicksString(f.content, BasicContent, v.content)
    ensures PicksString(f.excerpt, BasicExcerpt, v.excerpt)
    ensures PicksList(f.keywords, BasicKeywords, v.keywords)
    ensures PicksNumber(f.seoScore, BasicSeoScore, v.seoScore)
    ensures v.title != "" && v.content != "" && v.excerpt != ""
  {
    BasicVariant(
      Js.OrString(f.title, BasicTitle),
      Js.OrString(f.content, BasicContent),
      Js.OrString(f.excerpt, BasicExcerpt),
      Js.Coalesce(f.keywords, BasicKeywords),
      Js.OrNumber(f.seoScore, BasicSeoScore))
  }

  function NormaliseNaver(f: BlogFields): (v: NaverVariant)
    ensures PicksString(f.title, NaverTitle, v.title)
    ensures PicksString(f.content, NaverContent, v.content)
    ensures PicksString(f.excerpt, NaverExcerpt, v.excerpt)
    ensures PicksList(f.keywords, NaverKeywords, v.keywords)
    ensures PicksList(f.tags, NaverTags, v.tags)
    ensures PicksNumber(f.seoScore, NaverSeoScore, v.seoScore)
    ensures v.title != "" && v.content != "" && v.excerpt != ""
  {
    NaverVariant(
      Js.OrString(f.title, NaverTitle),
      Js.OrString(f.content, NaverContent),
      Js.OrString(f.excerpt, NaverExcerpt),
      Js.Coalesce(f.keywords, NaverKeywords),
      Js.Coalesce(f.tags, NaverTags),
      Js.OrNumber(f.seoScore, NaverSeoScore))
  }

  function NormaliseTistory(f: BlogFields): (v: TistoryVariant)
    ensures PicksString(f.title, TistoryTitle, v.title)
    ensures PicksString(f.content, TistoryContent, v.content)
    ensures PicksString(f.excerpt, TistoryExcerpt, v.excerpt)
    ensures PicksList(f.keywords, TistoryKeywords, v.keywords)
    ensures PicksList(f.categories, TistoryCategories, v.categories)
    ensures PicksNumber(f.seoScore, TistorySeoScore, v.seoScore)
    ensures v.title != "" && v.content != "" && v.excerpt != ""
  {
    TistoryVariant(
      Js.OrString(f.title, TistoryTitle),
      Js.OrString(f.content, TistoryContent),
      Js.OrString(f.excerpt, TistoryExcerpt),
      Js.Coalesce(f.keywords, TistoryKeywords),
      Js.Coalesce(f.categories, TistoryCategories),
      Js.OrNumber(f.seoScore, TistorySeoScore))
  }

  /** `generateMultiPlatformBlog` after its three upstream calls: all three
      variants when every reply can be read, otherwise the one generic
      error. */
  function GenerateMultiPlatformBlog(basic: Reply<BlogFields>, naver: Reply<BlogFields>, tistory: Reply<BlogFields>)
    : (r: Result<MultiPlatformBlog, string>)
    ensures r.Failure? <==> basic.CallFailed? || basic.Unparsable? || naver.CallFailed? || naver.Unparsable?
                            || tistory.CallFailed? || tistory.Unparsable?
    ensures r.Failure? ==> r.error == BlogError
    ensures r.Success? ==> r.value.basic == NormaliseBasic(FieldsOf(basic, NoBlogFields).value)
    ensures r.Success? ==> r.value.naver == NormaliseNaver(FieldsOf(naver, NoBlogFields).value)
    ensures r.Success? ==> r.value.tistory == NormaliseTistory(FieldsOf(tistory, NoBlogFields).value)
  {
    match (FieldsOf(basic, NoBlogFields), FieldsOf(naver, NoBlogFields), FieldsOf(tistory, NoBlogFields))
    case (Some(b), Some(n), Some(t)) =>
      Success(MultiPlatformBlog(NormaliseBasic(b), NormaliseNaver(n), NormaliseTistory(t)))
    case _ => Failure(BlogError)
  }

  /** Empty message content is read as `{}`: every variant is its fixed
      fallback, every text and list non-empty. */
  lemma NoContentGivesDefaults()
    ensures GenerateMultiPlatformBlog(NoContent, NoContent, NoContent) == Success(MultiPlatformBlog(
      BasicVariant(BasicTitle, BasicContent, BasicExcerpt, BasicKeywords, BasicSeoScore),
      NaverVariant(NaverTitle, NaverContent, NaverExcerpt, NaverKeywords, NaverTags, NaverSeoScore),
      TistoryVariant(TistoryTitle, TistoryContent, TistoryExcerpt, TistoryKeywords, TistoryCategories, TistorySeoScore)))
  {
  }

  /** The fallbacks only cover missing lists: an upstream `keywords: []`
      reaches the stored post as an empty keyword list. */
  lemma EmptyKeywordsKept()
    ensures NormaliseBasic(NoBlogFields.(keywords := Some([]))).keywords == []
  {
  }

  /** `seoScore` is not clamped here: an upstream 150 stays 150, and a
      negative score stays negative. */
  lemma SeoScoreNotClamped()
    ensures NormaliseBasic(NoBlogFields.(seoScore := Some(150))).seoScore == 150
    ensures NormaliseNaver(NoBlogFields.(seoScore := Some(-5))).seoScore == -5
  {
  }

  const SkinFallbacks := SkinDefaults(75, 60, 50, 30, [
    "충분한 수분 공급을 위해 하이드레이팅 세럼 사용을 권장합니다.",
    "자외선 차단제를 매일 사용하여 피부를 보호하세요.",
    "순한 클렌징 제품으로 하루 2회 세안하시길 바랍니다."
  ])

  /** `analyzeSkinImage` after its upstream call: four scores in [1, 100]
      and the recommendations, or the one generic error. */
  function AnalyzeSkinImage(reply: Reply<SkinFields>): (r: Result<SkinAnalysisResult, string>)
    ensures r.Failure? <==> reply.CallFailed? || reply.Unparsable?
    ensures r.Failure? ==> r.error == SkinError
    ensures r.Success? ==> InRange(r.value)
    ensures reply.NoContent? ==> r == Success(SkinAnalysisResult(75, 60, 50, 30, SkinFallbacks.recommendations))
    ensures reply.Parsed? ==> r == Success(NormaliseSkin(reply.fields, SkinFallbacks))
  {
    match FieldsOf(reply, NoSkinFields)
    case None => Failure(SkinError)
    case Some(f) => Success(NormaliseSkin(f, SkinFallbacks))
  }
}
