/** The older upstream module (server/lib/openai.ts), no longer imported by
    the routes. Its blog normaliser is the live one word for word; its skin
    analysis has other fallbacks, and it adds an Instagram-reel generator
    whose body refers to a function that is never defined. */
module LegacyGateway {
  import opened Wrappers
  import Js
  import opened Upstream
  import Gateway

  const SkinError := "피부 분석에 실패했습니다."
  const ReelError := "Instagram 릴스 분석에 실패했습니다. URL을 확인해주세요."

  const SkinFallbacks := SkinDefaults(70, 70, 50, 30, ["정기적인 스킨케어를 하세요"])

  function AnalyzeSkinImage(reply: Reply<SkinFields>): (r: Result<SkinAnalysisResult, string>)
    ensures r.Failure? <==> reply.CallFailed? || reply.Unparsable?
    ensures r.Failure? ==> r.error == SkinError
    ensures r.Success? ==> InRange(r.value)
    ensures reply.NoContent? ==> r == Success(SkinAnalysisResult(70, 70, 50, 30, ["정기적인 스킨케어를 하세요"]))
    ensures reply.Parsed? ==> r == Success(NormaliseSkin(reply.fields, SkinFallbacks))
  {
    match FieldsOf(reply, NoSkinFields)
    case None => Failure(SkinError)
    case Some(f) => Success(NormaliseSkin(f, SkinFallbacks))
  }

  /** The post a reel would have produced. */
  datatype ReelBlog = ReelBlog(title: string, content: string, excerpt: string, keywords: seq<string>, seoScore: int)

  const ReelTitle := "전문가가 추천하는 스킨케어 가이드"
  const ReelContent := "전문적인 스킨케어 정보를 제공하는 상세한 가이드입니다."
  const ReelExcerpt := "전문가가 추천하는 실용적인 스킨케어 팁과 제품 사용법을 알아보세요."
  const ReelKeywords := ["스킨케어", "뷰티팁", "피부관리", "화장품추천", "뷰티루틴"]
  const ReelSeoScore := 85

  /** The normaliser of the reel reply: text fallbacks as elsewhere, and
      unlike the blog variants a `seoScore` clamped into [1, 100]. */
  function NormaliseReel(f: BlogFields): (v: ReelBlog)
    ensures Gateway.PicksString(f.title, ReelTitle, v.title)
    ensures Gateway.PicksString(f.content, ReelContent, v.content)
    ensures Gateway.PicksString(f.excerpt, ReelExcerpt, v.excerpt)
    ensures Gateway.PicksList(f.keywords, ReelKeywords, v.keywords)
    ensures v.title != "" && v.content != "" && v.excerpt != ""
    ensures 1 <= v.seoScore <= 100
    ensures f.seoScore.Some? && f.seoScore.value > 100 ==> v.seoScore == 100
    ensures f.seoScore.Some? && f.seoScore.value < 0 ==> v.seoScore == 1
    ensures f.seoScore.None? || f.seoScore.value == 0 ==> v.seoScore == ReelSeoScore
    ensures f.seoScore.Some? && 1 <= f.seoScore.value <= 100 ==> v.seoScore == f.seoScore.value
  {
    ReelBlog(
      Js.OrString(f.title, ReelTitle),
      Js.OrString(f.content, ReelContent),
      Js.OrString(f.excerpt, ReelExcerpt),
      Js.Coalesce(f.keywords, ReelKeywords),
      ClampScore(f.seoScore, ReelSeoScore))
  }

  /** `analyzeInstagramReel`: the first awaited call names a function that
      does not exist, so the body throws before any upstream request and the
      handler turns that into the generic error, for every input. */
  function AnalyzeInstagramReel(url: string, customImages: seq<string>): (r: Result<ReelBlog, string>)
    ensures r == Failure(ReelError)
  {
    Failure(ReelError)
  }
}
