/** What the server does with a language-model reply once the foreign call
    is abstracted away: the reply is either missing, unparsable, or a JSON
    object whose fields may each be absent, and the server fills the gaps
    with `||` fallbacks and clamps scores into [1, 100]. */
module Upstream {
  import opened Wrappers
  import Js

  /** The fields a blog-generation reply may carry; `None` is a missing key
      or `null`. */
  datatype BlogFields = BlogFields(
    title: Option<string>,
    content: Option<string>,
    excerpt: Option<string>,
    keywords: Option<seq<string>>,
    tags: Option<seq<string>>,
    categories: Option<seq<string>>,
    seoScore: Option<int>)

  /** The object `{}`. */
  const NoBlogFields := BlogFields(None, None, None, None, None, None, None)

  /** The fields a skin-analysis reply may carry. */
  datatype SkinFields = SkinFields(
    overallScore: Option<int>,
    moistureLevel: Option<int>,
    oilLevel: Option<int>,
    troubleLevel: Option<int>,
    recommendations: Option<seq<string>>)

  const NoSkinFields := SkinFields(None, None, None, None, None)

  /** One reply of the upstream service: the call threw, the message had no
      (or empty) content, the content was not JSON or was `null`, or it
      parsed to a value whose fields were read. */
  datatype Reply<R> = CallFailed | NoContent | Unparsable | Parsed(fields: R)

  /** `JSON.parse(content || "{}")` followed by field reads: empty content
      reads as `{}`, and only a failed call or unreadable JSON gives no
      fields at all. */
  function FieldsOf<R>(reply: Reply<R>, empty: R): (r: Option<R>)
    ensures r.None? <==> reply.CallFailed? || reply.Unparsable?
    ensures reply.NoContent? ==> r == Some(empty)
    ensures reply.Parsed? ==> r == Some(reply.fields)
  {
    match reply
    case CallFailed => None
    case Unparsable => None
    case NoContent => Some(empty)
    case Parsed(f) => Some(f)
  }

  /** `Math.max(1, Math.min(100, v || d))`. */
  function ClampScore(v: Option<int>, d: int): (r: int)
    ensures 1 <= r <= 100
    ensures v.Some? && 1 <= v.value <= 100 ==> r == v.value
    ensures v.Some? && v.value > 100 ==> r == 100
    ensures v.Some? && v.value < 0 ==> r == 1
    ensures (v.None? || v.value == 0) && 1 <= d <= 100 ==> r == d
  {
    var x := Js.OrNumber(v, d);
    if x > 100 then 100 else if x < 1 then 1 else x
  }

  /** Clamping a clamped score changes nothing, whatever the fallback. */
  lemma ClampIdempotent(v: Option<int>, d: int, d': int)
    ensures ClampScore(Some(ClampScore(v, d)), d') == ClampScore(v, d)
  {
  }

  /** Clamping never moves a score down past a larger one: it is monotone
      in the upstream value. */
  lemma ClampMonotone(a: int, b: int, d: int)
    requires 1 <= a <= b
    ensures ClampScore(Some(a), d) <= ClampScore(Some(b), d)
  {
  }

  /** The normalised result of a skin analysis. */
  datatype SkinAnalysisResult = SkinAnalysisResult(
    overallScore: int,
    moistureLevel: int,
    oilLevel: int,
    troubleLevel: int,
    recommendations: seq<string>)

  /** The fallbacks one module uses for a skin analysis. */
  datatype SkinDefaults = SkinDefaults(
    overallScore: int,
    moistureLevel: int,
    oilLevel: int,
    troubleLevel: int,
    recommendations: seq<string>)

  predicate InRange(s: SkinAnalysisResult) {
    1 <= s.overallScore <= 100 && 1 <= s.moistureLevel <= 100
    && 1 <= s.oilLevel <= 100 && 1 <= s.troubleLevel <= 100
  }

  /** Every score is clamped into [1, 100] with its own fallback; the
      recommendation list is kept whenever it is present, even empty,
      because an array is always truthy. */
  function NormaliseSkin(f: SkinFields, d: SkinDefaults): (r: SkinAnalysisResult)
    ensures InRange(r)
    ensures r.overallScore == ClampScore(f.overallScore, d.overallScore)
    ensures r.moistureLevel == ClampScore(f.moistureLevel, d.moistureLevel)
    ensures r.oilLevel == ClampScore(f.oilLevel, d.oilLevel)
    ensures r.troubleLevel == ClampScore(f.troubleLevel, d.troubleLevel)
    ensures f.recommendations.Some? ==> r.recommendations == f.recommendations.value
    ensures f.recommendations.None? ==> r.recommendations == d.recommendations
  {
    SkinAnalysisResult(
      ClampScore(f.overallScore, d.overallScore),
      ClampScore(f.moistureLevel, d.moistureLevel),
      ClampScore(f.oilLevel, d.oilLevel),
      ClampScore(f.troubleLevel, d.troubleLevel),
      Js.Coalesce(f.recommendations, d.recommendations))
  }

  /** The `{}` reply yields exactly the fallbacks when they are in range. */
  lemma EmptySkinGivesDefaults(d: SkinDefaults)
    requires 1 <= d.overallScore <= 100 && 1 <= d.moistureLevel <= 100
    requires 1 <= d.oilLevel <= 100 && 1 <= d.troubleLevel <= 100
    ensures NormaliseSkin(NoSkinFields, d)
         == SkinAnalysisResult(d.overallScore, d.moistureLevel, d.oilLevel, d.troubleLevel, d.recommendations)
  {
  }

  /** A reply whose scores are already in range passes through unchanged. */
  lemma InRangeReplyUnchanged(s: SkinAnalysisResult, d: SkinDefaults)
    requires InRange(s)
    ensures NormaliseSkin(SkinFields(Some(s.overallScore), Some(s.moistureLevel), Some(s.oilLevel),
                                     Some(s.troubleLevel), Some(s.recommendations)), d) == s
  {
  }
}
