/** The client's pure helpers: the SEO-score bands shown next to a post,
    and the Instagram post/reel URL recogniser. */
module ClientUtils {
  import opened Wrappers

  // ---- SEO-score bands ----

  const Excellent := "우수"
  const Good := "좋음"
  const Fair := "보통"
  const NeedsWork := "개선 필요"

  /** The label of a score: 90 and above, 80 to below 90, 70 to below 80,
      and everything below 70. */
  function FormatSeoScore(score: real): (r: string)
    ensures r == Excellent <==> score >= 90.0
    ensures r == Good <==> 80.0 <= score < 90.0
    ensures r == Fair <==> 70.0 <= score < 80.0
    ensures r == NeedsWork <==> score < 70.0
  {
    if score >= 90.0 then Excellent
    else if score >= 80.0 then Good
    else if score >= 70.0 then Fair
    else NeedsWork
  }

  /** The colour class of a score, over the same three thresholds. */
  function GetSeoScoreColor(score: real): (r: string)
    ensures r == "text-emerald-600" <==> score >= 90.0
    ensures r == "text-blue-600" <==> 80.0 <= score < 90.0
    ensures r == "text-yellow-600" <==> 70.0 <= score < 80.0
    ensures r == "text-red-600" <==> score < 70.0
  {
    if score >= 90.0 then "text-emerald-600"
    else if score >= 80.0 then "text-blue-600"
    else if score >= 70.0 then "text-yellow-600"
    else "text-red-600"
  }

  /** The label and the colour always describe the same band: two scores
      share a label exactly when they share a colour. */
  lemma LabelAndColourAgree(a: real, b: real)
    ensures FormatSeoScore(a) == FormatSeoScore(b) <==> GetSeoScoreColor(a) == GetSeoScoreColor(b)
  {
  }

  /** The rank of a label, worst band first. */
  function LabelRank(text: string): int {
    if text == Excellent then 3
    else if text == Good then 2
    else if text == Fair then 1
    else 0
  }

  /** A higher score never gets a worse label. */
  lemma FormatMonotone(a: real, b: real)
    requires a <= b
    ensures LabelRank(FormatSeoScore(a)) <= LabelRank(FormatSeoScore(b))
  {
  }

  // ---- Instagram URLs ----

  /** `[a-zA-Z0-9_-]`. */
  predicate IdChar(c: char) {
    ('a' <= c <= 'z') || ('A' <= c <= 'Z') || ('0' <= c <= '9') || c == '_' || c == '-'
  }

  /** The characters `.` does not match in a regular expression without
      flags. */
  predicate LineTerminator(c: char) {
    c == '\n' || c == '\r' || c == '\U{2028}' || c == '\U{2029}'
  }

  predicate NoLineTerminator(q: string) {
    forall i :: 0 <= i < |q| ==> !LineTerminator(q[i])
  }

  /** The parts of a recognised URL: `https` or `http`, an optional `www.`,
      a `/reel/` or `/p/` path, the post id, an optional trailing slash and
      an optional query (without its `?`). */
  datatype InstagramUrl = InstagramUrl(
    secure: bool, www: bool, reel: bool, id: string, slash: bool, query: Option<string>)

  predicate WellFormed(u: InstagramUrl) {
    && |u.id| > 0
    && (forall i :: 0 <= i < |u.id| ==> IdChar(u.id[i]))
    && (u.query.Some? ==> NoLineTerminator(u.query.value))
  }

  function Tail(slash: bool, query: Option<string>): string {
    (if slash then "/" else "") + (if query.Some? then "?" + query.value else "")
  }

  function Path(u: InstagramUrl): string {
    (if u.reel then "reel/" else "p/") + u.id + Tail(u.slash, u.query)
  }

  function Host(u: InstagramUrl): string {
    (if u.www then "www." else "") + "instagram.com/" + Path(u)
  }

  /** The text of a URL from its parts. */
  function Render(u: InstagramUrl): string {
    "http" + (if u.secure then "s" else "") + "://" + Host(u)
  }

  predicate HasPrefix(s: string, p: string) {
    |p| <= |s| && s[..|p|] == p
  }

  /** The length of the longest prefix of id characters. */
  function IdRun(s: string): (n: nat)
    ensures n <= |s|
    ensures forall i :: 0 <= i < n ==> IdChar(s[i])
    ensures n < |s| ==> !IdChar(s[n])
  {
    if s == [] || !IdChar(s[0]) then 0 else 1 + IdRun(s[1..])
  }

  /** `s` is `p` followed by what is left after it. */
  lemma Strip(s: string, p: string)
    requires HasPrefix(s, p)
    ensures s == p + s[|p|..]
  {
  }

  /** What `p + rest` starts with and leaves after `p`. */
  lemma Glue(p: string, rest: string)
    ensures HasPrefix(p + rest, p) && (p + rest)[|p|..] == rest
  {
  }

  lemma Differ(s: string, p: string)
    requires |s| > 0 && |p| > 0 && s[0] != p[0]
    ensures !HasPrefix(s, p)
  {
  }

  /** After the id: an optional `/`, then the end or a `?` query with no
      line terminator. */
  function ParseTail(s: string): (r: Option<(bool, Option<string>)>)
    ensures r.Some? ==> Tail(r.value.0, r.value.1) == s
    ensures r.Some? && r.value.1.Some? ==> NoLineTerminator(r.value.1.value)
  {
    var slash := HasPrefix(s, "/");
    var rest := if slash then s[1..] else s;
    if rest == [] then
      (if slash then Strip(s, "/"); Some((slash, None)) else Some((slash, None)))
    else if rest[0] == '?' && NoLineTerminator(rest[1..]) then
      assert rest == "?" + rest[1..];
      (if slash then Strip(s, "/"); Some((slash, Some(rest[1..]))) else Some((slash, Some(rest[1..]))))
    else None
  }

  /** `(p|reel)\/` and a non-empty id, then the tail. */
  function ParsePath(s: string): (r: Option<InstagramUrl>)
    ensures r.Some? ==> WellFormed(r.value) && Path(r.value) == s && !r.value.secure && !r.value.www
  {
    var reel := HasPrefix(s, "reel/");
    if !reel && !HasPrefix(s, "p/") then None
    else
      var kind := if reel then "reel/" else "p/";
      var rest := s[|kind|..];
      Strip(s, kind);
      var n := IdRun(rest);
      if n == 0 then None
      else match ParseTail(rest[n..])
        case None => None
        case Some((slash, query)) =>
          ComposePath(s, reel, rest, n, slash, query);
          Some(InstagramUrl(false, false, reel, rest[..n], slash, query))
  }

  lemma ComposePath(s: string, reel: bool, rest: string, n: nat, slash: bool, query: Option<string>)
    requires s == (if reel then "reel/" else "p/") + rest
    requires n <= |rest| && rest[n..] == Tail(slash, query)
    ensures Path(InstagramUrl(false, false, reel, rest[..n], slash, query)) == s
  {
    assert rest == rest[..n] + rest[n..];
  }

  /** `(www\.)?instagram\.com\/`, then the path. */
  function ParseHost(s: string): (r: Option<InstagramUrl>)
    ensures r.Some? ==> WellFormed(r.value) && Host(r.value) == s && !r.value.secure
  {
    var www := HasPrefix(s, "www.");
    var lead := if www then "www." else "";
    var rest := s[|lead|..];
    Strip(s, lead);
    if !HasPrefix(rest, "instagram.com/") then None
    else match ParsePath(rest[14..])
      case None => None
      case Some(u) =>
        Strip(rest, "instagram.com/");
        ComposeHost(s, www, rest, u);
        Some(u.(www := www))
  }

  lemma ComposeHost(s: string, www: bool, rest: string, u: InstagramUrl)
    requires s == (if www then "www." else "") + rest
    requires rest == "instagram.com/" + Path(u)
    ensures Host(u.(www := www)) == s
  {
  }

  /** The regular expression
      `^https?:\/\/(www\.)?instagram\.com\/(p|reel)\/[a-zA-Z0-9_-]+\/?(\?.*)?$`
      read left to right: each optional part is taken whenever it is there,
      since the rest can match in no other way, and the id is the longest
      run of id characters, since the next character must be `/`, `?` or
      the end. */
  function ParseInstagramUrl(s: string): (r: Option<InstagramUrl>)
    ensures r.Some? ==> WellFormed(r.value) && Render(r.value) == s
  {
    if !HasPrefix(s, "http") then None
    else
      Strip(s, "http");
      ParseScheme(s[4..])
  }

  /** What follows `http`: an optional `s`, then `://` and the host part. */
  function ParseScheme(rest: string): (r: Option<InstagramUrl>)
    ensures r.Some? ==> WellFormed(r.value) && Render(r.value) == "http" + rest
  {
    var secure := HasPrefix(rest, "s");
    var lead := if secure then "s" else "";
    var rest' := rest[|lead|..];
    Strip(rest, lead);
    if !HasPrefix(rest', "://") then None
    else match ParseHost(rest'[3..])
      case None => None
      case Some(u) =>
        Strip(rest', "://");
        ComposeUrl("http" + rest, secure, rest, rest', u);
        Some(u.(secure := secure))
  }

  lemma ComposeUrl(s: string, secure: bool, rest: string, rest': string, u: InstagramUrl)
    requires s == "http" + rest
    requires rest == (if secure then "s" else "") + rest'
    requires rest' == "://" + Host(u)
    ensures Render(u.(secure := secure)) == s
  {
  }

  lemma TailRoundTrip(slash: bool, query: Option<string>)
    requires query.Some? ==> NoLineTerminator(query.value)
    ensures ParseTail(Tail(slash, query)) == Some((slash, query))
  {
    var s := Tail(slash, query);
    match query
    case None =>
      if slash {
        assert s == "/" && HasPrefix(s, "/") && s[1..] == [];
      } else {
        assert s == [];
      }
    case Some(q) =>
      var rest := "?" + q;
      assert rest[0] == '?' && rest[1..] == q;
      if slash {
        assert s == "/" + rest;
        Glue("/", rest);
      } else {
        assert s == rest;
        Differ(s, "/");
      }
  }

  /** The id stops exactly where the id characters stop. */
  lemma {:induction false} IdRunOf(id: string, t: string)
    requires forall i :: 0 <= i < |id| ==> IdChar(id[i])
    requires t == [] || !IdChar(t[0])
    ensures IdRun(id + t) == |id|
  {
    if id != [] {
      assert (id + t)[1..] == id[1..] + t;
      IdRunOf(id[1..], t);
    }
  }

  lemma PathRoundTrip(u: InstagramUrl)
    requires WellFormed(u)
    ensures ParsePath(Path(u)) == Some(u.(secure := false, www := false))
  {
    var tail := Tail(u.slash, u.query);
    var rest := u.id + tail;
    var kind := if u.reel then "reel/" else "p/";
    var s := Path(u);
    assert s == kind + rest;
    Glue(kind, rest);
    if !u.reel {
      Differ(s, "reel/");
    }
    assert tail == [] || tail[0] == '/' || tail[0] == '?';
    IdRunOf(u.id, tail);
    Glue(u.id, tail);
    TailRoundTrip(u.slash, u.query);
  }

  lemma HostRoundTrip(u: InstagramUrl)
    requires WellFormed(u)
    ensures ParseHost(Host(u)) == Some(u.(secure := false))
  {
    var rest := "instagram.com/" + Path(u);
    var lead := if u.www then "www." else "";
    var s := Host(u);
    assert s == lead + rest;
    Glue(lead, rest);
    if !u.www {
      Differ(s, "www.");
    }
    Glue("instagram.com/", Path(u));
    PathRoundTrip(u);
  }

  /** Every well-formed set of parts is recognised from its rendering. */
  lemma ParseRender(u: InstagramUrl)
    requires WellFormed(u)
    ensures ParseInstagramUrl(Render(u)) == Some(u)
  {
    var lead := if u.secure then "s" else "";
    var rest' := "://" + Host(u);
    var s := Render(u);
    assert s == "http" + (lead + rest');
    Glue("http", lead + rest');
    Glue(lead, rest');
    if !u.secure {
      Differ(rest', "s");
    }
    Glue("://", Host(u));
    HostRoundTrip(u);
  }

  /** `isValidInstagramUrl`: exactly the renderings of well-formed parts. */
  function IsValidInstagramUrl(url: string): (r: bool)
    ensures r <==> exists u :: WellFormed(u) && Render(u) == url
  {
    assert forall u :: WellFormed(u) && Render(u) == url ==> ParseInstagramUrl(url).Some? by {
      forall u | WellFormed(u) && Render(u) == url {
        ParseRender(u);
      }
    }
    ParseInstagramUrl(url).Some?
  }

  /** An `https://` URL is recognised exactly as its host part is. */
  lemma SecureUrl(host: string)
    ensures ParseInstagramUrl("https://" + host)
         == (match ParseHost(host) case None => None case Some(u) => Some(u.(secure := true)))
  {
    var s := "https://" + host;
    assert s == "http" + ("s" + ("://" + host));
    Glue("http", "s" + ("://" + host));
    Glue("s", "://" + host);
    Glue("://", host);
  }

  /** A host part without `www.` is recognised exactly as its path is. */
  lemma BareHost(path: string)
    ensures ParseHost("instagram.com/" + path) == ParsePath(path)
  {
    var host := "instagram.com/" + path;
    Differ(host, "www.");
    Glue("instagram.com/", path);
  }

  /** A `https://instagram.com/` URL is recognised exactly as its path is. */
  lemma SecureBareHost(path: string)
    ensures ParseInstagramUrl("https://instagram.com/" + path)
         == (match ParsePath(path) case None => None case Some(u) => Some(u.(secure := true)))
  {
    assert "https://instagram.com/" + path == "https://" + ("instagram.com/" + path);
    SecureUrl("instagram.com/" + path);
    BareHost(path);
  }

  lemma RejectsEmptyId()
    ensures !IsValidInstagramUrl("https://instagram.com/p/")
  {
    EmptyIdUrl();
    EmptyIdPath();
    SecureBareHost("p/");
  }

  lemma EmptyIdUrl()
    ensures "https://instagram.com/p/" == "https://instagram.com/" + "p/"
  {
  }

  lemma EmptyIdPath()
    ensures ParsePath("p/") == None
  {
    Differ("p/", "reel/");
    Glue("p/", "");
  }

  /** A `p/` path is recognised exactly as what follows its id is. */
  lemma PostPath(id: string, tail: string)
    requires |id| > 0 && forall i :: 0 <= i < |id| ==> IdChar(id[i])
    requires tail == [] || !IdChar(tail[0])
    ensures ParsePath("p/" + id + tail)
         == (match ParseTail(tail) case None => None case Some((slash, query)) => Some(InstagramUrl(false, false, false, id, slash, query)))
  {
    var path := "p/" + id + tail;
    assert path == "p/" + (id + tail);
    Differ(path, "reel/");
    Glue("p/", id + tail);
    IdRunOf(id, tail);
    Glue(id, tail);
  }

  lemma RejectsExtraSegment()
    ensures !IsValidInstagramUrl("https://instagram.com/p/abc/extra")
  {
    ExtraSegmentPath();
    assert "https://instagram.com/p/abc/extra" == "https://instagram.com/" + "p/abc/extra";
    SecureBareHost("p/abc/extra");
  }

  lemma ExtraSegmentPath()
    ensures ParsePath("p/abc/extra") == None
  {
    assert "p/abc/extra" == "p/" + "abc" + "/extra";
    SlashThenSegment("extra");
    PostPath("abc", "/extra");
  }

  /** After the id and a slash, only a query may follow. */
  lemma SlashThenSegment(segment: string)
    requires |segment| > 0 && segment[0] != '?'
    ensures ParseTail("/" + segment) == None
  {
    Glue("/", segment);
  }

  lemma RejectsFragment()
    ensures !IsValidInstagramUrl("https://instagram.com/p/abc#top")
  {
    FragmentPath();
    assert "https://instagram.com/p/abc#top" == "https://instagram.com/" + "p/abc#top";
    SecureBareHost("p/abc#top");
  }

  lemma FragmentPath()
    ensures ParsePath("p/abc#top") == None
  {
    assert "p/abc#top" == "p/" + "abc" + "#top";
    Differ("#top", "/");
    PostPath("abc", "#top");
  }

  lemma RejectsOtherPath()
    ensures !IsValidInstagramUrl("https://instagram.com/tv/abc")
  {
    var path := "tv/abc";
    assert "https://instagram.com/tv/abc" == "https://instagram.com/" + path;
    SecureBareHost(path);
    Differ(path, "reel/");
    Differ(path, "p/");
  }

  lemma RejectsOtherHost()
    ensures !IsValidInstagramUrl("https://example.com/p/abc")
  {
    OtherHostPart();
    assert "https://example.com/p/abc" == "https://" + "example.com/p/abc";
    SecureUrl("example.com/p/abc");
  }

  lemma OtherHostPart()
    ensures ParseHost("example.com/p/abc") == None
  {
    var host := "example.com/p/abc";
    Differ(host, "www.");
    Glue("", host);
    Differ(host, "instagram.com/");
  }

  lemma AcceptsReel()
    ensures IsValidInstagramUrl("https://www.instagram.com/reel/Cx9_a-1/")
  {
    ReelUrlPieces();
    ReelPath();
    WwwHost("reel/Cx9_a-1/");
    SecureUrl("www.instagram.com/" + "reel/Cx9_a-1/");
  }

  lemma ReelUrlPieces()
    ensures "https://www.instagram.com/reel/Cx9_a-1/" == "https://" + ("www.instagram.com/" + "reel/Cx9_a-1/")
  {
  }

  /** A host part with `www.` is recognised exactly as its path is. */
  lemma WwwHost(path: string)
    ensures ParseHost("www.instagram.com/" + path)
         == (match ParsePath(path) case None => None case Some(u) => Some(u.(www := true)))
  {
    var rest := "instagram.com/" + path;
    assert "www.instagram.com/" + path == "www." + rest;
    Glue("www.", rest);
    Glue("instagram.com/", path);
  }

  lemma ReelPath()
    ensures ParsePath("reel/Cx9_a-1/") == Some(InstagramUrl(false, false, true, "Cx9_a-1", true, None))
  {
    var id := "Cx9_a-1";
    assert "reel/Cx9_a-1/" == "reel/" + (id + "/");
    Glue("reel/", id + "/");
    IdRunOf(id, "/");
    Glue(id, "/");
    TailRoundTrip(true, None);
  }
}
