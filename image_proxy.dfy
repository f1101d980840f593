/**
 * `GET /api/image-proxy?url=...`: fetches an image for the share-card export
 * from a fixed list of Steam image hosts. Requests that fail validation get a
 * 400 with a short message; anything that goes wrong after validation, and a
 * URL that cannot be percent-decoded, gets a 1x1 transparent PNG instead, so
 * that the export never breaks on a missing image.
 */
module ImageProxy {
  import opened Wrappers

  /** The six hosts images may come from; a hostname must equal one of them exactly. */
  const AllowedDomains: seq<string> := [
    "steamcdn-a.akamaihd.net",
    "shared.akamai.steamstatic.com",
    "cdn.cloudflare.steamstatic.com",
    "avatars.steamstatic.com",
    "avatars.akamai.steamstatic.com",
    "cdn.akamai.steamstatic.com"]

  const AllowedProtocols: seq<string> := ["http:", "https:"]

  /** What `new URL(...)` yields that the route looks at. */
  datatype ParsedUrl = ParsedUrl(protocol: string, hostname: string)

  /** The upstream fetch: it threw (network error, the 3-second abort), or it answered. */
  datatype Fetched = Threw | Answered(ok: bool, contentType: Option<string>)

  datatype Body = Message(text: string) | Upstream | Placeholder

  datatype Response = Response(
    status: int,
    contentType: Option<string>,
    cacheControl: Option<string>,
    allowOrigin: Option<string>,
    body: Body)

  const OneDayCache: string := "public, max-age=86400, mutable"

  /** The Content-Type a Fetch `Response` gives itself when its body is a string. */
  const PlainText: string := "text/plain;charset=UTF-8"

  /** `new NextResponse(text, { status: 400 })`: the route sets no header, so only the string body's default type is present. */
  function BadRequest(text: string): Response {
    Response(400, Some(PlainText), None, None, Message(text))
  }

  /** The catch branch: the transparent PNG, not cached, usable from any origin. */
  const Fallback: Response := Response(200, Some("image/png"), Some("no-cache"), Some("*"), Placeholder)

  /** The URL passed every check, so the route goes on to fetch it. */
  predicate Allowed(p: ParsedUrl) {
    p.hostname in AllowedDomains && p.protocol in AllowedProtocols
  }

  /**
   * The route, given the `url` query parameter, what `decodeURIComponent`
   * made of it (`None` when it threw), what `new URL` made of that (`None`
   * when it threw) and what the fetch returned. The last two are only looked
   * at once the route gets that far.
   */
  function Respond(url: Option<string>, decoded: Option<string>, parsed: Option<ParsedUrl>, fetched: Fetched): (r: Response)
    ensures r.status == 400 || r.status == 200
    ensures r.status == 400 ==>
      r.body.Message? && r.contentType == Some(PlainText) && r.cacheControl.None? && r.allowOrigin.None?
    ensures r.status == 200 ==> r.allowOrigin == Some("*")
  {
    if url.None? || url.value == "" then BadRequest("Missing URL parameter")
    else if decoded.None? then Fallback
    else if parsed.None? then BadRequest("Invalid URL format")
    else if parsed.value.hostname !in AllowedDomains then BadRequest("Domain not allowed")
    else if parsed.value.protocol !in AllowedProtocols then BadRequest("Invalid protocol")
    else if fetched.Threw? || !fetched.ok then Fallback
    else
      var ct := if fetched.contentType.Some? && fetched.contentType.value != "" then fetched.contentType.value else "image/jpeg";
      Response(200, Some(ct), Some(OneDayCache), Some("*"), Upstream)
  }

  /** A request is refused with 400 exactly when the parameter is missing or the decoded URL fails a check. */
  lemma BadRequestIff(url: Option<string>, decoded: Option<string>, parsed: Option<ParsedUrl>, fetched: Fetched)
    ensures Respond(url, decoded, parsed, fetched).status == 400 <==>
      url.None? || url.value == "" || (decoded.Some? && (parsed.None? || !Allowed(parsed.value)))
  {
  }

  /** The upstream image is served only from an allowed host over http or https, after an OK answer. */
  lemma UpstreamOnlyFromAllowedHosts(url: Option<string>, decoded: Option<string>, parsed: Option<ParsedUrl>, fetched: Fetched)
    ensures Respond(url, decoded, parsed, fetched).body == Upstream <==>
      url.Some? && url.value != "" && decoded.Some? && parsed.Some? && Allowed(parsed.value) && fetched.Answered? && fetched.ok
  {
  }

  /** The placeholder is served exactly when decoding throws, or when an allowed URL's fetch fails. */
  lemma PlaceholderIff(url: Option<string>, decoded: Option<string>, parsed: Option<ParsedUrl>, fetched: Fetched)
    ensures var r := Respond(url, decoded, parsed, fetched);
      var failedLate := parsed.Some? && Allowed(parsed.value) && (fetched.Threw? || !fetched.ok);
      (r.body == Placeholder <==> (url.Some? && url.value != "" && (decoded.None? || failedLate)))
      && (r.body == Placeholder ==> r == Fallback)
  {
  }

  /** A served image keeps the upstream content type, or is labelled JPEG without one, and is cached for a day. */
  lemma UpstreamHeaders(url: string, decoded: string, parsed: ParsedUrl, contentType: Option<string>)
    requires url != "" && Allowed(parsed)
    ensures var r := Respond(Some(url), Some(decoded), Some(parsed), Answered(true, contentType));
      && r.status == 200
      && r.contentType == Some(if contentType.Some? && contentType.value != "" then contentType.value else "image/jpeg")
      && r.cacheControl == Some(OneDayCache)
  {
  }

  /** The host is checked before the protocol: a foreign host is reported as such whatever its protocol. */
  lemma HostCheckedFirst(url: string, decoded: string, parsed: ParsedUrl, fetched: Fetched)
    requires url != "" && parsed.hostname !in AllowedDomains
    ensures Respond(Some(url), Some(decoded), Some(parsed), fetched) == BadRequest("Domain not allowed")
  {
  }

  /** The check is exact: a subdomain of an allowed host is refused, and so is an allowed host over another protocol. */
  lemma HostMatchIsExact(url: string, decoded: string, fetched: Fetched)
    requires url != ""
    ensures Respond(Some(url), Some(decoded), Some(ParsedUrl("https:", "x.avatars.steamstatic.com")), fetched).status == 400
    ensures Respond(Some(url), Some(decoded), Some(ParsedUrl("ftp:", "avatars.steamstatic.com")), fetched) == BadRequest("Invalid protocol")
  {
    assert "x.avatars.steamstatic.com" !in AllowedDomains by {
      forall d | d in AllowedDomains
        ensures d != "x.avatars.steamstatic.com"
      {
        assert |d| != |"x.avatars.steamstatic.com"|;
      }
    }
    assert "ftp:" !in AllowedProtocols by {
      assert "http:"[0] == "https:"[0] == 'h' != "ftp:"[0];
    }
    assert "avatars.steamstatic.com" == AllowedDomains[3];
  }
}
