/** The top-level request callback of the proxy server: the order in which
    it answers preflight, health checks, banned clients and rate-limited
    clients before routing by host name to an API handler. */
module App {
  import opened Wrappers
  import opened JsString
  import RateLimit
  import Reputation

  const CLAUDE_HOST_PREFIX: string := "claude.api."
  const OPENAI_HOST_PREFIX: string := "openai.api."

  /** Where the callback sends a request. */
  datatype Route =
    | Preflight      // 204 with CORS headers
    | Pong           // 200
    | Forbidden      // 403, banned IP
    | TooManyRequests // 429
    | ClaudeApi      // handed to the Claude handler
    | OpenAiApi      // handed to the OpenAI handler
    | UnsupportedApi // 404, unknown host name
    | UnknownHost    // 400, no host name

  /** The status the callback itself answers with; the two API routes are
      answered by their handler. */
  function Status(r: Route): (s: Option<int>)
    ensures s.None? <==> r == ClaudeApi || r == OpenAiApi
    ensures s.Some? ==> s.value in {200, 204, 400, 403, 404, 429}
  {
    match r
    case Preflight => Some(204)
    case Pong => Some(200)
    case Forbidden => Some(403)
    case TooManyRequests => Some(429)
    case UnsupportedApi => Some(404)
    case UnknownHost => Some(400)
    case _ => None
  }

  /** The request passes the preflight, health-check and ban steps: only
      then is the rate limiter consulted. */
  predicate ReachesLimiter(httpMethod: string, path: Option<string>, banned: bool)
  {
    httpMethod != "OPTIONS" && path != Some("/ping") && !banned
  }

  /** The request reaches host routing. */
  predicate Routed(httpMethod: string, path: Option<string>, banned: bool, limited: bool)
  {
    ReachesLimiter(httpMethod, path, banned) && !limited
  }

  /** The routing decision, given whether the IP is banned and what the
      limiter answered; `host` is the Host header. */
  function Dispatch(httpMethod: string, path: Option<string>, banned: bool, limited: bool,
                    host: Option<string>): (r: Route)
    ensures r == Preflight <==> httpMethod == "OPTIONS"
    ensures r == Pong <==> httpMethod != "OPTIONS" && path == Some("/ping")
    ensures r == Forbidden <==> httpMethod != "OPTIONS" && path != Some("/ping") && banned
    ensures r == TooManyRequests <==> ReachesLimiter(httpMethod, path, banned) && limited
    ensures r == ClaudeApi <==>
      Routed(httpMethod, path, banned, limited) && host.Some? && StartsWith(host.value, CLAUDE_HOST_PREFIX)
    ensures r == OpenAiApi <==>
      && Routed(httpMethod, path, banned, limited) && host.Some?
      && !StartsWith(host.value, CLAUDE_HOST_PREFIX) && StartsWith(host.value, OPENAI_HOST_PREFIX)
    ensures r == UnsupportedApi <==>
      && Routed(httpMethod, path, banned, limited) && host.Some? && host.value != ""
      && !StartsWith(host.value, CLAUDE_HOST_PREFIX) && !StartsWith(host.value, OPENAI_HOST_PREFIX)
    ensures r == UnknownHost <==> Routed(httpMethod, path, banned, limited) && (host.None? || host.value == "")
  {
    if httpMethod == "OPTIONS" then Preflight
    else if path == Some("/ping") then Pong
    else if banned then Forbidden
    else if limited then TooManyRequests
    else if host.Some? && host.value != "" then
      if StartsWith(host.value, CLAUDE_HOST_PREFIX) then ClaudeApi
      else if StartsWith(host.value, OPENAI_HOST_PREFIX) then OpenAiApi
      else UnsupportedApi
    else UnknownHost
  }

  /** What the callback answers by itself: 204 to preflight, 200 to
      `/ping`, then 403 to a banned IP, 429 to a limited one, 400 without a
      host name and 404 for a host no handler serves; an API request is
      answered by its handler. */
  lemma DispatchStatus(httpMethod: string, path: Option<string>, banned: bool, limited: bool,
                       host: Option<string>)
    ensures var s := Status(Dispatch(httpMethod, path, banned, limited, host));
      && (s == Some(204) <==> httpMethod == "OPTIONS")
      && (s == Some(200) <==> httpMethod != "OPTIONS" && path == Some("/ping"))
      && (s == Some(403) <==> httpMethod != "OPTIONS" && path != Some("/ping") && banned)
      && (s == Some(429) <==> ReachesLimiter(httpMethod, path, banned) && limited)
      && (s == Some(400) <==> Routed(httpMethod, path, banned, limited) && (host.None? || host.value == ""))
      && (s.None? <==> Routed(httpMethod, path, banned, limited) && host.Some?
                       && (StartsWith(host.value, CLAUDE_HOST_PREFIX) || StartsWith(host.value, OPENAI_HOST_PREFIX)))
  {
  }

  /** The callback for one request from `ip` at time `now`. The limiter
      counts the request only when it gets that far: preflight, health
      checks and banned clients use up no rate budget. */
  method Serve(limiter: RateLimit.RateLimiter, rep: Reputation.IpReputation,
               httpMethod: string, path: Option<string>, host: Option<string>, ip: string, now: int)
    returns (r: Route)
    modifies limiter
    ensures ReachesLimiter(httpMethod, path, ip in rep.blacks) ==>
      var c := RateLimit.Admit(old(limiter.WindowOf(ip)), limiter.limit, limiter.interval, now);
      && r == Dispatch(httpMethod, path, false, c.limited, host)
      && limiter.windows == old(limiter.windows)[ip := c.window]
    ensures !ReachesLimiter(httpMethod, path, ip in rep.blacks) ==>
      r == Dispatch(httpMethod, path, ip in rep.blacks, false, host)
      && limiter.windows == old(limiter.windows)
  {
    if httpMethod == "OPTIONS" {
      return Preflight;
    }
    if path == Some("/ping") {
      return Pong;
    }
    if rep.IsBanned(ip) {
      return Forbidden;
    }
    var limited := limiter.IsRateLimited(ip, now);
    if limited {
      return TooManyRequests;
    }
    if host.Some? && host.value != "" {
      if StartsWith(host.value, CLAUDE_HOST_PREFIX) {
        r := ClaudeApi;
      } else if StartsWith(host.value, OPENAI_HOST_PREFIX) {
        r := OpenAiApi;
      } else {
        r := UnsupportedApi;
      }
    } else {
      r := UnknownHost;
    }
  }

  /** A banned client is refused without touching its rate budget, and
      no API handler sees it. */
  lemma BannedSpendsNoBudget(httpMethod: string, path: Option<string>, limited: bool, host: Option<string>)
    requires httpMethod != "OPTIONS" && path != Some("/ping")
    ensures Dispatch(httpMethod, path, true, limited, host) == Forbidden
    ensures !ReachesLimiter(httpMethod, path, true)
  {
  }

  /** A request reaches an API handler only when it is not a preflight or
      health check, the IP is not banned and the limiter admitted it. */
  lemma HandlersOnlyAfterAdmission(httpMethod: string, path: Option<string>, banned: bool, limited: bool,
                                   host: Option<string>)
    ensures Dispatch(httpMethod, path, banned, limited, host) in {ClaudeApi, OpenAiApi} ==>
      httpMethod != "OPTIONS" && path != Some("/ping") && !banned && !limited
  {
  }
}
