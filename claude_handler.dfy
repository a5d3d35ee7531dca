/** The request handling shared by the two Claude handlers: the standalone
    server callback of `claude-api-proxy.js` and `handleRequest` of
    `claude-proxy.js`. Both run the same validation chain, header
    allow-list, JSON-body gate, relay and usage extraction; they differ in
    whether CORS preflight and the ban check come first and whether a
    completed request clears the IP's error counter, which `Variant` says. */
module ClaudeHandler {
  import opened Wrappers
  import opened JsString
  import opened JsValue
  import opened EventStream
  import opened Usage
  import Reputation

  const CLAUDE_API_HOST: string := "api.anthropic.com"
  const ALLOWED_HEADERS: seq<string> := ["x-api-key", "anthropic-version", "anthropic-beta", "content-type"]
  const SUPPORTED_PATH: string := "/v1/messages"
  const PATH_REQUIRING_BETA: string := "/v1/messages/batches"

  /** Which handler: `Standalone` answers OPTIONS and checks the ban itself
      and clears the error counter when a request completes; `Injected` (the
      module that the dispatcher calls) does neither. */
  datatype Variant = Standalone | Injected

  /** An inbound request. `path` (with query) and `pathname` are what
      `url.parse(req.url || '')` yields, absent for an empty URL; a header
      name not in `headers` is `undefined`. */
  datatype Request = Request(
    httpMethod: string,
    path: Option<string>,
    pathname: Option<string>,
    headers: map<string, string>,
    body: string)

  /** A request header that is truthy: present and not empty. */
  predicate HasHeader(headers: map<string, string>, name: string)
  {
    name in headers && headers[name] != ""
  }

  /** `parsedUrl.pathname?.startsWith(prefix)`. */
  predicate PathStartsWith(req: Request, prefix: string)
  {
    req.pathname.Some? && StartsWith(req.pathname.value, prefix)
  }

  /** The three local validation failures, each recorded against the IP. */
  datatype ErrorKind = UnsupportedPath | MissingApiKey | MissingBetaHeader

  /** The `errorType` string passed to `recordIPError`. */
  function ErrorType(k: ErrorKind): string
  {
    match k
    case UnsupportedPath => "unsupported_path"
    case MissingApiKey => "missing_api_key"
    case MissingBetaHeader => "missing_beta_header"
  }

  /** The status each validation failure is answered with. */
  function RejectStatus(k: ErrorKind): int
  {
    match k
    case UnsupportedPath => 404
    case MissingApiKey => 401
    case MissingBetaHeader => 400
  }

  /** The validation chain, in its order: a path outside `/v1/messages`,
      then a missing `x-api-key`, then a batches path without
      `anthropic-beta`. */
  function Validate(req: Request): (r: Option<ErrorKind>)
    ensures r == Some(UnsupportedPath) <==> !PathStartsWith(req, SUPPORTED_PATH)
    ensures r == Some(MissingApiKey) <==>
      PathStartsWith(req, SUPPORTED_PATH) && !HasHeader(req.headers, "x-api-key")
    ensures r == Some(MissingBetaHeader) <==>
      && PathStartsWith(req, SUPPORTED_PATH) && HasHeader(req.headers, "x-api-key")
      && PathStartsWith(req, PATH_REQUIRING_BETA) && !HasHeader(req.headers, "anthropic-beta")
    ensures r == None <==>
      && PathStartsWith(req, SUPPORTED_PATH) && HasHeader(req.headers, "x-api-key")
      && (PathStartsWith(req, PATH_REQUIRING_BETA) ==> HasHeader(req.headers, "anthropic-beta"))
  {
    if !PathStartsWith(req, SUPPORTED_PATH) then Some(UnsupportedPath)
    else if !HasHeader(req.headers, "x-api-key") then Some(MissingApiKey)
    else if PathStartsWith(req, PATH_REQUIRING_BETA) && !HasHeader(req.headers, "anthropic-beta") then Some(MissingBetaHeader)
    else None
  }

  /** The headers of the upstream request: every allow-listed header that is
      truthy, copied verbatim, and `host` forced to the Claude API host; no
      other inbound header passes. */
  function UpstreamHeaders(headers: map<string, string>): (out: map<string, string>)
    ensures forall k :: k in out ==> k in ALLOWED_HEADERS || k == "host"
    ensures "host" in out && out["host"] == CLAUDE_API_HOST
    ensures forall k :: k in ALLOWED_HEADERS ==> (k in out <==> HasHeader(headers, k))
    ensures forall k :: k in ALLOWED_HEADERS && HasHeader(headers, k) ==> k in out && out[k] == headers[k]
  {
    (map k | k in ALLOWED_HEADERS && HasHeader(headers, k) :: headers[k])["host" := CLAUDE_API_HOST]
  }

  /** The `ALLOWED_HEADERS.forEach` loop that fills `options.headers`,
      followed by the forced `host`. */
  method BuildUpstreamHeaders(headers: map<string, string>) returns (out: map<string, string>)
    ensures out == UpstreamHeaders(headers)
  {
    out := map[];
    for i := 0 to |ALLOWED_HEADERS|
      invariant out == map k | k in ALLOWED_HEADERS[..i] && HasHeader(headers, k) :: headers[k]
    {
      var header := ALLOWED_HEADERS[i];
      if HasHeader(headers, header) {
        out := out[header := headers[header]];
      }
      assert ALLOWED_HEADERS[..i + 1] == ALLOWED_HEADERS[..i] + [header];
    }
    assert ALLOWED_HEADERS[..|ALLOWED_HEADERS|] == ALLOWED_HEADERS;
    out := out["host" := CLAUDE_API_HOST];
  }

  /** Only POST and PUT with content type exactly `application/json` have
      their body parsed before dispatch. */
  predicate ChecksJsonBody(req: Request)
  {
    && (req.httpMethod == "POST" || req.httpMethod == "PUT")
    && "content-type" in req.headers && req.headers["content-type"] == "application/json"
  }

  /** The upstream request: same method and path, filtered headers, and the
      body written for every method but GET and HEAD. */
  datatype Upstream = Upstream(httpMethod: string, path: Option<string>, headers: map<string, string>, sendsBody: bool)

  /** What the handler decides before any upstream exchange. */
  datatype Decision =
    | Preflight                                  // 204 with CORS headers
    | Banned                                     // 403
    | Rejected(kind: ErrorKind)                  // recorded, 404/401/400
    | InvalidJson                                // 400, not recorded
    | Forward(upstream: Upstream, params: Value) // dispatched upstream

  /** The early-return chain of both handlers. `banned` is whether the IP
      is in the ban set; only the standalone handler looks at it. */
  function Decide(v: Variant, req: Request, banned: bool, parse: string -> Option<Value>): (d: Decision)
    ensures v == Standalone && req.httpMethod == "OPTIONS" ==> d == Preflight
    ensures d == Preflight ==> v == Standalone && req.httpMethod == "OPTIONS"
    ensures d == Banned <==> v == Standalone && req.httpMethod != "OPTIONS" && banned
    ensures d.Rejected? <==>
      !(v == Standalone && (req.httpMethod == "OPTIONS" || banned)) && Validate(req).Some?
    ensures d.Rejected? ==> Validate(req) == Some(d.kind)
    ensures d == InvalidJson <==>
      && !(v == Standalone && (req.httpMethod == "OPTIONS" || banned)) && Validate(req).None?
      && ChecksJsonBody(req) && parse(req.body).None?
    ensures d.Forward? ==>
      && d.upstream.httpMethod == req.httpMethod && d.upstream.path == req.path
      && d.upstream.headers == UpstreamHeaders(req.headers)
      && (d.upstream.sendsBody <==> req.httpMethod != "GET" && req.httpMethod != "HEAD")
      && d.params == (if ChecksJsonBody(req) then parse(req.body).value else Obj(map[]))
  {
    if v == Standalone && req.httpMethod == "OPTIONS" then Preflight
    else if v == Standalone && banned then Banned
    else match Validate(req)
      case Some(kind) => Rejected(kind)
      case None =>
        var up := Upstream(req.httpMethod, req.path, UpstreamHeaders(req.headers),
                           req.httpMethod != "GET" && req.httpMethod != "HEAD");
        if ChecksJsonBody(req) then
          match parse(req.body)
          case None => InvalidJson
          case Some(json) => Forward(up, json)
        else Forward(up, Obj(map[]))
  }

  /** How the upstream exchange ended: a transport error, or a response
      with its status, content type and body chunks; `at` is the time it
      ended. */
  datatype Exchange =
    | TransportError(message: string, at: int)
    | Completed(status: int, contentType: Option<string>, chunks: seq<string>, at: int)

  /** The request log record. */
  datatype LogRecord = LogRecord(
    sourceIP: string,
    path: Option<string>,
    apiKey: Option<string>,
    params: Value,
    totalTime: int,
    tokens: Tokens,
    error: Option<string>)

  /** The record as created at the start of the request. */
  function InitialLog(req: Request, ip: string): LogRecord
  {
    LogRecord(ip, req.path,
              if "x-api-key" in req.headers then Some(req.headers["x-api-key"]) else None,
              Obj(map[]), 0, NO_TOKENS, None)
  }

  predicate IsEventStream(contentType: Option<string>)
  {
    contentType == Some("text/event-stream")
  }

  /** All chunks of a response body joined, `responseBody`. */
  function Concat(chunks: seq<string>): string
  {
    if chunks == [] then "" else Concat(chunks[..|chunks| - 1]) + chunks[|chunks| - 1]
  }

  /** The token fields after the whole response: for an event stream, every
      event of every chunk folded in order; otherwise one read of the
      buffered body. */
  function ResponseTokens(t: Tokens, contentType: Option<string>, chunks: seq<string>,
                          parse: string -> Option<Value>): Tokens
  {
    if IsEventStream(contentType) then FoldEvents(t, StreamEvents(chunks, parse))
    else BodyTokens(t, Concat(chunks), parse)
  }

  /** The relay of one upstream response: the status mirrored to the client
      (`statusCode || 500`), each chunk appended to `responseBody` and, for
      an event stream, decoded and folded into the token fields as it
      arrives; a non-stream body is read once at the end. */
  method Relay(t: Tokens, status: int, contentType: Option<string>, chunks: seq<string>,
               parse: string -> Option<Value>)
    returns (clientStatus: int, t': Tokens)
    ensures clientStatus == if status == 0 then 500 else status
    ensures t' == ResponseTokens(t, contentType, chunks, parse)
  {
    clientStatus := if status == 0 then 500 else status;
    var isEventStream := IsEventStream(contentType);
    var responseBody := "";
    t' := t;
    for i := 0 to |chunks|
      invariant responseBody == Concat(chunks[..i])
      invariant isEventStream ==> t' == FoldEvents(t, StreamEvents(chunks[..i], parse))
      invariant !isEventStream ==> t' == t
    {
      var chunk := chunks[i];
      responseBody := responseBody + chunk;
      if isEventStream {
        var events := ParseEventStream(chunk, parse);
        FoldEventsAppend(t, StreamEvents(chunks[..i], parse), events);
        t' := AccumulateEvents(t', events);
      }
      assert chunks[..i + 1][..i] == chunks[..i];
    }
    assert chunks[..|chunks|] == chunks;
    if !isEventStream {
      t' := BodyTokens(t', responseBody, parse);
    }
  }

  /** The outcome a client sees: a status and the log record written, if any. */
  datatype Response = Response(status: int, log: Option<LogRecord>)

  /** What the client of a forwarded request receives and the log record
      written, starting from `log`: a transport error answers 500 and logs
      its message; a response mirrors its status (`statusCode || 500`) and
      logs the tokens read from its body. */
  function Forwarded(log: LogRecord, now: int, parse: string -> Option<Value>, exchange: Exchange): (r: Response)
    ensures r.status != 0 && r.log.Some?
    ensures exchange.TransportError? ==> r.status == 500
    ensures r.log.value.totalTime == exchange.at - now
    ensures exchange.TransportError? ==> r.log.value.error == Some(exchange.message)
    ensures exchange.Completed? ==> r.log.value.error == log.error
    ensures r.log.value.(totalTime := log.totalTime, tokens := log.tokens, error := log.error) == log
  {
    match exchange
    case TransportError(message, at) =>
      Response(500, Some(log.(totalTime := at - now, error := Some(message))))
    case Completed(status, contentType, chunks, at) =>
      Response(if status == 0 then 500 else status,
               Some(log.(totalTime := at - now,
                         tokens := ResponseTokens(log.tokens, contentType, chunks, parse))))
  }

  /** What the client receives and which log record is written, for a
      request decided as `d`. */
  function Outcome(d: Decision, req: Request, ip: string, now: int,
                   parse: string -> Option<Value>, exchange: Exchange): (r: Response)
    ensures r.log.Some? <==> d.Forward?
    ensures !d.Forward? ==> r.status == 204 || 400 <= r.status <= 404
  {
    match d
    case Preflight => Response(204, None)
    case Banned => Response(403, None)
    case Rejected(kind) => Response(RejectStatus(kind), None)
    case InvalidJson => Response(400, None)
    case Forward(_, params) => Forwarded(InitialLog(req, ip).(params := params), now, parse, exchange)
  }

  /** The change to the IP reputation state: a validation failure records
      one error of its kind, a completed exchange in the standalone handler
      clears the counter, everything else leaves the state as it was. */
  function Effect(v: Variant, d: Decision, data: Reputation.IpData, ip: string, now: int,
                  exchange: Exchange): (u: Reputation.Update)
    ensures u.save ==> d.Rejected? || (v == Standalone && d.Forward? && exchange.Completed?)
    ensures u.save && d.Rejected? ==> ip in u.data.blacks
  {
    match d
    case Rejected(kind) => Reputation.RecordError(data, ip, ErrorType(kind), now)
    case Forward(_, _) =>
      if v == Standalone && exchange.Completed? then Reputation.ClearOnSuccess(data, ip)
      else Reputation.Update(data, false)
    case _ => Reputation.Update(data, false)
  }

  /** One request from `ip` arriving at time `now`, answered as `Outcome`
      says, with the reputation state changed as `Effect` says. */
  method HandleRequest(rep: Reputation.IpReputation, v: Variant, req: Request, ip: string, now: int,
                       parse: string -> Option<Value>, exchange: Exchange)
    returns (res: Response)
    modifies rep
    ensures var d := Decide(v, req, ip in old(rep.blacks), parse);
      && res == Outcome(d, req, ip, now, parse, exchange)
      && rep.Data() == Effect(v, d, old(rep.Data()), ip, now, exchange).data
      && rep.saveRequests == old(rep.saveRequests) +
           if Effect(v, d, old(rep.Data()), ip, now, exchange).save then 1 else 0
  {
    ghost var d := Decide(v, req, ip in rep.blacks, parse);
    if v == Standalone && req.httpMethod == "OPTIONS" {
      return Response(204, None);
    }
    if v == Standalone && rep.IsBanned(ip) {
      return Response(403, None);
    }
    var log := InitialLog(req, ip);
    var failure := Validate(req);
    if failure.Some? {
      assert d == Rejected(failure.value);
      rep.RecordIPError(ip, ErrorType(failure.value), now);
      return Response(RejectStatus(failure.value), None);
    }
    var headers := BuildUpstreamHeaders(req.headers);
    if ChecksJsonBody(req) {
      var json := parse(req.body);
      if json.None? {
        return Response(400, None);
      }
      log := log.(params := json.value);
    }
    assert d.Forward? && log == InitialLog(req, ip).(params := d.params);
    res := RelayExchange(rep, v, ip, log, now, parse, exchange);
  }

  /** The upstream exchange of a forwarded request and the relay of its
      outcome; the standalone handler clears the IP's counter once a
      response has completed. */
  method RelayExchange(rep: Reputation.IpReputation, v: Variant, ip: string, log: LogRecord, now: int,
                       parse: string -> Option<Value>, exchange: Exchange)
    returns (res: Response)
    modifies rep
    ensures res == Forwarded(log, now, parse, exchange)
    ensures v == Standalone && exchange.Completed? ==>
      && rep.Data() == Reputation.ClearOnSuccess(old(rep.Data()), ip).data
      && rep.saveRequests == old(rep.saveRequests) + if ip in old(rep.counters) then 1 else 0
    ensures !(v == Standalone && exchange.Completed?) ==>
      rep.Data() == old(rep.Data()) && rep.saveRequests == old(rep.saveRequests)
  {
    match exchange
    case TransportError(message, at) =>
      res := Response(500, Some(log.(totalTime := at - now, error := Some(message))));
    case Completed(status, contentType, chunks, at) =>
      var clientStatus, tokens := Relay(log.tokens, status, contentType, chunks, parse);
      res := Response(clientStatus, Some(log.(totalTime := at - now, tokens := tokens)));
      if v == Standalone {
        rep.ClearError(ip);
      }
  }

  /** Preflight is answered before the ban check: a banned client's OPTIONS
      still gets 204 from the standalone handler, and nothing is recorded. */
  lemma PreflightBeforeBan(req: Request, data: Reputation.IpData, ip: string, now: int,
                           parse: string -> Option<Value>, exchange: Exchange)
    requires req.httpMethod == "OPTIONS"
    ensures var d := Decide(Standalone, req, ip in data.blacks, parse);
      && Outcome(d, req, ip, now, parse, exchange) == Response(204, None)
      && Effect(Standalone, d, data, ip, now, exchange) == Reputation.Update(data, false)
  {
  }

  /** A banned IP is turned away by the standalone handler before any
      validation: 403, no log, and its counters and the ban set untouched. */
  lemma BannedIsTurnedAway(req: Request, data: Reputation.IpData, ip: string, now: int,
                           parse: string -> Option<Value>, exchange: Exchange)
    requires ip in data.blacks && req.httpMethod != "OPTIONS"
    ensures var d := Decide(Standalone, req, true, parse);
      && Outcome(d, req, ip, now, parse, exchange) == Response(403, None)
      && Effect(Standalone, d, data, ip, now, exchange) == Reputation.Update(data, false)
  {
  }

  /** A log record is written exactly for requests that were forwarded
      upstream, and its error field is set exactly when the transport
      failed. */
  lemma LogOnlyForForwarded(d: Decision, req: Request, ip: string, now: int,
                            parse: string -> Option<Value>, exchange: Exchange)
    ensures var r := Outcome(d, req, ip, now, parse, exchange);
      && (r.log.Some? <==> d.Forward?)
      && (d.Forward? ==> (r.log.value.error.Some? <==> exchange.TransportError?))
      && (d.Forward? ==> r.log.value.sourceIP == ip && r.log.value.path == req.path
                         && r.log.value.params == d.params)
  {
  }

  /** Only a validation failure can add an IP to the ban set, and it counts
      exactly one error against that IP; no outcome ever lifts a ban. Any
      other outcome removes at most the IP's own counter, and leaves the
      state exactly as it was unless it is a completed exchange of the
      standalone handler (so an invalid JSON body, a ban, a preflight or a
      transport error change nothing). */
  lemma OnlyRejectionsCount(v: Variant, d: Decision, data: Reputation.IpData, ip: string, now: int,
                            exchange: Exchange)
    ensures var u := Effect(v, d, data, ip, now, exchange);
      && data.blacks <= u.data.blacks
      && (u.data.blacks != data.blacks ==> d.Rejected? && u.data.blacks == data.blacks + {ip})
      && (d.Rejected? ==>
            u.data.counters[ip].count ==
              (if ip in data.counters then data.counters[ip].count else 0) + 1)
      && (!d.Rejected? ==> forall other :: other in u.data.counters ==> u.data.counters[other] == data.counters[other])
      && (!d.Rejected? ==> data.counters.Keys - {ip} <= u.data.counters.Keys)
      && (!d.Rejected? && !(v == Standalone && d.Forward? && exchange.Completed?) ==> u.data == data)
  {
  }

  /** The injected handler never clears a counter: every IP it knew about
      it still knows about, whatever happens to the request. */
  lemma InjectedNeverClears(d: Decision, data: Reputation.IpData, ip: string, now: int, exchange: Exchange)
    ensures data.counters.Keys <= Effect(Injected, d, data, ip, now, exchange).data.counters.Keys
  {
  }

  /** A request the standalone handler forwards and completes, whatever the
      upstream status, leaves the IP with no error counter. */
  lemma CompletionClears(req: Request, data: Reputation.IpData, ip: string, now: int,
                         parse: string -> Option<Value>, exchange: Exchange)
    requires Decide(Standalone, req, ip in data.blacks, parse).Forward? && exchange.Completed?
    ensures ip !in Effect(Standalone, Decide(Standalone, req, ip in data.blacks, parse), data, ip, now, exchange).data.counters
  {
  }

  /** Validation rejects exactly the requests whose path is outside the
      Messages API, that carry no API key, or that reach the batches API
      without the beta header; the upstream never sees such a request. */
  lemma RejectedNeverForwarded(v: Variant, req: Request, banned: bool, parse: string -> Option<Value>)
    ensures Decide(v, req, banned, parse).Forward? ==>
      && StartsWith(req.pathname.value, SUPPORTED_PATH)
      && HasHeader(req.headers, "x-api-key")
      && (StartsWith(req.pathname.value, PATH_REQUIRING_BETA) ==> HasHeader(req.headers, "anthropic-beta"))
      && "x-api-key" in Decide(v, req, banned, parse).upstream.headers
      && Decide(v, req, banned, parse).upstream.headers["x-api-key"] == req.headers["x-api-key"]
  {
  }
}

