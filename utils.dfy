/** tools/utils.py: the application's signed assertion, the rate-limit-aware
    request loop, the installation lookup, the installation-token cache and
    the repository file listing. */
module Utils {
  import opened Common

  const ApiBase := "https://api.github.com"
  const AcceptV3 := "application/vnd.github.v3+json"

  /** The lifetime of the signed assertion, in seconds. */
  const JwtLifetime := 10 * 60

  /** How long before its expiry a cached token stops being handed out. */
  const FreshnessMargin := 30

  /** The low-water mark of the remaining request quota. */
  const LowWaterMark := 2

  /** The seconds added to the published reset time before retrying. */
  const ResetSlack := 5

  /** One HTTP request as `requests.request` receives it; `json` is the
      `json=` keyword argument. */
  datatype Request = Request(verb: string, url: string, headers: map<string, string>, json: Option<JsonValue>)

  /** One HTTP response: the status, the body text, the two rate-limit headers
      already read as integers (None when the header is absent) and the
      decoded JSON body. */
  datatype Response = Response(status: int, text: string, remaining: Option<int>, reset: Option<int>, json: JsonValue)

  // ---------------------------------------------------------------------------
  // generate_jwt
  // ---------------------------------------------------------------------------

  datatype JwtClaims = JwtClaims(iat: int, exp: int, iss: string)

  /** The claims `generate_jwt` signs: issued now, expiring ten minutes later,
      issued by the application. */
  function JwtPayload(now: int, appId: string): (p: JwtClaims)
    ensures p.iat == now && p.exp == p.iat + 600 && p.iss == appId
  {
    JwtClaims(now, now + JwtLifetime, appId)
  }

  /** The two headers every request to the issue tracker carries. */
  function BearerHeaders(credential: string): (h: map<string, string>)
    ensures h.Keys == {"Authorization", "Accept"}
    ensures h["Authorization"] == "Bearer " + credential && h["Accept"] == AcceptV3
  {
    map["Authorization" := "Bearer " + credential, "Accept" := AcceptV3]
  }

  // ---------------------------------------------------------------------------
  // github_request
  // ---------------------------------------------------------------------------

  datatype Decision = Return | Wait(seconds: nat)

  /** `"rate limit" in response.text.lower()` */
  predicate SaysRateLimit(text: string)
  {
    Contains(Lower(text), "rate limit")
  }

  /** The decision `github_request` takes on one response, `now` being the
      clock reading after it arrived: return it, or sleep and send the same
      request again. */
  function RetryDecision(resp: Response, now: int): (d: Decision)
    ensures resp.remaining.None? || resp.reset.None? ==> d == Return
    ensures resp.remaining.Some? && resp.reset.Some? ==>
      (d.Wait? <==> (resp.status == 403 && SaysRateLimit(resp.text)) || resp.remaining.value <= LowWaterMark)
    ensures d.Wait? ==> resp.reset.Some? && d.seconds == Max(resp.reset.value - now + ResetSlack, 0)
  {
    match (resp.remaining, resp.reset)
    case (Some(remaining), Some(resetTime)) =>
      if resp.status == 403 && SaysRateLimit(resp.text) then
        Wait(Max(resetTime - now + ResetSlack, 0))
      else if remaining <= LowWaterMark then
        Wait(Max(resetTime - now + ResetSlack, 0))
      else
        Return
    case _ => Return
  }

  /** `github_request`. The server is the script `server`: its k-th answer is
      `server(k)`, and `clock(k)` is the time read after that answer. The
      default headers are built once, from the signed assertion `jwt`, before
      the first attempt. The source retries without bound; `fuel` bounds the
      attempts of the model, and `r` is None when it ran out. */
  method GithubRequest(verb: string, url: string, headers: Option<map<string, string>>, json: Option<JsonValue>,
                       jwt: string, server: nat -> Response, clock: nat -> int, fuel: nat)
    returns (r: Option<Response>, sent: seq<Request>, waits: seq<nat>)
    ensures var req := Request(verb, url, if headers.Some? then headers.value else BearerHeaders(jwt), json);
      forall k :: 0 <= k < |sent| ==> sent[k] == req
    ensures |sent| <= fuel
    ensures |waits| <= |sent|
    ensures forall k :: 0 <= k < |waits| ==> RetryDecision(server(k), clock(k)) == Wait(waits[k])
    ensures r.Some? ==>
      |sent| >= 1 && |waits| == |sent| - 1 &&
      r.value == server(|sent| - 1) && RetryDecision(server(|sent| - 1), clock(|sent| - 1)) == Return
    ensures r.None? ==> |sent| == fuel && |waits| == fuel
  {
    var hs := if headers.Some? then headers.value else BearerHeaders(jwt);
    var req := Request(verb, url, hs, json);
    sent, waits := [], [];
    var attempt: nat := 0;
    while attempt < fuel
      invariant attempt <= fuel
      invariant |sent| == attempt && |waits| == attempt
      invariant forall k :: 0 <= k < |sent| ==> sent[k] == req
      invariant forall k :: 0 <= k < |waits| ==> RetryDecision(server(k), clock(k)) == Wait(waits[k])
    {
      sent := sent + [req];
      var response := server(attempt);
      var decision := RetryDecision(response, clock(attempt));
      if decision.Return? {
        return Some(response), sent, waits;
      }
      waits := waits + [decision.seconds];
      attempt := attempt + 1;
    }
    r := None;
  }

  // ---------------------------------------------------------------------------
  // get_installation_id
  // ---------------------------------------------------------------------------

  /** The request `get_installation_id` sends for a repository. */
  function InstallationRequest(owner: string, repo: string, jwt: string): Request
  {
    Request("GET", ApiBase + "/repos/" + owner + "/" + repo + "/installation", BearerHeaders(jwt), None)
  }

  /** What `get_installation_id` makes of the response: the `id` field on
      status 200, an exception otherwise or when the field is missing. */
  function InstallationId(resp: Response): (r: Result<int>)
    ensures r.Ok? ==> resp.status == 200
    ensures r.Ok? <==> resp.status == 200 && resp.json.JObj? && "id" in resp.json.fields && resp.json.fields["id"].JInt?
    ensures r.Ok? ==> r.value == resp.json.fields["id"].i
  {
    if resp.status != 200 then
      Err("Failed to get installation ID: " + DecimalString(resp.status) + " " + resp.text)
    else
      match resp.json
      case JObj(fields) =>
        if "id" in fields && fields["id"].JInt? then Ok(fields["id"].i) else Err("KeyError: 'id'")
      case _ => Err("TypeError: list indices must be integers")
  }

  // ---------------------------------------------------------------------------
  // get_installation_token
  // ---------------------------------------------------------------------------

  /** A cached installation token and its expiry, in seconds since the epoch. */
  datatype TokenInfo = TokenInfo(token: string, expiresAt: int)

  /** The cache hands out a token only while its expiry is more than the
      margin away. */
  predicate IsFresh(info: TokenInfo, now: int)
  {
    info.expiresAt > now + FreshnessMargin
  }

  /** The token exchange request for an installation. */
  function ExchangeRequest(installationId: int, jwt: string): Request
  {
    Request("POST", ApiBase + "/app/installations/" + DecimalString(installationId) + "/access_tokens",
            BearerHeaders(jwt), None)
  }

  /** `token_data["token"]` and `token_data["expires_at"]` of a 201 exchange
      response; a field that is missing or of the wrong kind raises. */
  function ParseTokenData(json: JsonValue): (r: Result<TokenInfo>)
    ensures r.Ok? <==> json.JObj? && "token" in json.fields && json.fields["token"].JStr?
                       && "expires_at" in json.fields && json.fields["expires_at"].JInt?
    ensures r.Ok? ==> r.value == TokenInfo(json.fields["token"].s, json.fields["expires_at"].i)
  {
    match json
    case JObj(fields) =>
      if "token" in fields && fields["token"].JStr? && "expires_at" in fields && fields["expires_at"].JInt? then
        Ok(TokenInfo(fields["token"].s, fields["expires_at"].i))
      else Err("KeyError")
    case _ => Err("TypeError")
  }

  datatype TokenOutcome = TokenOutcome(result: Result<string>, tokens: map<int, TokenInfo>, exchanged: bool)

  /** One call of `get_installation_token` on the cache `tokens` at time
      `now`; `exchange` is the answer the exchange request would get. */
  function TokenStep(tokens: map<int, TokenInfo>, installationId: int, now: int, exchange: Response): (o: TokenOutcome)
    // an exchange happens exactly when there is no fresh entry
    ensures o.exchanged <==> !(installationId in tokens && IsFresh(tokens[installationId], now))
    // a fresh entry is handed out and nothing changes
    ensures !o.exchanged ==> o.result == Ok(tokens[installationId].token) && o.tokens == tokens
    // a failed exchange leaves the cache as it was
    ensures o.exchanged && exchange.status != 201 ==> o.result.Err?
    ensures o.result.Err? ==> o.tokens == tokens
    // a successful exchange replaces the entry and returns what it stored
    ensures o.exchanged && o.result.Ok? ==>
      exchange.status == 201 && ParseTokenData(exchange.json).Ok? &&
      o.tokens == tokens[installationId := ParseTokenData(exchange.json).value]
    ensures o.result.Ok? ==> installationId in o.tokens && o.result.value == o.tokens[installationId].token
    // other installations are never touched
    ensures forall other :: other != installationId ==>
      (other in o.tokens <==> other in tokens) && (other in tokens ==> o.tokens[other] == tokens[other])
  {
    if installationId in tokens && IsFresh(tokens[installationId], now) then
      TokenOutcome(Ok(tokens[installationId].token), tokens, false)
    else if exchange.status != 201 then
      TokenOutcome(Err("Failed to fetch installation token: " + DecimalString(exchange.status) + " " + exchange.text),
                   tokens, true)
    else
      match ParseTokenData(exchange.json)
      case Err(e) => TokenOutcome(Err(e), tokens, true)
      case Ok(info) => TokenOutcome(Ok(info.token), tokens[installationId := info], true)
  }

  /** The module-level `installation_tokens` dictionary and the function that
      reads and refreshes it. */
  class TokenCache {
    var tokens: map<int, TokenInfo>

    constructor ()
      ensures tokens == map[]
    {
      tokens := map[];
    }

    /** `get_installation_token`. `exchange` is the response the token
        exchange would get; `sent` is the exchange request when one went out. */
    method GetInstallationToken(installationId: int, now: int, jwt: string, exchange: Response)
      returns (r: Result<string>, sent: Option<Request>)
      modifies this
      ensures var o := TokenStep(old(tokens), installationId, now, exchange);
        r == o.result && tokens == o.tokens && (sent.Some? <==> o.exchanged)
      ensures sent.Some? ==> sent.value == ExchangeRequest(installationId, jwt)
    {
      if installationId in tokens && tokens[installationId].expiresAt > now + FreshnessMargin {
        return Ok(tokens[installationId].token), None;
      }
      sent := Some(ExchangeRequest(installationId, jwt));
      if exchange.status != 201 {
        r := Err("Failed to fetch installation token: " + DecimalString(exchange.status) + " " + exchange.text);
        return;
      }
      var tokenData := ParseTokenData(exchange.json);
      if tokenData.Err? {
        r := Err(tokenData.error);
        return;
      }
      tokens := tokens[installationId := tokenData.value];
      r := Ok(tokenData.value.token);
    }
  }

  datatype CallsOutcome = CallsOutcome(results: seq<Result<string>>, tokens: map<int, TokenInfo>, exchanges: nat)

  /** Successive calls for one installation at the times `nows`; the k-th
      exchange that goes out gets the answer `server(k)`, and `used` exchanges
      have gone out before. */
  function TokenCalls(tokens: map<int, TokenInfo>, installationId: int, nows: seq<int>,
                      server: nat -> Response, used: nat): (o: CallsOutcome)
    ensures |o.results| == |nows|
    ensures o.exchanges >= used
    decreases |nows|
  {
    if nows == [] then CallsOutcome([], tokens, used)
    else
      var step := TokenStep(tokens, installationId, nows[0], server(used));
      var rest := TokenCalls(step.tokens, installationId, nows[1..], server, used + (if step.exchanged then 1 else 0));
      CallsOutcome([step.result] + rest.results, rest.tokens, rest.exchanges)
  }

  /** While a cached token stays fresh, later calls make no exchange and all
      return it. */
  lemma {:induction false} FreshCallsReuse(tokens: map<int, TokenInfo>, installationId: int, nows: seq<int>,
                                           server: nat -> Response, used: nat)
    requires installationId in tokens
    requires forall k :: 0 <= k < |nows| ==> IsFresh(tokens[installationId], nows[k])
    ensures var o := TokenCalls(tokens, installationId, nows, server, used);
      o.exchanges == used && o.tokens == tokens &&
      forall k :: 0 <= k < |nows| ==> o.results[k] == Ok(tokens[installationId].token)
    decreases |nows|
  {
    if nows != [] {
      FreshCallsReuse(tokens, installationId, nows[1..], server, used);
    }
  }

  /** Token cache idempotence: calls within the validity window of the token
      the first exchange obtained trigger exactly one exchange, and all return
      that token. */
  lemma ExactlyOneExchange(tokens: map<int, TokenInfo>, installationId: int, nows: seq<int>, server: nat -> Response)
    requires |nows| >= 1
    requires !(installationId in tokens && IsFresh(tokens[installationId], nows[0]))
    requires server(0).status == 201 && ParseTokenData(server(0).json).Ok?
    requires forall k :: 0 <= k < |nows| ==> IsFresh(ParseTokenData(server(0).json).value, nows[k])
    ensures var o := TokenCalls(tokens, installationId, nows, server, 0);
      o.exchanges == 1 &&
      forall k :: 0 <= k < |nows| ==> o.results[k] == Ok(ParseTokenData(server(0).json).value.token)
  {
    var info := ParseTokenData(server(0).json).value;
    var step := TokenStep(tokens, installationId, nows[0], server(0));
    assert step.tokens == tokens[installationId := info];
    FreshCallsReuse(step.tokens, installationId, nows[1..], server, 1);
    var o := TokenCalls(tokens, installationId, nows, server, 0);
    forall k | 0 <= k < |nows| ensures o.results[k] == Ok(info.token) {
      if k > 0 {
        assert o.results[k] == TokenCalls(step.tokens, installationId, nows[1..], server, 1).results[k - 1];
      }
    }
  }

  /** Calls for one installation never change the entries of another. */
  lemma {:induction false} CallsLeaveOthers(tokens: map<int, TokenInfo>, installationId: int, nows: seq<int>,
                                            server: nat -> Response, used: nat, other: int)
    requires other != installationId
    ensures var o := TokenCalls(tokens, installationId, nows, server, used);
      (other in o.tokens <==> other in tokens) && (other in tokens ==> o.tokens[other] == tokens[other])
    decreases |nows|
  {
    if nows != [] {
      var step := TokenStep(tokens, installationId, nows[0], server(used));
      CallsLeaveOthers(step.tokens, installationId, nows[1..], server, used + (if step.exchanged then 1 else 0), other);
    }
  }

  // ---------------------------------------------------------------------------
  // fetch_repo_files
  // ---------------------------------------------------------------------------

  /** A tree item that is an object with a `type` field and, when that field
      is "blob", a `path` field: the items the comprehension reads without
      raising. */
  predicate WellFormedItem(item: JsonValue)
  {
    item.JObj? && "type" in item.fields &&
    (item.fields["type"] == JStr("blob") ==> "path" in item.fields)
  }

  predicate IsBlob(item: JsonValue)
  {
    item.JObj? && "type" in item.fields && item.fields["type"] == JStr("blob")
  }

  /** `[item["path"] for item in tree if item["type"] == "blob"]` */
  function BlobPaths(items: seq<JsonValue>): Result<seq<JsonValue>>
  {
    if items == [] then Ok([])
    else
      var item := items[0];
      if !item.JObj? then Err("TypeError: string indices must be integers")
      else if "type" !in item.fields then Err("KeyError: 'type'")
      else if item.fields["type"] == JStr("blob") then
        if "path" !in item.fields then Err("KeyError: 'path'")
        else
          (match BlobPaths(items[1..])
           case Err(e) => Err(e)
           case Ok(rest) => Ok([item.fields["path"]] + rest))
      else BlobPaths(items[1..])
  }

  /** The comprehension succeeds exactly when every item is well formed. */
  lemma {:induction false} BlobPathsSucceeds(items: seq<JsonValue>)
    ensures BlobPaths(items).Ok? <==> forall i :: 0 <= i < |items| ==> WellFormedItem(items[i])
  {
    if items != [] {
      BlobPathsSucceeds(items[1..]);
      assert forall i :: 1 <= i < |items| ==> items[i] == items[1..][i - 1];
    }
  }

  /** The listing keeps the tree order: the paths of a concatenation are the
      paths of each part, one after the other. */
  lemma {:induction false} BlobPathsAppend(a: seq<JsonValue>, b: seq<JsonValue>)
    requires BlobPaths(a).Ok? && BlobPaths(b).Ok?
    ensures BlobPaths(a + b) == Ok(BlobPaths(a).value + BlobPaths(b).value)
  {
    if a != [] {
      assert (a + b)[0] == a[0];
      assert (a + b)[1..] == a[1..] + b;
      assert BlobPaths(a[1..]).Ok?;
      BlobPathsAppend(a[1..], b);
      if IsBlob(a[0]) {
        var p := a[0].fields["path"];
        assert BlobPaths(a).value == [p] + BlobPaths(a[1..]).value;
        assert [p] + (BlobPaths(a[1..]).value + BlobPaths(b).value) == [p] + BlobPaths(a[1..]).value + BlobPaths(b).value;
      }
    } else {
      assert a + b == b;
      assert BlobPaths(a).value + BlobPaths(b).value == BlobPaths(b).value;
    }
  }

  /** The listing holds the path of a blob item, and only of blob items. */
  lemma {:induction false} BlobPathsMembers(items: seq<JsonValue>, p: JsonValue)
    requires BlobPaths(items).Ok?
    ensures p in BlobPaths(items).value <==>
      exists i :: 0 <= i < |items| && IsBlob(items[i]) && "path" in items[i].fields && items[i].fields["path"] == p
  {
    if items != [] {
      BlobPathsMembers(items[1..], p);
      assert forall i :: 1 <= i < |items| ==> items[i] == items[1..][i - 1];
      if exists i :: 0 <= i < |items| && IsBlob(items[i]) && "path" in items[i].fields && items[i].fields["path"] == p {
        var i :| 0 <= i < |items| && IsBlob(items[i]) && "path" in items[i].fields && items[i].fields["path"] == p;
        if i > 0 {
          assert IsBlob(items[1..][i - 1]) && "path" in items[1..][i - 1].fields && items[1..][i - 1].fields["path"] == p;
        }
      }
    }
  }

  /** What iterating `response.json().get("tree", [])` yields: a list gives
      its items, an empty string or object gives none, and anything else
      raises once it is iterated or indexed. */
  function TreeItems(json: JsonValue): (r: Result<seq<JsonValue>>)
    ensures json.JObj? && "tree" in json.fields && json.fields["tree"].JList? ==>
      r == Ok(json.fields["tree"].items)
    ensures json.JObj? && "tree" !in json.fields ==> r == Ok([])
  {
    match json
    case JObj(fields) =>
      if "tree" !in fields then Ok([])
      else
        (match fields["tree"]
         case JList(items) => Ok(items)
         case JStr(s) => if s == "" then Ok([]) else Err("TypeError: string indices must be integers")
         case JObj(m) => if m == map[] then Ok([]) else Err("TypeError: string indices must be integers")
         case _ => Err("TypeError: object is not iterable"))
    case _ => Err("AttributeError: 'list' object has no attribute 'get'")
  }

  /** What `fetch_repo_files` makes of the tree listing response: status 200
      is required, then the blob paths of the tree in tree order. */
  function RepoFilesFromResponse(resp: Response): (r: Result<seq<JsonValue>>)
    ensures resp.status != 200 ==> r.Err?
    ensures resp.status == 200 && resp.json.JObj? && "tree" !in resp.json.fields ==> r == Ok([])
    ensures resp.status == 200 && resp.json.JObj? && "tree" in resp.json.fields && resp.json.fields["tree"].JList? ==>
      r == BlobPaths(resp.json.fields["tree"].items)
  {
    if resp.status != 200 then
      Err("Failed to list repository files: " + DecimalString(resp.status) + " " + resp.text)
    else
      match TreeItems(resp.json)
      case Err(e) => Err(e)
      case Ok(items) => BlobPaths(items)
  }

  /** The tree listing request of `fetch_repo_files`. */
  function TreeRequest(owner: string, repo: string, ref: string, token: string): Request
  {
    Request("GET", ApiBase + "/repos/" + owner + "/" + repo + "/git/trees/" + ref + "?recursive=1",
            BearerHeaders(token), None)
  }

  /** `fetch_repo_files`: look up the installation, obtain its token from the
      cache, then list the tree of `ref` with that token. Each response is
      what `github_request` finally returned for that step; `sent` lists the
      requests in the order they go out. */
  method FetchRepoFiles(cache: TokenCache, owner: string, repo: string, ref: string,
                        jwt: string, now: int, installResp: Response, exchangeResp: Response, treeResp: Response)
    returns (r: Result<seq<JsonValue>>, sent: seq<Request>)
    modifies cache
    ensures |sent| >= 1 && sent[0] == InstallationRequest(owner, repo, jwt)
    ensures InstallationId(installResp).Err? ==> r.Err? && |sent| == 1 && cache.tokens == old(cache.tokens)
    ensures InstallationId(installResp).Ok? ==>
      var step := TokenStep(old(cache.tokens), InstallationId(installResp).value, now, exchangeResp);
      cache.tokens == step.tokens &&
      |sent| == (if step.exchanged then 2 else 1) + (if step.result.Ok? then 1 else 0) &&
      (step.exchanged ==> sent[1] == ExchangeRequest(InstallationId(installResp).value, jwt)) &&
      (step.result.Err? ==> r.Err?) &&
      (step.result.Ok? ==>
        r == RepoFilesFromResponse(treeResp) && sent[|sent| - 1] == TreeRequest(owner, repo, ref, step.result.value))
  {
    sent := [InstallationRequest(owner, repo, jwt)];
    var installationId := InstallationId(installResp);
    if installationId.Err? {
      return Err(installationId.error), sent;
    }
    var token, exchange := cache.GetInstallationToken(installationId.value, now, jwt, exchangeResp);
    if exchange.Some? {
      sent := sent + [exchange.value];
    }
    if token.Err? {
      return Err(token.error), sent;
    }
    sent := sent + [TreeRequest(owner, repo, ref, token.value)];
    r := RepoFilesFromResponse(treeResp);
  }
}
