/** tools/github_tools.py: the issue reference parser and the two issue-tracker
    calls the agent uses, reading an issue and posting a comment on it. */
module GithubTools {
  import opened Common
  import Utils

  datatype IssueRef = IssueRef(owner: string, repo: string, issueNum: string)

  // ---------------------------------------------------------------------------
  // Python's str.strip('/') and str.split('/')
  // ---------------------------------------------------------------------------

  /** `s.lstrip('/')`: what is left after the leading slashes. */
  function StripLeft(s: string): (r: string)
    ensures |r| <= |s|
    ensures r == "" || r[0] != '/'
  {
    if |s| > 0 && s[0] == '/' then StripLeft(s[1..]) else s
  }

  /** `s.rstrip('/')`: what is left before the trailing slashes. */
  function StripRight(s: string): (r: string)
    ensures |r| <= |s|
    ensures r != "" ==> r[0] == s[0]
    ensures r == "" || r[|r| - 1] != '/'
  {
    if |s| > 0 && s[|s| - 1] == '/' then StripRight(s[..|s| - 1]) else s
  }

  /** `s.strip('/')`. */
  function Strip(s: string): (r: string)
    ensures r == "" || (r[0] != '/' && r[|r| - 1] != '/')
  {
    StripRight(StripLeft(s))
  }

  /** `s.split('/')`: the segments between the slashes, always at least one. */
  function Split(s: string): (parts: seq<string>)
    ensures |parts| >= 1
    ensures forall k :: 0 <= k < |parts| ==> '/' !in parts[k]
  {
    if |s| == 0 then [""]
    else
      var rest := Split(s[1..]);
      if s[0] == '/' then [""] + rest
      else [[s[0]] + rest[0]] + rest[1..]
  }

  /** `"/".join(parts)`, the inverse of Split. */
  function Join(parts: seq<string>): string
    requires |parts| >= 1
  {
    parts[0] + JoinTail(parts[1..])
  }

  function JoinTail(parts: seq<string>): string
  {
    if parts == [] then "" else "/" + parts[0] + JoinTail(parts[1..])
  }

  function SlashCount(s: string): nat
  {
    if s == [] then 0 else (if s[0] == '/' then 1 else 0) + SlashCount(s[1..])
  }

  /** Splitting and joining again gives back the string. */
  lemma {:induction false} JoinSplit(s: string)
    ensures Join(Split(s)) == s
  {
    if |s| > 0 {
      var rest := Split(s[1..]);
      JoinSplit(s[1..]);
      if s[0] == '/' {
        assert Split(s) == [""] + rest;
        assert Join(Split(s)) == JoinTail(rest) == "/" + Join(rest);
      } else {
        assert Split(s) == [[s[0]] + rest[0]] + rest[1..];
        assert Join(Split(s)) == [s[0]] + rest[0] + JoinTail(rest[1..]);
      }
      assert s == [s[0]] + s[1..];
    }
  }

  /** There is one more segment than there are slashes. */
  lemma {:induction false} SplitLength(s: string)
    ensures |Split(s)| == SlashCount(s) + 1
  {
    if |s| > 0 {
      SplitLength(s[1..]);
    }
  }

  /** A slash-free string is a single segment. */
  lemma {:induction false} SplitSegment(x: string)
    requires '/' !in x
    ensures Split(x) == [x]
  {
    if |x| > 0 {
      assert '/' !in x[1..] by {
        forall i | 0 <= i < |x[1..]| ensures x[1..][i] != '/' { assert x[1..][i] == x[i + 1]; }
      }
      SplitSegment(x[1..]);
      assert [x[0]] + x[1..] == x;
    }
  }

  /** A slash-free segment followed by a slash splits off in front. */
  lemma {:induction false} SplitCons(x: string, y: string)
    requires '/' !in x
    ensures Split(x + "/" + y) == [x] + Split(y)
  {
    if |x| == 0 {
      assert x + "/" + y == "/" + y;
      assert ("/" + y)[1..] == y;
    } else {
      assert '/' !in x[1..] by {
        forall i | 0 <= i < |x[1..]| ensures x[1..][i] != '/' { assert x[1..][i] == x[i + 1]; }
      }
      SplitCons(x[1..], y);
      assert (x + "/" + y)[1..] == x[1..] + "/" + y;
      assert [x[0]] + x[1..] == x;
    }
  }

  /** The first segment is empty exactly when the string is empty or starts with a slash. */
  lemma {:induction false} SplitFirstEmpty(s: string)
    ensures Split(s)[0] == "" <==> (s == "" || s[0] == '/')
  {
  }

  lemma {:induction false} StripRightAppend(a: string, t: string)
    ensures StripRight(a + t) == if StripRight(t) == "" then StripRight(a) else a + StripRight(t)
    decreases |t|
  {
    if |t| > 0 && t[|t| - 1] == '/' {
      assert (a + t)[..|a + t| - 1] == a + t[..|t| - 1];
      StripRightAppend(a, t[..|t| - 1]);
    } else if |t| == 0 {
      assert a + t == a;
    }
  }

  lemma {:induction false} StripLeftAppendSlash(p: string)
    ensures StripLeft(p + "/") == if StripLeft(p) == "" then "" else StripLeft(p) + "/"
  {
    if |p| > 0 && p[0] == '/' {
      assert (p + "/")[1..] == p[1..] + "/";
      StripLeftAppendSlash(p[1..]);
    } else if |p| == 0 {
      assert StripLeft("/") == StripLeft("") == "";
    }
  }

  // ---------------------------------------------------------------------------
  // fetch_github_issue
  // ---------------------------------------------------------------------------

  /** `fetch_github_issue`, applied to the path component of the issue URL:
      strip the slashes, split at the slashes, accept when there are at least
      four segments and the third is "issues". */
  function FetchGithubIssue(path: string): (r: Result<IssueRef>)
    ensures r.Ok? ==> '/' !in r.value.owner && '/' !in r.value.repo && '/' !in r.value.issueNum
  {
    var parts := Split(Strip(path));
    if |parts| >= 4 && parts[2] == "issues" then
      Ok(IssueRef(parts[0], parts[1], parts[3]))
    else
      Err("Invalid GitHub Issue URL")
  }

  /** Three slash-free segments in front split off one by one. */
  lemma SplitFour(a: string, b: string, c: string, d: string)
    requires '/' !in a && '/' !in b && '/' !in c
    ensures Split(a + "/" + b + "/" + c + "/" + d) == [a, b, c] + Split(d)
  {
    var cd := c + "/" + d;
    var bcd := b + "/" + cd;
    assert a + "/" + b + "/" + c + "/" + d == a + "/" + bcd;
    SplitCons(a, bcd);
    SplitCons(b, cd);
    SplitCons(c, d);
  }

  /** The issue path with the number spelt out as its own piece. */
  lemma IssuePathPieces(owner: string, repo: string, num: string, rest: string)
    ensures "/" + owner + "/" + repo + "/issues/" + num + rest == "/" + (owner + "/" + repo + "/" + "issues" + "/" + (num + rest))
  {
  }

  /** Round trip: the path of an issue's web page parses back to its owner,
      repository and number. */
  lemma ParseRoundTrip(owner: string, repo: string, num: string)
    requires owner != "" && repo != "" && num != ""
    requires '/' !in owner && '/' !in repo && '/' !in num
    ensures FetchGithubIssue("/" + owner + "/" + repo + "/issues/" + num) == Ok(IssueRef(owner, repo, num))
  {
    var s := owner + "/" + repo + "/" + "issues" + "/" + num;
    IssuePathPieces(owner, repo, num, "");
    assert num + "" == num;
    var path := "/" + s;
    assert path[1..] == s;
    assert StripLeft(path) == s by {
      assert s[0] == owner[0];
    }
    assert s[|s| - 1] == num[|num| - 1];
    assert Strip(path) == s;
    SplitFour(owner, repo, "issues", num);
    SplitSegment(num);
    var parts := Split(Strip(path));
    assert parts == [owner, repo, "issues", num];
    assert path == "/" + owner + "/" + repo + "/issues/" + num;
  }

  lemma StripLeftOnce(s: string)
    requires s != "" && s[0] != '/'
    ensures StripLeft("/" + s) == s
  {
    assert ("/" + s)[1..] == s;
  }

  lemma StripRightKeeps(a: string)
    requires a != "" && a[|a| - 1] != '/'
    ensures StripRight(a) == a
  {
  }

  lemma IssuePathRegroup(owner: string, repo: string, num: string, rest: string)
    ensures "/" + owner + "/" + repo + "/issues/" + num + "/" + rest
         == "/" + ((owner + "/" + repo + "/" + "issues" + "/" + num) + ("/" + rest))
  {
  }

  /** Stripping the issue path with further segments keeps everything up
      to the number, and what is left of the segments after it. */
  lemma StripIssuePath(owner: string, repo: string, num: string, rest: string)
    requires owner != "" && num != ""
    requires '/' !in owner && '/' !in num
    ensures Strip("/" + owner + "/" + repo + "/issues/" + num + "/" + rest)
         == owner + "/" + repo + "/" + "issues" + "/" + num + StripRight("/" + rest)
  {
    var tailIn := "/" + rest;
    var a := owner + "/" + repo + "/" + "issues" + "/" + num;
    var s := a + tailIn;
    IssuePathRegroup(owner, repo, num, rest);
    assert s[0] == owner[0];
    StripLeftOnce(s);
    assert a[|a| - 1] == num[|num| - 1];
    StripRightKeeps(a);
    StripRightAppend(a, tailIn);
    if StripRight(tailIn) == "" {
      assert a + StripRight(tailIn) == a;
    }
  }

  /** Segments after the issue number do not change the result: the test is
      "at least four segments". */
  lemma ParseExtraSegments(owner: string, repo: string, num: string, rest: string)
    requires owner != "" && num != ""
    requires '/' !in owner && '/' !in repo && '/' !in num
    ensures FetchGithubIssue("/" + owner + "/" + repo + "/issues/" + num + "/" + rest) == Ok(IssueRef(owner, repo, num))
  {
    StripIssuePath(owner, repo, num, rest);
    var a := owner + "/" + repo + "/" + "issues" + "/" + num;
    var tail := StripRight("/" + rest);
    if tail == "" {
      assert a + tail == a;
      SplitIssueHead(owner, repo, num);
    } else {
      assert tail[0] == '/';
      var t := tail[1..];
      assert tail == "/" + t;
      SplitIssueWithTail(owner, repo, num, t);
    }
  }

  lemma SplitIssueHead(owner: string, repo: string, num: string)
    requires '/' !in owner && '/' !in repo && '/' !in num
    ensures Split(owner + "/" + repo + "/" + "issues" + "/" + num) == [owner, repo, "issues", num]
  {
    SplitFour(owner, repo, "issues", num);
    SplitSegment(num);
  }

  lemma SplitIssueWithTail(owner: string, repo: string, num: string, t: string)
    requires '/' !in owner && '/' !in repo && '/' !in num
    ensures Split(owner + "/" + repo + "/" + "issues" + "/" + num + ("/" + t)) == [owner, repo, "issues", num] + Split(t)
  {
    SegmentsRegroup(owner, repo, num, t);
    SplitFour(owner, repo, "issues", num + "/" + t);
    SplitCons(num, t);
  }

  lemma SegmentsRegroup(owner: string, repo: string, num: string, t: string)
    ensures owner + "/" + repo + "/" + "issues" + "/" + num + ("/" + t)
         == owner + "/" + repo + "/" + "issues" + "/" + (num + "/" + t)
  {
  }


  /** Leading slashes do not affect the result. */
  lemma LeadingSlashIgnored(path: string)
    ensures FetchGithubIssue("/" + path) == FetchGithubIssue(path)
  {
    assert ("/" + path)[1..] == path;
    assert StripLeft("/" + path) == StripLeft(path);
    assert Strip("/" + path) == Strip(path);
  }

  /** Trailing slashes do not affect the result. */
  lemma TrailingSlashIgnored(path: string)
    ensures FetchGithubIssue(path + "/") == FetchGithubIssue(path)
  {
    StripLeftAppendSlash(path);
    var l := StripLeft(path);
    if l != "" {
      assert (l + "/")[..|l + "/"| - 1] == l;
      assert StripRight(l + "/") == StripRight(l);
    }
    assert Strip(path + "/") == Strip(path);
  }

  /** Every accepted path is, once stripped, the owner, the repository,
      "issues" and the number joined by slashes, possibly followed by further
      segments; the owner is never empty. */
  lemma AcceptedShape(path: string)
    requires FetchGithubIssue(path).Ok?
    ensures var ref := FetchGithubIssue(path).value;
      ref.owner != "" &&
      exists tail :: (tail == "" || tail[0] == '/') &&
        Strip(path) == ref.owner + "/" + ref.repo + "/issues/" + ref.issueNum + tail
  {
    var s := Strip(path);
    var parts := Split(s);
    JoinSplit(s);
    SplitFirstEmpty(s);
    var tail := JoinTail(parts[4..]);
    JoinTailCons(parts, 1);
    JoinTailCons(parts, 2);
    JoinTailCons(parts, 3);
    if |parts| > 4 {
      JoinTailCons(parts, 4);
    }
    assert tail == "" || tail[0] == '/';
    var ref := FetchGithubIssue(path).value;
    assert ref == IssueRef(parts[0], parts[1], parts[3]) && parts[2] == "issues";
    IssueRegroup(parts[0], parts[1], parts[3], tail);
  }

  lemma JoinTailCons(parts: seq<string>, k: nat)
    requires k < |parts|
    ensures JoinTail(parts[k..]) == "/" + parts[k] + JoinTail(parts[k + 1..])
  {
    assert parts[k..][0] == parts[k] && parts[k..][1..] == parts[k + 1..];
  }

  lemma IssueRegroup(owner: string, repo: string, num: string, tail: string)
    ensures owner + ("/" + repo + ("/" + "issues" + ("/" + num + tail)))
         == owner + "/" + repo + "/issues/" + num + tail
  {
  }


  /** A stripped path with fewer than three slashes is rejected. */
  lemma RejectsShortPaths(path: string)
    requires SlashCount(Strip(path)) < 3
    ensures FetchGithubIssue(path).Err?
  {
    SplitLength(Strip(path));
  }

  // ---------------------------------------------------------------------------
  // get_issue_details and post_comment
  // ---------------------------------------------------------------------------

  /** The issue endpoint of `get_issue_details`. */
  function IssueUrl(owner: string, repo: string, issueNum: string): string
  {
    Utils.ApiBase + "/repos/" + owner + "/" + repo + "/issues/" + issueNum
  }

  /** The comment endpoint of `post_comment`: the issue endpoint followed by
      "/comments". */
  function CommentsUrl(owner: string, repo: string, issueNum: string): (u: string)
    ensures u == IssueUrl(owner, repo, issueNum) + "/comments"
    ensures u[..|Utils.ApiBase|] == Utils.ApiBase
  {
    Utils.ApiBase + "/repos/" + owner + "/" + repo + "/issues/" + issueNum + "/comments"
  }

  /** What `get_issue_details` makes of the issue response: the `body` field
      (JSON null when it is absent) on status 200, an exception otherwise. */
  function IssueDetailsFromResponse(resp: Utils.Response): (r: Result<JsonValue>)
    ensures r.Ok? <==> resp.status == 200 && resp.json.JObj?
    ensures r.Ok? && "body" in resp.json.fields ==> r.value == resp.json.fields["body"]
    ensures r.Ok? && "body" !in resp.json.fields ==> r.value == JNull
  {
    if resp.status == 200 then
      match resp.json
      case JObj(fields) => Ok(if "body" in fields then fields["body"] else JNull)
      case _ => Err("'list' object has no attribute 'get'")
    else
      Err("Failed to fetch issue: " + DecimalString(resp.status) + " " + resp.text)
  }

  /** What `post_comment` makes of the comment response: its JSON on status
      201, an exception otherwise. */
  function PostCommentFromResponse(resp: Utils.Response): (r: Result<JsonValue>)
    ensures r.Ok? <==> resp.status == 201
    ensures r.Ok? ==> r.value == resp.json
  {
    if resp.status == 201 then Ok(resp.json)
    else Err("Failed to post comment: " + DecimalString(resp.status) + " " + resp.text)
  }

  /** `get_issue_details`: look up the installation, obtain its token from the
      cache, then read the issue with that token. Each response is what
      `github_request` finally returned for that step. `sent` lists the
      requests in the order they go out. */
  method GetIssueDetails(cache: Utils.TokenCache, owner: string, repo: string, issueNum: string,
                         jwt: string, now: int, installResp: Utils.Response,
                         exchangeResp: Utils.Response, issueResp: Utils.Response)
    returns (r: Result<JsonValue>, sent: seq<Utils.Request>)
    modifies cache
    ensures |sent| >= 1 && sent[0] == Utils.InstallationRequest(owner, repo, jwt)
    ensures Utils.InstallationId(installResp).Err? ==> r.Err? && |sent| == 1 && cache.tokens == old(cache.tokens)
    ensures Utils.InstallationId(installResp).Ok? ==>
      var step := Utils.TokenStep(old(cache.tokens), Utils.InstallationId(installResp).value, now, exchangeResp);
      cache.tokens == step.tokens &&
      |sent| == (if step.exchanged then 2 else 1) + (if step.result.Ok? then 1 else 0) &&
      (step.exchanged ==> sent[1] == Utils.ExchangeRequest(Utils.InstallationId(installResp).value, jwt)) &&
      (step.result.Err? ==> r.Err?) &&
      (step.result.Ok? ==>
        r == IssueDetailsFromResponse(issueResp) &&
        sent[|sent| - 1] == Utils.Request("GET", IssueUrl(owner, repo, issueNum), Utils.BearerHeaders(step.result.value), None))
  {
    sent := [Utils.InstallationRequest(owner, repo, jwt)];
    var installationId := Utils.InstallationId(installResp);
    if installationId.Err? {
      return Err(installationId.error), sent;
    }
    var token, exchange := cache.GetInstallationToken(installationId.value, now, jwt, exchangeResp);
    if exchange.Some? {
      sent := sent + [exchange.value];
    }
    if token.Err? {
      return Err(token.error), sent;
    }
    sent := sent + [Utils.Request("GET", IssueUrl(owner, repo, issueNum), Utils.BearerHeaders(token.value), None)];
    r := IssueDetailsFromResponse(issueResp);
  }

  /** `post_comment`: as GetIssueDetails, but the last request is a POST of
      `{"body": commentBody}` to the comment endpoint. */
  method PostComment(cache: Utils.TokenCache, owner: string, repo: string, issueNum: string, commentBody: string,
                     jwt: string, now: int, installResp: Utils.Response,
                     exchangeResp: Utils.Response, commentResp: Utils.Response)
    returns (r: Result<JsonValue>, sent: seq<Utils.Request>)
    modifies cache
    ensures |sent| >= 1 && sent[0] == Utils.InstallationRequest(owner, repo, jwt)
    ensures Utils.InstallationId(installResp).Err? ==> r.Err? && |sent| == 1 && cache.tokens == old(cache.tokens)
    ensures Utils.InstallationId(installResp).Ok? ==>
      var step := Utils.TokenStep(old(cache.tokens), Utils.InstallationId(installResp).value, now, exchangeResp);
      cache.tokens == step.tokens &&
      |sent| == (if step.exchanged then 2 else 1) + (if step.result.Ok? then 1 else 0) &&
      (step.exchanged ==> sent[1] == Utils.ExchangeRequest(Utils.InstallationId(installResp).value, jwt)) &&
      (step.result.Err? ==> r.Err?) &&
      (step.result.Ok? ==>
        r == PostCommentFromResponse(commentResp) &&
        sent[|sent| - 1] == Utils.Request("POST", CommentsUrl(owner, repo, issueNum), Utils.BearerHeaders(step.result.value),
                                          Some(JObj(map["body" := JStr(commentBody)]))))
  {
    sent := [Utils.InstallationRequest(owner, repo, jwt)];
    var installationId := Utils.InstallationId(installResp);
    if installationId.Err? {
      return Err(installationId.error), sent;
    }
    var token, exchange := cache.GetInstallationToken(installationId.value, now, jwt, exchangeResp);
    if exchange.Some? {
      sent := sent + [exchange.value];
    }
    if token.Err? {
      return Err(token.error), sent;
    }
    var data := JObj(map["body" := JStr(commentBody)]);
    sent := sent + [Utils.Request("POST", CommentsUrl(owner, repo, issueNum), Utils.BearerHeaders(token.value), Some(data))];
    r := PostCommentFromResponse(commentResp);
  }
}
