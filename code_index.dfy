/** tools/code_index.py, the selection and retry logic around the retrieval
    of code context: the retry on HTTP 429, the file-extension filter, and
    the choice of the files to index for an issue. Embeddings and similarity
    scores are abstracted: a path's score is an integer, or None when the
    source skips the path. */
module CodeIndex {
  import opened Common

  const IncludeFileExtensions: set<string> := {".py", ".js", ".ts", ".json", ".md", ".txt"}
  const Readme := "README.md"
  const DefaultMaxRetries := 3
  const DefaultDelay := 1

  // ---------------------------------------------------------------------------
  // async_retry_on_429
  // ---------------------------------------------------------------------------

  /** The `response` attribute of a raised exception: a `requests` response,
      whose truth value is false for a status from 400 to 599, or some other response
      object, which is always true and may lack `status_code`. */
  datatype ErrorResponse = RequestsResponse(code: int) | OtherResponse(statusCode: Option<int>)

  /** What one call of the wrapped coroutine does: return a value, or raise
      an exception whose `response` attribute is given (None when absent). */
  datatype Attempt<T> = Returned(value: T) | Raised(response: Option<ErrorResponse>)

  /** How `async_retry_on_429` ends: with the value of a call, by re-raising
      an exception, or by falling out of the loop and returning None. */
  datatype RetryOutcome<T> = Value(value: T) | Reraised(response: Option<ErrorResponse>) | NoneReturned

  function StatusCode(r: ErrorResponse): Option<int>
  {
    match r
    case RequestsResponse(code) => Some(code)
    case OtherResponse(statusCode) => statusCode
  }

  /** `bool(e.response)` */
  predicate Truthy(r: ErrorResponse)
  {
    match r
    case RequestsResponse(code) => code < 400 || code >= 600
    case OtherResponse(_) => true
  }

  /** `status == 429` with `status = getattr(e, 'response', None) and
      getattr(e.response, 'status_code', None)` as the source writes it: when
      the response object is false, `status` is that object and never 429. */
  predicate Is429AsWritten(response: Option<ErrorResponse>)
  {
    match response
    case None => false
    case Some(r) => Truthy(r) && StatusCode(r) == Some(429)
  }

  /** The test the source evidently means: the exception's response has
      status code 429. */
  predicate Is429(response: Option<ErrorResponse>)
  {
    response.Some? && StatusCode(response.value) == Some(429)
  }

  /** As written, a `requests` 429 response is not recognised, because such a
      response object is false. */
  lemma AsWrittenMissesRequests429()
    ensures Is429(Some(RequestsResponse(429)))
    ensures !Is429AsWritten(Some(RequestsResponse(429)))
  {
  }

  /** The two tests agree on every response object that is true, so the
      correction changes only the case above. */
  lemma Is429Corrected(response: Option<ErrorResponse>)
    ensures Is429AsWritten(response) ==> Is429(response)
    ensures response.Some? && Truthy(response.value) ==> (Is429AsWritten(response) <==> Is429(response))
    ensures Is429(response) <==> response.Some? && StatusCode(response.value) == Some(429)
  {
  }

  function Pow2(k: nat): (p: nat)
    ensures p >= 1
  {
    if k == 0 then 1 else 2 * Pow2(k - 1)
  }

  /** The wait before retry `k + 1`: the delay doubles after every wait. */
  function Backoff(delay: int, k: nat): int
  {
    if k == 0 then delay else 2 * Backoff(delay, k - 1)
  }

  lemma {:induction false} BackoffIsPower(delay: int, k: nat)
    ensures Backoff(delay, k) == delay * Pow2(k)
  {
    if k > 0 {
      BackoffIsPower(delay, k - 1);
      assert delay * Pow2(k) == 2 * (delay * Pow2(k - 1));
    }
  }

  /** A call that raised an exception the given test takes for a rate limit. */
  predicate RateLimitedAttempt<T>(rateLimited: Option<ErrorResponse> -> bool, a: Attempt<T>)
  {
    a.Raised? && rateLimited(a.response)
  }

  /** `async_retry_on_429(func, max_retries, delay)`; `call(k)` is what the
      k-th call of `func` does, and `rateLimited` is the test applied to the
      exception's response: `Is429AsWritten` is the source's, `Is429` the
      corrected one. */
  method AsyncRetryOn429<T>(call: nat -> Attempt<T>, rateLimited: Option<ErrorResponse> -> bool,
                            maxRetries: int, delay: int)
    returns (r: RetryOutcome<T>, calls: nat, waits: seq<int>)
    ensures calls <= Max(maxRetries, 0)
    ensures forall k :: 0 <= k < |waits| ==> RateLimitedAttempt(rateLimited, call(k))
    ensures forall k :: 0 <= k < |waits| ==> waits[k] == Backoff(delay, k)
    ensures r.Value? ==> calls >= 1 && |waits| == calls - 1 && call(calls - 1) == Returned(r.value)
    ensures r.Reraised? ==>
      calls >= 1 && |waits| == calls - 1 && call(calls - 1) == Raised(r.response) && !rateLimited(r.response)
    ensures r.NoneReturned? ==> calls == Max(maxRetries, 0) && |waits| == calls
  {
    var d := delay;
    waits := [];
    var attempt: nat := 0;
    while attempt < maxRetries
      invariant attempt <= Max(maxRetries, 0)
      invariant |waits| == attempt
      invariant d == Backoff(delay, attempt)
      invariant forall k :: 0 <= k < attempt ==> RateLimitedAttempt(rateLimited, call(k))
      invariant forall k :: 0 <= k < attempt ==> waits[k] == Backoff(delay, k)
      decreases maxRetries - attempt
    {
      var outcome := call(attempt);
      if outcome.Returned? {
        return Value(outcome.value), attempt + 1, waits;
      }
      if !rateLimited(outcome.response) {
        return Reraised(outcome.response), attempt + 1, waits;
      }
      waits := waits + [d];
      d := 2 * d;
      attempt := attempt + 1;
    }
    r, calls := NoneReturned, attempt;
  }

  /** As written, a `requests` 429 response on the first call is re-raised
      at once, with no wait and no second call. */
  method AsWrittenRetryReraises429<T>(call: nat -> Attempt<T>, maxRetries: int, delay: int)
    returns (r: RetryOutcome<T>, calls: nat, waits: seq<int>)
    requires maxRetries >= 1 && call(0) == Raised(Some(RequestsResponse(429)))
    ensures r == Reraised(Some(RequestsResponse(429))) && calls == 1 && waits == []
  {
    r, calls, waits := AsyncRetryOn429(call, Is429AsWritten, maxRetries, delay);
  }

  /** With the corrected test, the same first call is followed by a wait of
      `delay` and a second call. */
  method CorrectedRetryWaitsOn429<T>(call: nat -> Attempt<T>, maxRetries: int, delay: int)
    returns (r: RetryOutcome<T>, calls: nat, waits: seq<int>)
    requires maxRetries >= 2 && call(0) == Raised(Some(RequestsResponse(429)))
    ensures calls >= 2 && |waits| >= 1 && waits[0] == delay
  {
    r, calls, waits := AsyncRetryOn429(call, Is429, maxRetries, delay);
  }

  /** The callers use the default three attempts and a first delay of one
      second: with the corrected test, when every call hits 429, the waits
      are 1, 2 and 4 seconds and None comes back. */
  method RetryWithDefaults<T>(call: nat -> Attempt<T>) returns (r: RetryOutcome<T>, calls: nat, waits: seq<int>)
    ensures calls <= 3
    ensures (forall k :: 0 <= k < 3 ==> RateLimitedAttempt(Is429, call(k))) ==>
      r.NoneReturned? && calls == 3 && waits == [1, 2, 4]
  {
    r, calls, waits := AsyncRetryOn429(call, Is429, DefaultMaxRetries, DefaultDelay);
    if forall k :: 0 <= k < 3 ==> RateLimitedAttempt(Is429, call(k)) {
      assert Backoff(1, 1) == 2 && Backoff(1, 2) == 4;
      assert !r.Value? && !r.Reraised?;
    }
  }

  // ---------------------------------------------------------------------------
  // The extension filter of build_repo_index
  // ---------------------------------------------------------------------------

  /** `s.rfind(c)`: the last index of `c` in `s`, or -1. */
  function RFind(s: string, c: char): (i: int)
    ensures -1 <= i < |s|
    ensures i >= 0 ==> s[i] == c
    ensures forall j :: i < j < |s| ==> s[j] != c
  {
    if |s| == 0 then -1
    else if s[|s| - 1] == c then |s| - 1
    else RFind(s[..|s| - 1], c)
  }

  /** `os.path.splitext` on POSIX: the extension runs from the last dot of
      the last path component, provided some character other than a dot
      comes before it in that component; otherwise there is none. */
  function SplitExt(p: string): (r: (string, string))
    ensures r.0 + r.1 == p
    ensures r.1 == "" || (r.1[0] == '.' && '.' !in r.1[1..] && '/' !in r.1)
  {
    var sepIndex := RFind(p, '/');
    var dotIndex := RFind(p, '.');
    if dotIndex > sepIndex && exists i :: sepIndex + 1 <= i < dotIndex && p[i] != '.' then
      (p[..dotIndex], p[dotIndex..])
    else
      (p, "")
  }

  /** `ext.lower() in INCLUDE_FILE_EXTENSIONS` */
  predicate IsIncluded(path: string)
  {
    Lower(SplitExt(path).1) in IncludeFileExtensions
  }

  /** Every path kept ends, up to the case of its letters, with one of the six
      extensions. */
  lemma IncludedEndsWithExtension(path: string)
    requires IsIncluded(path)
    ensures exists e :: e in IncludeFileExtensions && |e| <= |path| && Lower(path[|path| - |e|..]) == e
  {
    var (root, ext) := SplitExt(path);
    assert path[|path| - |ext|..] == ext;
    assert Lower(ext) in IncludeFileExtensions && |Lower(ext)| == |ext|;
  }

  lemma {:induction false} RFindAppend(a: string, b: string, c: char)
    ensures RFind(a + b, c) == if c in b then |a| + RFind(b, c) else RFind(a, c)
    decreases |b|
  {
    if |b| == 0 {
      assert a + b == a;
    } else {
      assert (a + b)[|a + b| - 1] == b[|b| - 1];
      if b[|b| - 1] != c {
        assert (a + b)[..|a + b| - 1] == a + b[..|b| - 1];
        RFindAppend(a, b[..|b| - 1], c);
        assert c in b <==> c in b[..|b| - 1] by {
          assert b == b[..|b| - 1] + [b[|b| - 1]];
        }
      }
    }
  }

  lemma {:induction false} RFindAbsent(s: string, c: char)
    requires c !in s
    ensures RFind(s, c) == -1
    decreases |s|
  {
    if |s| > 0 {
      assert s == s[..|s| - 1] + [s[|s| - 1]];
      RFindAbsent(s[..|s| - 1], c);
    }
  }

  /** The extension of a path is that of its last component. */
  lemma ExtensionOfLastComponent(dir: string, name: string)
    requires '/' !in name
    ensures SplitExt(dir + "/" + name).1 == SplitExt(name).1
  {
    var p := dir + "/" + name;
    assert p == (dir + "/") + name;
    RFindAppend(dir + "/", name, '/');
    RFindAbsent(name, '/');
    RFindAppend(dir + "/", name, '.');
    var off := |dir| + 1;
    assert RFind(p, '/') == |dir| by {
      RFindAppend(dir, "/", '/');
      assert RFind("/", '/') == 0;
    }
    var dn := RFind(name, '.');
    if '.' in name {
      assert RFind(p, '.') == off + dn;
      assert dn >= 0;
      assert (exists i :: off <= i < off + dn && p[i] != '.') <==> (exists i :: 0 <= i < dn && name[i] != '.') by {
        forall i | 0 <= i < dn ensures p[off + i] == name[i] { }
        if exists i :: off <= i < off + dn && p[i] != '.' {
          var i :| off <= i < off + dn && p[i] != '.';
          assert name[i - off] != '.';
        }
      }
      assert p[off + dn..] == name[dn..];
    } else {
      assert RFind(p, '.') <= |dir|;
    }
  }

  /** A file name with a stem that is not all dots has the extension after
      its last dot. */
  lemma NamedFileExtension(stem: string, ext: string)
    requires '/' !in stem && '/' !in ext && '.' !in ext
    requires exists i :: 0 <= i < |stem| && stem[i] != '.'
    ensures SplitExt(stem + "." + ext).1 == "." + ext
  {
    var p := stem + "." + ext;
    assert p == (stem + ".") + ext;
    RFindAppend(stem + ".", ext, '.');
    RFindAbsent(ext, '.');
    RFindAppend(stem, ".", '.');
    assert RFind(".", '.') == 0;
    var dot := |stem|;
    assert RFind(p, '.') == dot;
    RFindAbsent(p, '/') by {
      assert '/' !in p by {
        forall j | 0 <= j < |p| ensures p[j] != '/' {
          if j < |stem| { assert p[j] == stem[j]; } else if j > |stem| { assert p[j] == ext[j - |stem| - 1]; }
        }
      }
    }
    var i :| 0 <= i < |stem| && stem[i] != '.';
    assert p[i] == stem[i];
    assert p[dot..] == "." + ext;
  }

  /** A hidden file whose name is a dot followed by the extension has no
      extension at all: `.md` is not indexed. */
  lemma HiddenFileHasNoExtension(ext: string)
    requires '/' !in ext && '.' !in ext
    ensures SplitExt("." + ext).1 == ""
  {
    RFindAppend(".", ext, '.');
    RFindAbsent(ext, '.');
    assert RFind(".", '.') == 0;
    RFindAbsent("." + ext, '/') by {
      assert '/' !in "." + ext by {
        forall j | 0 <= j < |"." + ext| ensures ("." + ext)[j] != '/' {
          if j > 0 { assert ("." + ext)[j] == ext[j - 1]; }
        }
      }
    }
  }

  // ---------------------------------------------------------------------------
  // The documents of build_repo_index
  // ---------------------------------------------------------------------------

  datatype Document = Document(text: string, filePath: string)

  /** The document made for one path: none when the path is not kept or
      when fetching its content raised (`content` gives None). */
  function DocumentFor(path: string, keep: string -> bool, content: string -> Option<string>): (r: seq<Document>)
    ensures |r| <= 1
    ensures forall d :: d in r <==> d.filePath == path && keep(path) && content(path) == Some(d.text)
  {
    if keep(path) && content(path).Some? then [Document(content(path).value, path)] else []
  }

  /** The documents of the paths, in order, kept by `keep`. */
  function KeptDocuments(paths: seq<string>, keep: string -> bool, content: string -> Option<string>): (docs: seq<Document>)
    ensures |docs| <= |paths|
  {
    if paths == [] then []
    else KeptDocuments(paths[..|paths| - 1], keep, content) + DocumentFor(paths[|paths| - 1], keep, content)
  }

  lemma {:induction false} KeptDocumentsMembers(paths: seq<string>, keep: string -> bool,
                                                content: string -> Option<string>, d: Document)
    ensures d in KeptDocuments(paths, keep, content) <==>
      d.filePath in paths && keep(d.filePath) && content(d.filePath) == Some(d.text)
  {
    if paths != [] {
      var init := paths[..|paths| - 1];
      var last := paths[|paths| - 1];
      KeptDocumentsMembers(init, keep, content, d);
      assert paths == init + [last];
      assert d.filePath in paths <==> d.filePath in init || d.filePath == last;
    }
  }

  /** The documents keep the path order: those of `a + b` are those of `a`
      followed by those of `b`. */
  lemma {:induction false} KeptDocumentsAppend(a: seq<string>, b: seq<string>, keep: string -> bool,
                                               content: string -> Option<string>)
    ensures KeptDocuments(a + b, keep, content) == KeptDocuments(a, keep, content) + KeptDocuments(b, keep, content)
    decreases |b|
  {
    if b == [] {
      assert a + b == a;
    } else {
      var init := b[..|b| - 1];
      KeptDocumentsAppend(a, init, keep, content);
      assert (a + b)[..|a + b| - 1] == a + init;
      assert (a + b)[|a + b| - 1] == b[|b| - 1];
    }
  }

  /** The documents of the indexing loop: the paths with an included
      extension whose content could be fetched. */
  function IndexedDocuments(paths: seq<string>, content: string -> Option<string>): seq<Document>
  {
    KeptDocuments(paths, IsIncluded, content)
  }

  /** A document is made exactly for the listed paths with an included
      extension whose content could be fetched, and it carries that content. */
  lemma IndexedDocumentsMembers(paths: seq<string>, content: string -> Option<string>, d: Document)
    ensures d in IndexedDocuments(paths, content) <==>
      d.filePath in paths && IsIncluded(d.filePath) && content(d.filePath) == Some(d.text)
  {
    KeptDocumentsMembers(paths, IsIncluded, content, d);
  }

  /** `build_repo_index` up to the building of the vector index: the file
      listing (through the retry wrapper), the semantic selection when there
      is an issue description, then the loop that fetches each kept file.
      A listing of None is iterated, and raises, unless the selection
      returns the empty list before looking at it (an invalid embedding of
      the issue description). */
  method BuildRepoIndex(listing: RetryOutcome<seq<string>>, issueDescription: string, issueEmbeddingValid: bool,
                        score: string -> Option<int>, content: string -> Option<string>)
    returns (documents: Result<seq<Document>>)
    ensures listing.Reraised? ==> documents.Err?
    ensures listing.NoneReturned? ==> (documents.Err? <==> issueDescription == "" || issueEmbeddingValid)
    ensures listing.NoneReturned? && documents.Ok? ==> documents.value == []
    ensures listing.Value? ==>
      var paths := if issueDescription != "" then Selection(issueEmbeddingValid, listing.value, score) else listing.value;
      documents == Ok(IndexedDocuments(paths, content))
  {
    if listing.Reraised? {
      return Err("exception raised while listing the repository files");
    }
    if listing.NoneReturned? {
      if issueDescription != "" && !issueEmbeddingValid {
        var docs := FetchDocuments([], content);
        return Ok(docs);
      }
      return Err("TypeError: 'NoneType' object is not iterable");
    }
    var filePaths := listing.value;
    if issueDescription != "" {
      filePaths := SelectRelevantFilesSemantic(issueEmbeddingValid, filePaths, score);
    }
    var docs := FetchDocuments(filePaths, content);
    documents := Ok(docs);
  }

  /** The loop of `build_repo_index` over the chosen paths. */
  method FetchDocuments(filePaths: seq<string>, content: string -> Option<string>) returns (docs: seq<Document>)
    ensures docs == IndexedDocuments(filePaths, content)
  {
    docs := [];
    for i := 0 to |filePaths|
      invariant docs == IndexedDocuments(filePaths[..i], content)
    {
      var path := filePaths[i];
      assert filePaths[..i + 1][..i] == filePaths[..i];
      if !IsIncluded(path) {
        continue;
      }
      var text := content(path);
      if text.Some? {
        docs := docs + [Document(text.value, path)];
      }
    }
    assert filePaths[..|filePaths|] == filePaths;
  }

  // ---------------------------------------------------------------------------
  // select_relevant_files_semantic
  // ---------------------------------------------------------------------------

  datatype Scored = Scored(path: string, score: int)

  /** `scored_files`: the paths with a valid score, in input order. */
  function ScoredFiles(paths: seq<string>, score: string -> Option<int>): (s: seq<Scored>)
    ensures |s| <= |paths|
  {
    if paths == [] then []
    else
      var last := paths[|paths| - 1];
      ScoredFiles(paths[..|paths| - 1], score) +
        (if score(last).Some? then [Scored(last, score(last).value)] else [])
  }

  /** `scored_files` keeps the input order: the scored files of `a + b` are
      those of `a` followed by those of `b`. Ties in the sort keep this order. */
  lemma {:induction false} ScoredFilesAppend(a: seq<string>, b: seq<string>, score: string -> Option<int>)
    ensures ScoredFiles(a + b, score) == ScoredFiles(a, score) + ScoredFiles(b, score)
    decreases |b|
  {
    if b == [] {
      assert a + b == a;
    } else {
      var init := b[..|b| - 1];
      ScoredFilesAppend(a, init, score);
      assert (a + b)[..|a + b| - 1] == a + init;
      assert (a + b)[|a + b| - 1] == b[|b| - 1];
    }
  }

  lemma {:induction false} ScoredFilesMembers(paths: seq<string>, score: string -> Option<int>, x: Scored)
    ensures x in ScoredFiles(paths, score) <==> x.path in paths && score(x.path) == Some(x.score)
  {
    if paths != [] {
      var init := paths[..|paths| - 1];
      ScoredFilesMembers(init, score, x);
      assert paths == init + [paths[|paths| - 1]];
      assert x.path in paths <==> x.path in init || x.path == paths[|paths| - 1];
    }
  }

  predicate SortedDesc(s: seq<Scored>)
  {
    forall i, j :: 0 <= i < j < |s| ==> s[i].score >= s[j].score
  }

  /** Insert `x` before the first element that does not score higher, so
      that among equal scores the earlier input comes first. */
  function InsertDesc(x: Scored, s: seq<Scored>): (r: seq<Scored>)
    ensures multiset(r) == multiset(s) + multiset{x}
  {
    if s == [] then [x]
    else if x.score >= s[0].score then [x] + s
    else
      assert s == [s[0]] + s[1..];
      [s[0]] + InsertDesc(x, s[1..])
  }

  /** Inserting into a list sorted by descending score keeps it sorted. */
  lemma {:induction false} InsertDescSorted(x: Scored, s: seq<Scored>)
    requires SortedDesc(s)
    ensures SortedDesc(InsertDesc(x, s))
  {
    if s != [] && x.score < s[0].score {
      var rest := InsertDesc(x, s[1..]);
      InsertDescSorted(x, s[1..]);
      forall k | 0 <= k < |rest| ensures rest[k].score <= s[0].score {
        assert rest[k] in multiset(rest);
        if rest[k] != x {
          assert rest[k] in multiset(s[1..]);
          var j :| 0 <= j < |s[1..]| && s[1..][j] == rest[k];
          assert s[1 + j] == rest[k];
        }
      }
      assert InsertDesc(x, s) == [s[0]] + rest;
    }
  }

  /** `sorted(scored_files, key=score, reverse=True)`: a stable sort by
      descending score. */
  function SortDesc(s: seq<Scored>): (r: seq<Scored>)
    ensures SortedDesc(r)
    ensures multiset(r) == multiset(s)
  {
    if s == [] then []
    else
      assert s == [s[0]] + s[1..];
      var t := SortDesc(s[1..]);
      InsertDescSorted(s[0], t);
      InsertDesc(s[0], t)
  }

  /** The entries with score `c`, in their order in `s`. */
  function WithScore(s: seq<Scored>, c: int): seq<Scored>
  {
    if s == [] then []
    else (if s[0].score == c then [s[0]] else []) + WithScore(s[1..], c)
  }

  /** Every entry that `InsertDesc` passes over scores higher than `x`, so
      for each score the inserted entry comes first among its equals. */
  lemma {:induction false} InsertDescWithScore(x: Scored, t: seq<Scored>, c: int)
    ensures WithScore(InsertDesc(x, t), c) == (if x.score == c then [x] else []) + WithScore(t, c)
  {
    if t == [] {
      WithScoreCons(x, [], c);
    } else if x.score >= t[0].score {
      WithScoreCons(x, t, c);
    } else {
      InsertDescWithScore(x, t[1..], c);
      WithScoreCons(t[0], InsertDesc(x, t[1..]), c);
      WithScoreCons(t[0], t[1..], c);
      assert [t[0]] + t[1..] == t;
    }
  }

  lemma WithScoreCons(y: Scored, rest: seq<Scored>, c: int)
    ensures WithScore([y] + rest, c) == (if y.score == c then [y] else []) + WithScore(rest, c)
  {
    assert ([y] + rest)[0] == y && ([y] + rest)[1..] == rest;
  }

  /** The sort is stable: for every score, the entries with that score
      keep their input order. */
  lemma {:induction false} SortDescStable(s: seq<Scored>, c: int)
    ensures WithScore(SortDesc(s), c) == WithScore(s, c)
  {
    if s != [] {
      SortDescStable(s[1..], c);
      InsertDescWithScore(s[0], SortDesc(s[1..]), c);
    }
  }

  /** `sorted(...)[:2]`: the first two entries of the sorted list, or fewer. */
  function TopTwoScored(scored: seq<Scored>): seq<Scored>
  {
    var sorted := SortDesc(scored);
    sorted[..Min(2, |sorted|)]
  }

  /** `[f[0] for f in sorted(...)[:2]]` */
  function TopTwo(scored: seq<Scored>): (top: seq<string>)
    ensures |top| == Min(2, |scored|) && |top| == |TopTwoScored(scored)|
    ensures forall k :: 0 <= k < |top| ==> top[k] == TopTwoScored(scored)[k].path
  {
    var t := TopTwoScored(scored);
    assert |SortDesc(scored)| == |scored| by {
      assert |multiset(SortDesc(scored))| == |multiset(scored)|;
    }
    seq(|t|, k requires 0 <= k < |t| => t[k].path)
  }

  /** The top entries are drawn from the scored files, come in descending
      score order, and no scored file left out scores higher than any of
      them. */
  lemma TopTwoAreHighest(scored: seq<Scored>)
    ensures var t := TopTwoScored(scored);
      |t| == Min(2, |scored|) &&
      multiset(t) <= multiset(scored) &&
      SortedDesc(t) &&
      forall x, k :: x in multiset(scored) - multiset(t) && 0 <= k < |t| ==> x.score <= t[k].score
  {
    var sorted := SortDesc(scored);
    var n := Min(2, |sorted|);
    var t := sorted[..n];
    assert |sorted| == |scored| by {
      assert |multiset(sorted)| == |multiset(scored)|;
    }
    PrefixSplit(sorted, n);
    PrefixIsHighest(sorted, n);
  }

  lemma PrefixSplit(s: seq<Scored>, n: nat)
    requires n <= |s|
    ensures multiset(s) == multiset(s[..n]) + multiset(s[n..])
    ensures multiset(s) - multiset(s[..n]) == multiset(s[n..])
  {
    assert s == s[..n] + s[n..];
  }

  /** In a list sorted by descending score, nothing after position `n` scores
      higher than anything before it. */
  lemma PrefixIsHighest(s: seq<Scored>, n: nat)
    requires SortedDesc(s) && n <= |s|
    ensures SortedDesc(s[..n])
    ensures forall x, k :: x in multiset(s[n..]) && 0 <= k < n ==> x.score <= s[..n][k].score
  {
    forall x, k | x in multiset(s[n..]) && 0 <= k < n
      ensures x.score <= s[..n][k].score
    {
      var j :| 0 <= j < |s[n..]| && s[n..][j] == x;
      assert s[n + j] == x;
    }
  }

  /** The README rule closing `select_relevant_files_semantic`: README.md
      goes in front when it is among the input paths but not among the top
      two, and the list is unchanged otherwise. */
  function SelectTop(scored: seq<Scored>, filePaths: seq<string>): (r: seq<string>)
    ensures Readme in filePaths && Readme !in TopTwo(scored) ==> r == [Readme] + TopTwo(scored)
    ensures !(Readme in filePaths && Readme !in TopTwo(scored)) ==> r == TopTwo(scored)
    ensures Readme in filePaths ==> Readme in r
  {
    var top := TopTwo(scored);
    if Readme in filePaths && Readme !in top then [Readme] + top else top
  }

  /** `select_relevant_files_semantic` over abstract scores; an invalid
      embedding of the issue description gives the empty list. */
  function Selection(issueEmbeddingValid: bool, filePaths: seq<string>, score: string -> Option<int>): seq<string>
  {
    if !issueEmbeddingValid then [] else SelectTop(ScoredFiles(filePaths, score), filePaths)
  }

  /** At most three files are selected, all of them input paths. */
  lemma SelectionBounds(issueEmbeddingValid: bool, filePaths: seq<string>, score: string -> Option<int>)
    ensures |Selection(issueEmbeddingValid, filePaths, score)| <= 3
    ensures forall p :: p in Selection(issueEmbeddingValid, filePaths, score) ==> p in filePaths
  {
    if issueEmbeddingValid {
      var scored := ScoredFiles(filePaths, score);
      var t := TopTwoScored(scored);
      TopTwoAreHighest(scored);
      forall p | p in TopTwo(scored) ensures p in filePaths {
        var k :| 0 <= k < |TopTwo(scored)| && TopTwo(scored)[k] == p;
        assert t[k] in multiset(scored);
        ScoredFilesMembers(filePaths, score, t[k]);
      }
    }
  }

  /** The method the source runs: score each path in turn, appending the
      valid ones, then keep the top two and apply the README rule. */
  method SelectRelevantFilesSemantic(issueEmbeddingValid: bool, filePaths: seq<string>, score: string -> Option<int>)
    returns (topFiles: seq<string>)
    ensures topFiles == Selection(issueEmbeddingValid, filePaths, score)
  {
    if !issueEmbeddingValid {
      return [];
    }
    var scoredFiles: seq<Scored> := [];
    for i := 0 to |filePaths|
      invariant scoredFiles == ScoredFiles(filePaths[..i], score)
    {
      var path := filePaths[i];
      assert filePaths[..i + 1][..i] == filePaths[..i];
      var s := score(path);
      if s.None? {
        continue;
      }
      scoredFiles := scoredFiles + [Scored(path, s.value)];
    }
    assert filePaths[..|filePaths|] == filePaths;
    topFiles := TopTwo(scoredFiles);
    if Readme in filePaths {
      if Readme !in topFiles {
        topFiles := [Readme] + topFiles;
      }
    }
  }
}
