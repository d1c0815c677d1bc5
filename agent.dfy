/** agent/core.py, `run_agent`: the loop that alternates between a model
    provider and the four tools. The provider is a scripted sequence of
    replies. The tools form one abstract function, which is given the number
    of tool executions so far, so every execution may answer differently.
    The yielded progress lines are kept as a sequence of events.

    The batch and the run are defined over any handler of one tool call and
    proved for every handler with the shape `CallShape`; the agent's handler
    is `ProcessCall`, and `AgentHandlerWellBehaved` shows it has that shape. */
module Agent {
  import opened Common

  const MaxSteps: nat := 5

  const FetchGithubIssue := "fetch_github_issue"
  const GetIssueDetails := "get_issue_details"
  const RetrieveContext := "retrieve_context"
  const PostComment := "post_comment"

  /** `allowed_tools`, the keys of `names_to_functions` */
  const AllowedTools: set<string> := {FetchGithubIssue, GetIssueDetails, RetrieveContext, PostComment}

  const IssueDescriptionParam := "issue_description"

  /** The decoded arguments of a tool call, with string values. */
  type Args = map<string, string>

  datatype ToolCall = ToolCall(name: string, args: Args, id: string)

  /** One provider reply: its text content and its tool calls in order. */
  datatype Reply = Reply(content: Option<string>, toolCalls: seq<ToolCall>)

  /** What a tool returns: a dict, whose `title` and `body` entries matter
      here (None when missing or None), or any other value. */
  datatype ToolResult = IssueDict(title: Option<string>, body: Option<string>) | OtherValue(repr: string)

  /** A tool either returns or raises; a raised exception is not caught. */
  datatype ToolOutcome = Returned(result: ToolResult) | Raised

  /** `names_to_functions[name](**args)`, for the execution with the given
      index in the run. */
  type Tools = (nat, string, Args) -> ToolOutcome

  /** The content of a tool message: `str()` of a tool result, or the text
      sent back for an unknown tool. */
  datatype Content = Rendered(result: ToolResult) | ErrorText(text: string)

  datatype Message =
    | SystemMessage
    | UserMessage(text: string)
    | AssistantMessage(reply: Reply)
    | ToolMessage(callId: string, content: Content)

  datatype Invocation = Invocation(name: string, args: Args)

  /** The lines `run_agent` yields. */
  datatype Event =
    | Started
    | CallingTool(name: string)
    | DescriptionCached
    | OverridingDescription
    | CommentPosted
    | UnknownTool(name: string)
    | StepCeilingReached
    | FinalAnswer(content: Option<string>)
    | TaskCompleted

  /** The local state of `run_agent`, with the trace of tool executions. */
  datatype State = State(
    messages: seq<Message>,
    toolCalls: nat,
    cache: Option<string>,
    executed: seq<Invocation>,
    events: seq<Event>)

  /** After one tool call: go on with the batch, stop after `post_comment`,
      or propagate an exception. */
  datatype CallStatus = Continue | Commit | Crash

  datatype Step = Step(st: State, status: CallStatus)

  datatype Batch = Batch(st: State, status: CallStatus, examined: nat)

  datatype Outcome = Finished(content: Option<string>) | Committed | StoppedAtCeiling | Failed | ScriptEnded

  datatype RunResult = RunResult(state: State, outcome: Outcome, turns: nat, toolTurns: nat)

  // ---------------------------------------------------------------------------
  // Texts and the description cache
  // ---------------------------------------------------------------------------

  function UserPrompt(issueUrl: string, branchName: string): string
  {
    "Please suggest a fix on this issue " + issueUrl + " and use " + branchName + " branch for retrieving code context."
  }

  /** The error text for an unknown tool; it lists three of the four tools. */
  function UnknownToolMessage(name: string): string
  {
    "Error: Tool '" + name + "' is not available. " +
    "You can only use the following tools: fetch_github_issue, get_issue_details, post_comment."
  }

  /** Python truth value of an optional string. */
  predicate Truthy(s: Option<string>)
  {
    s.Some? && s.value != ""
  }

  /** `issue_title + "\n" + issue_body if issue_title or issue_body else None`;
      the concatenation raises TypeError when one side is None. */
  function CaptureDescription(title: Option<string>, body: Option<string>): (r: Result<Option<string>>)
    ensures r == Ok(None) <==> !Truthy(title) && !Truthy(body)
    ensures r.Ok? && r.value.Some? ==>
      title.Some? && body.Some? && r.value.value == title.value + "\n" + body.value && r.value.value != ""
    ensures r.Err? <==> (Truthy(title) || Truthy(body)) && (title.None? || body.None?)
  {
    if Truthy(title) || Truthy(body) then
      if title.Some? && body.Some? then Ok(Some(title.value + "\n" + body.value))
      else Err("TypeError: unsupported operand type(s) for +")
    else Ok(None)
  }

  /** The condition of the `issue_description` override. */
  predicate Overrides(cache: Option<string>, args: Args)
  {
    IssueDescriptionParam in args && Truthy(cache) && args[IssueDescriptionParam] != cache.value
  }


  // ---------------------------------------------------------------------------
  // One tool call
  // ---------------------------------------------------------------------------

  /** Record the result of an executed tool and stop after `post_comment`. */
  function Record(st: State, call: ToolCall, result: ToolResult): Step
  {
    var st1 := st.(messages := st.messages + [ToolMessage(call.id, Rendered(result))]);
    if call.name == PostComment then Step(st1.(events := st1.events + [CommentPosted]), Commit)
    else Step(st1, Continue)
  }

  /** What follows a first execution that returned: the cache capture of
      `get_issue_details`, the override and re-execution of
      `retrieve_context`, then the tool message. */
  function AfterDispatch(tools: Tools, st: State, call: ToolCall, result: ToolResult): Step
  {
    if call.name == GetIssueDetails && result.IssueDict? then
      match CaptureDescription(result.title, result.body)
      case Err(_) => Step(st, Crash)
      case Ok(c) => Record(st.(cache := c, events := st.events + [DescriptionCached]), call, result)
    else if call.name == RetrieveContext && Overrides(st.cache, call.args) then
      var args := call.args[IssueDescriptionParam := st.cache.value];
      var st1 := st.(events := st.events + [OverridingDescription],
                     executed := st.executed + [Invocation(call.name, args)]);
      var again := tools(|st.executed|, call.name, args);
      if again.Raised? then Step(st1, Crash) else Record(st1, call, again.result)
    else
      Record(st, call, result)
  }

  /** The handling of one tool call of a batch. */
  function ProcessCall(tools: Tools, st: State, call: ToolCall): Step
  {
    if call.name !in AllowedTools then
      Step(st.(messages := st.messages + [ToolMessage(call.id, ErrorText(UnknownToolMessage(call.name)))],
               events := st.events + [UnknownTool(call.name)]), Continue)
    else
      var st1 := st.(events := st.events + [CallingTool(call.name)],
                     executed := st.executed + [Invocation(call.name, call.args)]);
      var first := tools(|st.executed|, call.name, call.args);
      if first.Raised? then Step(st1, Crash)
      else AfterDispatch(tools, st1.(toolCalls := st.toolCalls + 1), call, first.result)
  }

  /** A tool outside `allowed_tools` is not executed and not counted; the
      error text goes back as its tool message and the batch goes on. */
  lemma UnknownToolRejected(tools: Tools, st: State, call: ToolCall)
    requires call.name !in AllowedTools
    ensures var r := ProcessCall(tools, st, call);
      r.status == Continue && r.st.toolCalls == st.toolCalls && r.st.cache == st.cache &&
      r.st.executed == st.executed &&
      r.st.messages == st.messages + [ToolMessage(call.id, ErrorText(UnknownToolMessage(call.name)))] &&
      r.st.events == st.events + [UnknownTool(call.name)]
  {
  }

  /** A new message list holds the old one followed by one tool message for
      the call with the given id. */
  predicate AppendsToolMessage(before: seq<Message>, after: seq<Message>, id: string)
  {
    |after| == |before| + 1 && after == before + [after[|before|]] &&
    after[|before|].ToolMessage? && after[|before|].callId == id
  }

  lemma AfterDispatchMessages(tools: Tools, st: State, call: ToolCall, result: ToolResult)
    ensures var r := AfterDispatch(tools, st, call, result);
      (r.status == Crash ==> r.st.messages == st.messages) &&
      (r.status != Crash ==> AppendsToolMessage(st.messages, r.st.messages, call.id))
  {
  }

  /** Every call that does not raise appends exactly one tool message, which
      carries the call's id; one that raises appends none. */
  lemma CallMessages(tools: Tools, st: State, call: ToolCall)
    ensures var r := ProcessCall(tools, st, call);
      (r.status == Crash ==> r.st.messages == st.messages) &&
      (r.status != Crash ==> AppendsToolMessage(st.messages, r.st.messages, call.id))
  {
    if call.name in AllowedTools {
      var first := tools(|st.executed|, call.name, call.args);
      if first.Returned? {
        var st1 := st.(events := st.events + [CallingTool(call.name)],
                       executed := st.executed + [Invocation(call.name, call.args)],
                       toolCalls := st.toolCalls + 1);
        AfterDispatchMessages(tools, st1, call, first.result);
      }
    }
  }

  /** The counter rises by one for an allowed tool that returned and stays
      put for an unknown one, whether or not the override re-executes. */
  lemma CallCounter(tools: Tools, st: State, call: ToolCall)
    ensures var r := ProcessCall(tools, st, call);
      st.toolCalls <= r.st.toolCalls <= st.toolCalls + 1 &&
      (r.status != Crash ==> r.st.toolCalls == st.toolCalls + (if call.name in AllowedTools then 1 else 0))
  {
  }

  /** A call commits exactly when it is a `post_comment` that did not raise,
      and the commit is the last event. */
  lemma CallCommit(tools: Tools, st: State, call: ToolCall)
    ensures var r := ProcessCall(tools, st, call);
      (r.status == Commit <==> call.name == PostComment && r.status != Crash) &&
      (r.status == Commit ==> r.st.events != [] && r.st.events[|r.st.events| - 1] == CommentPosted)
  {
  }

  /** A call executes only the tool it names, and only an allowed one, at
      most twice; earlier executions are kept. */
  lemma CallExecutions(tools: Tools, st: State, call: ToolCall)
    ensures var r := ProcessCall(tools, st, call);
      |st.executed| <= |r.st.executed| <= |st.executed| + 2 &&
      r.st.executed[..|st.executed|] == st.executed &&
      forall j :: |st.executed| <= j < |r.st.executed| ==>
        r.st.executed[j].name == call.name && call.name in AllowedTools
  {
  }

  /** Tools other than `get_issue_details` leave the cache alone. */
  lemma CacheOnlyFromIssueDetails(tools: Tools, st: State, call: ToolCall)
    requires call.name != GetIssueDetails
    ensures ProcessCall(tools, st, call).st.cache == st.cache
  {
  }

  /** A dict from `get_issue_details` overwrites the cache with the captured
      description, whatever the cache held before; a capture that raises
      ends the run. */
  lemma CacheCapture(tools: Tools, st: State, call: ToolCall, title: Option<string>, body: Option<string>)
    requires call.name == GetIssueDetails
    requires tools(|st.executed|, call.name, call.args) == Returned(IssueDict(title, body))
    ensures var r := ProcessCall(tools, st, call);
      (CaptureDescription(title, body).Ok? ==>
        r.status == Continue && r.st.cache == CaptureDescription(title, body).value &&
        r.st.messages == st.messages + [ToolMessage(call.id, Rendered(IssueDict(title, body)))]) &&
      (CaptureDescription(title, body).Err? ==> r.status == Crash)
  {
  }

  /** Any other result of `get_issue_details` leaves the cache alone. */
  lemma CacheKeptOnOtherResult(tools: Tools, st: State, call: ToolCall, repr: string)
    requires call.name == GetIssueDetails
    requires tools(|st.executed|, call.name, call.args) == Returned(OtherValue(repr))
    ensures var r := ProcessCall(tools, st, call);
      r.status == Continue && r.st.cache == st.cache && r.st.executed == st.executed + [Invocation(call.name, call.args)]
  {
  }

  /** The override: with a non-empty cache and a different
      `issue_description`, `retrieve_context` runs a second time on the
      corrected arguments, the counter still rises by one, and the recorded
      result is the second one. */
  lemma OverrideReruns(tools: Tools, st: State, call: ToolCall, first: ToolResult)
    requires call.name == RetrieveContext && Overrides(st.cache, call.args)
    requires tools(|st.executed|, call.name, call.args) == Returned(first)
    ensures var r := ProcessCall(tools, st, call);
      var args := call.args[IssueDescriptionParam := st.cache.value];
      var again := tools(|st.executed| + 1, call.name, args);
      r.st.executed == st.executed + [Invocation(call.name, call.args), Invocation(call.name, args)] &&
      r.st.toolCalls == st.toolCalls + 1 &&
      (again.Returned? ==>
        r.status == Continue && r.st.messages == st.messages + [ToolMessage(call.id, Rendered(again.result))]) &&
      (again.Raised? ==> r.status == Crash)
  {
  }

  /** Without the override condition, `retrieve_context` runs once and its
      own result is recorded. */
  lemma NoOverrideRunsOnce(tools: Tools, st: State, call: ToolCall, result: ToolResult)
    requires call.name == RetrieveContext && !Overrides(st.cache, call.args)
    requires tools(|st.executed|, call.name, call.args) == Returned(result)
    ensures var r := ProcessCall(tools, st, call);
      r.status == Continue && r.st.executed == st.executed + [Invocation(call.name, call.args)] &&
      r.st.messages == st.messages + [ToolMessage(call.id, Rendered(result))]
  {
  }

  /** The per-call body of the loop in `run_agent`, written as the source
      writes it. */
  method HandleToolCall(tools: Tools, st: State, call: ToolCall) returns (r: Step)
    ensures r == ProcessCall(tools, st, call)
  {
    var messages, toolCalls, cache, executed, events := st.messages, st.toolCalls, st.cache, st.executed, st.events;
    var functionName := call.name;
    var functionParams := call.args;
    if functionName in AllowedTools {
      events := events + [CallingTool(functionName)];
      var outcome := tools(|executed|, functionName, functionParams);
      executed := executed + [Invocation(functionName, functionParams)];
      if outcome.Raised? {
        return Step(State(messages, toolCalls, cache, executed, events), Crash);
      }
      var functionResult := outcome.result;
      toolCalls := toolCalls + 1;
      if functionName == GetIssueDetails && functionResult.IssueDict? {
        var captured := CaptureDescription(functionResult.title, functionResult.body);
        if captured.Err? {
          return Step(State(messages, toolCalls, cache, executed, events), Crash);
        }
        cache := captured.value;
        events := events + [DescriptionCached];
      }
      if functionName == RetrieveContext {
        if IssueDescriptionParam in functionParams {
          if Truthy(cache) && functionParams[IssueDescriptionParam] != cache.value {
            events := events + [OverridingDescription];
            functionParams := functionParams[IssueDescriptionParam := cache.value];
            var again := tools(|executed|, functionName, functionParams);
            executed := executed + [Invocation(functionName, functionParams)];
            if again.Raised? {
              return Step(State(messages, toolCalls, cache, executed, events), Crash);
            }
            functionResult := again.result;
          }
        }
      }
      messages := messages + [ToolMessage(call.id, Rendered(functionResult))];
      if functionName == PostComment {
        events := events + [CommentPosted];
        return Step(State(messages, toolCalls, cache, executed, events), Commit);
      }
    } else {
      events := events + [UnknownTool(functionName)];
      messages := messages + [ToolMessage(call.id, ErrorText(UnknownToolMessage(functionName)))];
    }
    r := Step(State(messages, toolCalls, cache, executed, events), Continue);
  }

  // ---------------------------------------------------------------------------
  // Handlers of one call
  // ---------------------------------------------------------------------------

  type Handler = (State, ToolCall) -> Step

  function AgentHandler(tools: Tools): Handler
  {
    (st: State, call: ToolCall) => ProcessCall(tools, st, call)
  }

  /** What the batch and the run rely on about one call. */
  predicate CallShape(st: State, call: ToolCall, r: Step)
  {
    (r.status == Crash ==> r.st.messages == st.messages) &&
    (r.status != Crash ==>
      AppendsToolMessage(st.messages, r.st.messages, call.id) &&
      r.st.toolCalls == st.toolCalls + (if call.name in AllowedTools then 1 else 0)) &&
    st.toolCalls <= r.st.toolCalls &&
    (r.status == Commit ==> call.name == PostComment && r.st.events != [] && r.st.events[|r.st.events| - 1] == CommentPosted) &&
    (call.name == PostComment && r.status != Crash ==> r.status == Commit) &&
    |st.executed| <= |r.st.executed| && r.st.executed[..|st.executed|] == st.executed &&
    (forall j :: |st.executed| <= j < |r.st.executed| ==> r.st.executed[j].name in AllowedTools)
  }

  ghost predicate WellBehaved(handle: Handler)
  {
    forall st, call :: CallShape(st, call, handle(st, call))
  }

  lemma ProcessCallShape(tools: Tools, st: State, call: ToolCall)
    ensures CallShape(st, call, ProcessCall(tools, st, call))
  {
    CallMessages(tools, st, call);
    CallCounter(tools, st, call);
    CallCommit(tools, st, call);
    CallExecutions(tools, st, call);
  }

  lemma AgentHandlerWellBehaved(tools: Tools)
    ensures WellBehaved(AgentHandler(tools))
  {
    forall st: State, call: ToolCall
      ensures CallShape(st, call, AgentHandler(tools)(st, call))
    {
      ProcessCallShape(tools, st, call);
    }
  }

  // ---------------------------------------------------------------------------
  // A batch of tool calls
  // ---------------------------------------------------------------------------

  /** The calls of one reply, in order, until one commits or raises;
      `examined` is the number of calls handled. */
  function ProcessCalls(handle: Handler, st: State, calls: seq<ToolCall>): Batch
    decreases |calls|
  {
    if calls == [] then Batch(st, Continue, 0)
    else
      var s := handle(st, calls[0]);
      if s.status != Continue then Batch(s.st, s.status, 1)
      else
        var b := ProcessCalls(handle, s.st, calls[1..]);
        b.(examined := b.examined + 1)
  }

  /** The number of calls naming an allowed tool. */
  function CountAllowed(calls: seq<ToolCall>): (n: nat)
    ensures n <= |calls|
    ensures n == 0 <==> forall k :: 0 <= k < |calls| ==> calls[k].name !in AllowedTools
    ensures n == |calls| <==> forall k :: 0 <= k < |calls| ==> calls[k].name in AllowedTools
  {
    if calls == [] then 0
    else (if calls[0].name in AllowedTools then 1 else 0) + CountAllowed(calls[1..])
  }

  /** `after` extends `before` by one tool message per call of `calls[..n]`,
      carrying the call ids in order. */
  predicate RecordsCalls(before: seq<Message>, after: seq<Message>, calls: seq<ToolCall>, n: int)
  {
    0 <= n <= |calls| && |after| == |before| + n && after[..|before|] == before &&
    forall k :: |before| <= k < |before| + n ==> after[k].ToolMessage? && after[k].callId == calls[k - |before|].id
  }

  predicate AllAllowed(executed: seq<Invocation>)
  {
    forall j :: 0 <= j < |executed| ==> executed[j].name in AllowedTools
  }

  lemma RecordsCallsCons(before: seq<Message>, m: Message, after: seq<Message>, calls: seq<ToolCall>, n: int)
    requires calls != [] && m.ToolMessage? && m.callId == calls[0].id
    requires RecordsCalls(before + [m], after, calls[1..], n)
    ensures RecordsCalls(before, after, calls, n + 1)
  {
    var mid := before + [m];
    assert after[..|before|] == before by {
      assert after[..|before|] == after[..|mid|][..|before|];
    }
    forall k | |before| <= k < |before| + n + 1
      ensures after[k].ToolMessage? && after[k].callId == calls[k - |before|].id
    {
      if k == |before| {
        assert after[|before|] == after[..|mid|][|before|];
      } else {
        assert calls[1..][k - |mid|] == calls[k - |before|];
      }
    }
  }

  /** A batch handles its calls in order and stops only at a commit or an
      exception; every handled call that did not raise appends one tool
      message with its id, in order. */
  lemma {:induction false} BatchMessages(handle: Handler, st: State, calls: seq<ToolCall>)
    requires WellBehaved(handle)
    ensures var b := ProcessCalls(handle, st, calls);
      b.examined <= |calls| &&
      (b.status == Continue ==> b.examined == |calls|) &&
      (b.status != Continue ==> b.examined >= 1) &&
      (b.status == Commit ==> calls[b.examined - 1].name == PostComment) &&
      RecordsCalls(st.messages, b.st.messages, calls, if b.status == Crash then b.examined - 1 else b.examined)
    decreases |calls|
  {
    if calls != [] {
      var s := handle(st, calls[0]);
      assert CallShape(st, calls[0], s);
      var m := if s.status == Crash then SystemMessage else s.st.messages[|st.messages|];
      if s.status == Continue {
        BatchMessages(handle, s.st, calls[1..]);
        var b := ProcessCalls(handle, s.st, calls[1..]);
        var n := if b.status == Crash then b.examined - 1 else b.examined;
        RecordsCallsCons(st.messages, m, b.st.messages, calls, n);
      } else if s.status == Commit {
        assert RecordsCalls(s.st.messages, s.st.messages, calls[1..], 0);
        RecordsCallsCons(st.messages, m, s.st.messages, calls, 0);
      } else {
        assert st.messages[..|st.messages|] == st.messages;
      }
    }
  }

  /** When every call was handled without an exception, the counter rose by
      the number of calls naming an allowed tool; unknown tools and the
      override's second execution do not count. */
  lemma {:induction false} BatchCounter(handle: Handler, st: State, calls: seq<ToolCall>)
    requires WellBehaved(handle)
    ensures var b := ProcessCalls(handle, st, calls);
      st.toolCalls <= b.st.toolCalls &&
      (b.status == Continue ==> b.st.toolCalls == st.toolCalls + CountAllowed(calls))
    decreases |calls|
  {
    if calls != [] {
      var s := handle(st, calls[0]);
      assert CallShape(st, calls[0], s);
      if s.status == Continue {
        BatchCounter(handle, s.st, calls[1..]);
      }
    }
  }

  /** Only allowed tools are ever executed, and earlier executions are kept. */
  lemma {:induction false} BatchExecutesAllowed(handle: Handler, st: State, calls: seq<ToolCall>)
    requires WellBehaved(handle) && AllAllowed(st.executed)
    ensures var b := ProcessCalls(handle, st, calls);
      AllAllowed(b.st.executed) && |st.executed| <= |b.st.executed| && b.st.executed[..|st.executed|] == st.executed
    decreases |calls|
  {
    if calls != [] {
      var s := handle(st, calls[0]);
      assert CallShape(st, calls[0], s);
      assert AllAllowed(s.st.executed) by {
        forall j | 0 <= j < |s.st.executed| ensures s.st.executed[j].name in AllowedTools {
          if j < |st.executed| {
            assert s.st.executed[j] == s.st.executed[..|st.executed|][j];
          }
        }
      }
      if s.status == Continue {
        BatchExecutesAllowed(handle, s.st, calls[1..]);
        var b := ProcessCalls(handle, s.st, calls[1..]);
        assert b.st.executed[..|st.executed|] == b.st.executed[..|s.st.executed|][..|st.executed|];
      }
    }
  }

  /** The calls after the commit point, or after the call that raised, have
      no effect at all: the batch is the batch of the calls it examined. */
  lemma {:induction false} BatchIgnoresRest(handle: Handler, st: State, calls: seq<ToolCall>)
    ensures var b := ProcessCalls(handle, st, calls);
      b.examined <= |calls| && ProcessCalls(handle, st, calls[..b.examined]) == b
    decreases |calls|
  {
    if calls != [] {
      var s := handle(st, calls[0]);
      var b := ProcessCalls(handle, st, calls);
      if s.status == Continue {
        BatchIgnoresRest(handle, s.st, calls[1..]);
        var b1 := ProcessCalls(handle, s.st, calls[1..]);
        assert calls[..b.examined][0] == calls[0];
        assert calls[..b.examined][1..] == calls[1..][..b1.examined];
      } else {
        assert calls[..1][0] == calls[0];
        assert calls[..1][1..] == [];
      }
    }
  }

  /** A batch that commits ends with the event of the posted comment. */
  lemma {:induction false} BatchCommitEvent(handle: Handler, st: State, calls: seq<ToolCall>)
    requires WellBehaved(handle)
    requires ProcessCalls(handle, st, calls).status == Commit
    ensures var b := ProcessCalls(handle, st, calls);
      b.st.events != [] && b.st.events[|b.st.events| - 1] == CommentPosted
    decreases |calls|
  {
    var s := handle(st, calls[0]);
    assert CallShape(st, calls[0], s);
    if s.status == Continue {
      BatchCommitEvent(handle, s.st, calls[1..]);
    }
  }

  /** `post_comment` is the commit point: a batch stops at the first one at
      the latest, whether it committed there or raised before. */
  lemma {:induction false} BatchStopsAtPostComment(handle: Handler, st: State, calls: seq<ToolCall>, k: nat)
    requires WellBehaved(handle) && k < |calls| && calls[k].name == PostComment
    ensures var b := ProcessCalls(handle, st, calls);
      b.status != Continue && b.examined <= k + 1
    decreases k
  {
    var s := handle(st, calls[0]);
    assert CallShape(st, calls[0], s);
    if s.status == Continue {
      assert k > 0;
      assert calls[1..][k - 1] == calls[k];
      BatchStopsAtPostComment(handle, s.st, calls[1..], k - 1);
    }
  }

  /** The inner loop of `run_agent` over the tool calls of one reply. */
  method ProcessToolCalls(tools: Tools, st0: State, calls: seq<ToolCall>) returns (b: Batch)
    ensures b == ProcessCalls(AgentHandler(tools), st0, calls)
  {
    var st := st0;
    for j := 0 to |calls|
      invariant var rest := ProcessCalls(AgentHandler(tools), st, calls[j..]);
        ProcessCalls(AgentHandler(tools), st0, calls) == rest.(examined := rest.examined + j)
    {
      assert calls[j..][0] == calls[j];
      assert calls[j..][1..] == calls[j + 1..];
      var step := HandleToolCall(tools, st, calls[j]);
      if step.status != Continue {
        return Batch(step.st, step.status, j + 1);
      }
      st := step.st;
    }
    b := Batch(st, Continue, |calls|);
  }

  // ---------------------------------------------------------------------------
  // The run
  // ---------------------------------------------------------------------------

  function InitialState(issueUrl: string, branchName: string): State
  {
    State([SystemMessage, UserMessage(UserPrompt(issueUrl, branchName))], 0, None, [], [Started])
  }

  /** The provider turns of `run_agent` from reply `i` of the script on;
      `turns` counts the replies consumed, `toolTurns` those with tool
      calls. Running out of replies ends the model's horizon. */
  function Run(handle: Handler, st: State, script: seq<Reply>, i: nat): (r: RunResult)
    requires i <= |script|
    ensures r.turns <= |script| - i && r.toolTurns <= r.turns
    decreases |script| - i
  {
    if i == |script| then RunResult(st, ScriptEnded, 0, 0)
    else
      var reply := script[i];
      var st1 := st.(messages := st.messages + [AssistantMessage(reply)]);
      if reply.toolCalls == [] then
        RunResult(st1.(events := st1.events + [FinalAnswer(reply.content), TaskCompleted]), Finished(reply.content), 1, 0)
      else
        var b := ProcessCalls(handle, st1, reply.toolCalls);
        if b.status == Commit then RunResult(b.st, Committed, 1, 1)
        else if b.status == Crash then RunResult(b.st, Failed, 1, 1)
        else if b.st.toolCalls >= MaxSteps then
          RunResult(b.st.(events := b.st.events + [StepCeilingReached, TaskCompleted]), StoppedAtCeiling, 1, 1)
        else
          var r := Run(handle, b.st, script, i + 1);
          r.(turns := r.turns + 1, toolTurns := r.toolTurns + 1)
  }

  /** `run_agent` itself, for a provider that gives the replies of `script`
      in order. */
  method RunAgent(tools: Tools, script: seq<Reply>, issueUrl: string, branchName: string) returns (r: RunResult)
    ensures r == Run(AgentHandler(tools), InitialState(issueUrl, branchName), script, 0)
  {
    var st := InitialState(issueUrl, branchName);
    var i := 0;
    while i < |script|
      invariant i <= |script|
      invariant var rest := Run(AgentHandler(tools), st, script, i);
        Run(AgentHandler(tools), InitialState(issueUrl, branchName), script, 0) ==
          rest.(turns := rest.turns + i, toolTurns := rest.toolTurns + i)
      decreases |script| - i
    {
      var msg := script[i];
      st := st.(messages := st.messages + [AssistantMessage(msg)]);
      if msg.toolCalls != [] {
        var b := ProcessToolCalls(tools, st, msg.toolCalls);
        st := b.st;
        if b.status == Commit {
          return RunResult(st, Committed, i + 1, i + 1);
        }
        if b.status == Crash {
          return RunResult(st, Failed, i + 1, i + 1);
        }
        if st.toolCalls >= MaxSteps {
          st := st.(events := st.events + [StepCeilingReached, TaskCompleted]);
          return RunResult(st, StoppedAtCeiling, i + 1, i + 1);
        }
      } else {
        st := st.(events := st.events + [FinalAnswer(msg.content), TaskCompleted]);
        return RunResult(st, Finished(msg.content), i + 1, i);
      }
      i := i + 1;
    }
    r := RunResult(st, ScriptEnded, i, i);
  }

  /** The message list only grows: each turn appends the reply, then the
      tool messages of its batch. */
  lemma {:induction false} RunMessagesGrow(handle: Handler, st: State, script: seq<Reply>, i: nat)
    requires i <= |script| && WellBehaved(handle)
    ensures var r := Run(handle, st, script, i);
      |st.messages| <= |r.state.messages| && r.state.messages[..|st.messages|] == st.messages &&
      (i < |script| ==> |st.messages| < |r.state.messages| && r.state.messages[|st.messages|] == AssistantMessage(script[i]))
    decreases |script| - i
  {
    if i < |script| {
      var reply := script[i];
      var st1 := st.(messages := st.messages + [AssistantMessage(reply)]);
      if reply.toolCalls != [] {
        var b := ProcessCalls(handle, st1, reply.toolCalls);
        BatchMessages(handle, st1, reply.toolCalls);
        assert b.st.messages[..|st1.messages|] == st1.messages;
        assert b.st.messages[..|st.messages|] == st.messages by {
          assert b.st.messages[..|st.messages|] == b.st.messages[..|st1.messages|][..|st.messages|];
        }
        assert b.st.messages[|st.messages|] == st1.messages[|st.messages|];
        if b.status == Continue && b.st.toolCalls < MaxSteps {
          RunMessagesGrow(handle, b.st, script, i + 1);
          var r := Run(handle, b.st, script, i + 1);
          assert r.state.messages[..|st.messages|] == r.state.messages[..|b.st.messages|][..|st.messages|];
          assert r.state.messages[|st.messages|] == r.state.messages[..|b.st.messages|][|st.messages|];
        }
      }
    }
  }

  /** No tool outside `allowed_tools` is ever executed during a run. */
  lemma {:induction false} RunExecutesAllowed(handle: Handler, st: State, script: seq<Reply>, i: nat)
    requires i <= |script| && WellBehaved(handle) && AllAllowed(st.executed)
    ensures AllAllowed(Run(handle, st, script, i).state.executed)
    decreases |script| - i
  {
    if i < |script| && script[i].toolCalls != [] {
      var st1 := st.(messages := st.messages + [AssistantMessage(script[i])]);
      BatchExecutesAllowed(handle, st1, script[i].toolCalls);
      var b := ProcessCalls(handle, st1, script[i].toolCalls);
      if b.status == Continue && b.st.toolCalls < MaxSteps {
        RunExecutesAllowed(handle, b.st, script, i + 1);
      }
    }
  }

  /** When every reply with tool calls names at least one allowed tool, the
      ceiling of five counted executions bounds the turns with tool calls. */
  lemma {:induction false} ToolTurnsBounded(handle: Handler, st: State, script: seq<Reply>, i: nat)
    requires i <= |script| && WellBehaved(handle) && st.toolCalls < MaxSteps
    requires forall j :: i <= j < |script| && script[j].toolCalls != [] ==> CountAllowed(script[j].toolCalls) >= 1
    ensures Run(handle, st, script, i).toolTurns <= MaxSteps - st.toolCalls
    decreases |script| - i
  {
    if i < |script| && script[i].toolCalls != [] {
      var st1 := st.(messages := st.messages + [AssistantMessage(script[i])]);
      BatchCounter(handle, st1, script[i].toolCalls);
      var b := ProcessCalls(handle, st1, script[i].toolCalls);
      if b.status == Continue && b.st.toolCalls < MaxSteps {
        ToolTurnsBounded(handle, b.st, script, i + 1);
      }
    }
  }

  /** How a run can end: with the content of the first reply without tool
      calls (every reply before it had some), as the last message; after a
      turn that committed, with the posted comment as the last event; at the
      ceiling, with the counter at five or more; or when the replies run
      out. Only the last turn can call `post_comment`. */
  lemma {:induction false} RunEnds(handle: Handler, st: State, script: seq<Reply>, i: nat)
    requires i <= |script| && WellBehaved(handle)
    ensures var r := Run(handle, st, script, i);
      (r.outcome.Finished? ==>
        r.turns >= 1 && i + r.turns - 1 < |script| &&
        script[i + r.turns - 1].toolCalls == [] && r.outcome.content == script[i + r.turns - 1].content &&
        r.toolTurns == r.turns - 1 && r.state.messages != [] &&
        r.state.messages[|r.state.messages| - 1] == AssistantMessage(script[i + r.turns - 1])) &&
      (r.outcome.StoppedAtCeiling? ==> r.state.toolCalls >= MaxSteps && r.toolTurns == r.turns) &&
      (r.outcome.Committed? ==> r.state.events != [] && r.state.events[|r.state.events| - 1] == CommentPosted) &&
      (r.outcome.ScriptEnded? ==> i + r.turns == |script| && r.toolTurns == r.turns) &&
      (forall j :: i <= j < i + r.turns - 1 ==> script[j].toolCalls != []) &&
      (r.turns >= 1 && !r.outcome.Finished? ==> script[i + r.turns - 1].toolCalls != []) &&
      (forall j, k :: i <= j < i + r.turns - 1 && 0 <= k < |script[j].toolCalls| ==>
        script[j].toolCalls[k].name != PostComment)
    decreases |script| - i
  {
    if i < |script| {
      var reply := script[i];
      var st1 := st.(messages := st.messages + [AssistantMessage(reply)]);
      if reply.toolCalls != [] {
        var b := ProcessCalls(handle, st1, reply.toolCalls);
        if b.status == Commit {
          BatchCommitEvent(handle, st1, reply.toolCalls);
        } else if b.status == Continue && b.st.toolCalls < MaxSteps {
          RunEnds(handle, b.st, script, i + 1);
          var rest := Run(handle, b.st, script, i + 1);
          assert Run(handle, st, script, i).turns == rest.turns + 1;
          forall j | i <= j < i + rest.turns ensures script[j].toolCalls != [] {
            if j > i {
              assert i + 1 <= j < i + 1 + rest.turns - 1;
            }
          }
          forall k | 0 <= k < |reply.toolCalls| ensures reply.toolCalls[k].name != PostComment {
            if reply.toolCalls[k].name == PostComment {
              BatchStopsAtPostComment(handle, st1, reply.toolCalls, k);
            }
          }
          forall j, k | i <= j < i + rest.turns && 0 <= k < |script[j].toolCalls|
            ensures script[j].toolCalls[k].name != PostComment
          {
            if j > i {
              assert i + 1 <= j < i + 1 + rest.turns - 1;
            }
          }
        }
      }
    }
  }

  // ---------------------------------------------------------------------------
  // The agent's run
  // ---------------------------------------------------------------------------

  /** Tools that always return, and whose dicts never make the description
      capture raise. */
  ghost predicate NeverRaise(tools: Tools)
  {
    forall n, name, args :: tools(n, name, args).Returned? &&
      (tools(n, name, args).result.IssueDict? ==>
        CaptureDescription(tools(n, name, args).result.title, tools(n, name, args).result.body).Ok?)
  }

  /** With such tools, an allowed call other than `post_comment` counts one
      execution and lets the batch go on. */
  lemma CallContinues(tools: Tools, st: State, call: ToolCall)
    requires NeverRaise(tools) && call.name in AllowedTools && call.name != PostComment
    ensures var r := ProcessCall(tools, st, call);
      r.status == Continue && r.st.toolCalls == st.toolCalls + 1
  {
  }

  /** The ceiling is reached exactly: with tools that never raise and
      replies that each make one allowed call other than `post_comment`,
      the run stops at the ceiling after `MaxSteps - st.toolCalls` turns,
      with the counter at five. */
  lemma {:induction false} ExactCeiling(tools: Tools, st: State, script: seq<Reply>, i: nat)
    requires NeverRaise(tools) && st.toolCalls < MaxSteps && i + (MaxSteps - st.toolCalls) <= |script|
    requires forall j :: i <= j < |script| ==>
      |script[j].toolCalls| == 1 && script[j].toolCalls[0].name in AllowedTools && script[j].toolCalls[0].name != PostComment
    ensures var r := Run(AgentHandler(tools), st, script, i);
      r.outcome == StoppedAtCeiling && r.turns == MaxSteps - st.toolCalls &&
      r.toolTurns == r.turns && r.state.toolCalls == MaxSteps
    decreases MaxSteps - st.toolCalls
  {
    var reply := script[i];
    var c := reply.toolCalls[0];
    var st1 := st.(messages := st.messages + [AssistantMessage(reply)]);
    CallContinues(tools, st1, c);
    var s := AgentHandler(tools)(st1, c);
    assert s == ProcessCall(tools, st1, c);
    assert s.status == Continue;
    assert reply.toolCalls[1..] == [];
    assert ProcessCalls(AgentHandler(tools), s.st, reply.toolCalls[1..]) == Batch(s.st, Continue, 0);
    var b := ProcessCalls(AgentHandler(tools), st1, reply.toolCalls);
    assert b == Batch(s.st, Continue, 1);
    if s.st.toolCalls < MaxSteps {
      ExactCeiling(tools, s.st, script, i + 1);
    }
  }

  /** From the initial messages, a run keeps the system and user messages in
      front, executes only allowed tools, and makes at most five turns with
      tool calls when each of them names an allowed tool. */
  lemma AgentRun(tools: Tools, script: seq<Reply>, issueUrl: string, branchName: string)
    ensures var r := Run(AgentHandler(tools), InitialState(issueUrl, branchName), script, 0);
      |r.state.messages| >= 2 &&
      r.state.messages[..2] == [SystemMessage, UserMessage(UserPrompt(issueUrl, branchName))] &&
      AllAllowed(r.state.executed) &&
      ((forall j :: 0 <= j < |script| && script[j].toolCalls != [] ==> CountAllowed(script[j].toolCalls) >= 1) ==>
        r.toolTurns <= MaxSteps)
  {
    var st := InitialState(issueUrl, branchName);
    AgentHandlerWellBehaved(tools);
    RunMessagesGrow(AgentHandler(tools), st, script, 0);
    RunExecutesAllowed(AgentHandler(tools), st, script, 0);
    if forall j :: 0 <= j < |script| && script[j].toolCalls != [] ==> CountAllowed(script[j].toolCalls) >= 1 {
      ToolTurnsBounded(AgentHandler(tools), st, script, 0);
    }
  }
}
