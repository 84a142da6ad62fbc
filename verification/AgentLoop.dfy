/**
 The agent loop over the chat adapter: run the tools the model asks for, send their
 results back, and stop when none are left, when some need the caller, or at the depth limit.

 The model, the tool servers, the auto-execution policy and the order in which parallel
 tool results arrive are arbitrary functions of the iteration.
 */
module AgentLoop {
  import opened Wrappers
  import opened Usage

  datatype ToolCall = ToolCall(id: Option<string>, name: Option<string>, arguments: string)

  datatype Message = Message(role: string, content: string, calls: Option<seq<ToolCall>>,
                             toolCallId: Option<string>, isError: bool)

  datatype Choice = Choice(finishReason: Option<string>, message: Option<Message>)

  datatype Response = Response(choices: seq<Choice>, usage: Option<LlmUsage>)

  datatype ModelResult = Reply(response: Response) | ModelFailed(error: string)

  datatype ToolResult = Returned(message: Option<Message>) | Failed(error: string) | NeedsAuth(error: string)

  datatype World = World(
    model: (nat, seq<Message>) -> ModelResult,
    autoExecutes: (nat, ToolCall) -> bool,
    runTool: (nat, nat, ToolCall) -> ToolResult,
    arrival: (nat, seq<Message>) -> seq<Message>)

  datatype Outcome =
    | Final(response: Response)
    | Untouched(response: Response)
    | WithPending(response: Response, results: seq<Message>, executed: seq<ToolCall>, pending: seq<ToolCall>)
    | AuthRequired(error: string)
    | ModelError(error: string)

  /** What one iteration adds to the conversation. */
  datatype Round = Round(assistant: seq<Message>, results: seq<Message>)

  /** Results arrive in some order: none is lost, doubled or made up. */
  ghost predicate WorldOk(w: World) {
    forall n, ms :: multiset(w.arrival(n, ms)) == multiset(ms)
  }

  // ---- reading a response ----

  function Calls(choices: seq<Choice>): seq<ToolCall> {
    if choices == [] then []
    else
      var last := choices[|choices| - 1];
      Calls(choices[..|choices| - 1]) + if last.message.Some? && last.message.value.calls.Some? then last.message.value.calls.value else []
  }

  function AssistantMessages(choices: seq<Choice>): seq<Message> {
    if choices == [] then []
    else
      var last := choices[|choices| - 1];
      AssistantMessages(choices[..|choices| - 1]) + if last.message.Some? then [last.message.value] else []
  }

  /** Early-exit scan for a choice that signals or carries tool calls. */
  method HasToolCalls(choices: seq<Choice>) returns (has: bool)
    ensures !has ==> Calls(choices) == []
  {
    for i := 0 to |choices|
      invariant Calls(choices[..i]) == []
    {
      assert choices[..i + 1][..i] == choices[..i];
      var c := choices[i];
      if c.finishReason == Some("tool_calls") || (c.message.Some? && c.message.value.calls.Some? && |c.message.value.calls.value| > 0) {
        return true;
      }
    }
    assert choices[..|choices|] == choices;
    has := false;
  }

  /** The tool calls of all choices in order, whatever the finish reasons say. */
  method ExtractToolCalls(r: Response) returns (calls: seq<ToolCall>)
    ensures calls == Calls(r.choices)
  {
    var has := HasToolCalls(r.choices);
    if !has {
      return [];
    }
    calls := [];
    for i := 0 to |r.choices|
      invariant calls == Calls(r.choices[..i])
    {
      assert r.choices[..i + 1][..i] == r.choices[..i];
      var m := r.choices[i].message;
      if m.Some? && m.value.calls.Some? {
        calls := calls + m.value.calls.value;
      }
    }
    assert r.choices[..|r.choices|] == r.choices;
  }

  method AddAssistantMessage(history: seq<Message>, r: Response) returns (longer: seq<Message>)
    ensures longer == history + AssistantMessages(r.choices)
  {
    longer := history;
    for i := 0 to |r.choices|
      invariant longer == history + AssistantMessages(r.choices[..i])
    {
      assert r.choices[..i + 1][..i] == r.choices[..i];
      if r.choices[i].message.Some? {
        longer := longer + [r.choices[i].message.value];
      }
    }
    assert r.choices[..|r.choices|] == r.choices;
  }

  // ---- one round of tools ----

  predicate Auto(w: World, n: nat, c: ToolCall) {
    c.name.Some? && w.autoExecutes(n, c)
  }

  /** The calls of one kind, in order. */
  function Kind(w: World, n: nat, calls: seq<ToolCall>, auto: bool): seq<ToolCall> {
    if calls == [] then []
    else
      var last := calls[|calls| - 1];
      Kind(w, n, calls[..|calls| - 1], auto) + if Auto(w, n, last) == auto then [last] else []
  }

  lemma KindGrows(w: World, n: nat, calls: seq<ToolCall>, last: ToolCall, auto: bool)
    ensures Kind(w, n, calls + [last], auto) == Kind(w, n, calls, auto) + if Auto(w, n, last) == auto then [last] else []
  {
    assert (calls + [last])[..|calls|] == calls;
  }

  /** Every call is of exactly one kind. */
  lemma {:induction false} KindsPartition(w: World, n: nat, calls: seq<ToolCall>)
    ensures multiset(Kind(w, n, calls, true)) + multiset(Kind(w, n, calls, false)) == multiset(calls)
  {
    if calls != [] {
      var rest, last := calls[..|calls| - 1], calls[|calls| - 1];
      KindsPartition(w, n, rest);
      assert calls == rest + [last];
      KindGrows(w, n, rest, last, true);
      KindGrows(w, n, rest, last, false);
      PartitionGrows(Kind(w, n, rest, true), Kind(w, n, rest, false), rest, last);
    }
  }

  lemma PartitionGrows(yes: seq<ToolCall>, no: seq<ToolCall>, calls: seq<ToolCall>, last: ToolCall)
    requires multiset(yes) + multiset(no) == multiset(calls)
    ensures multiset(yes + [last]) + multiset(no) == multiset(calls + [last])
    ensures multiset(yes) + multiset(no + [last]) == multiset(calls + [last])
    ensures yes + [] == yes && no + [] == no
  {
  }

  /** With no call of the other kind, every call is auto-executed. */
  lemma {:induction false} AllAuto(w: World, n: nat, calls: seq<ToolCall>)
    requires Kind(w, n, calls, false) == []
    ensures Kind(w, n, calls, true) == calls
  {
    if calls != [] {
      var rest, last := calls[..|calls| - 1], calls[|calls| - 1];
      AllAuto(w, n, rest);
    }
  }

  method Separate(w: World, n: nat, calls: seq<ToolCall>) returns (auto: seq<ToolCall>, other: seq<ToolCall>)
    ensures auto == Kind(w, n, calls, true) && other == Kind(w, n, calls, false)
  {
    auto, other := [], [];
    for i := 0 to |calls|
      invariant auto == Kind(w, n, calls[..i], true) && other == Kind(w, n, calls[..i], false)
    {
      assert calls[..i + 1][..i] == calls[..i];
      if calls[i].name.Some? && w.autoExecutes(n, calls[i]) {
        auto := auto + [calls[i]];
      } else {
        other := other + [calls[i]];
      }
    }
    assert calls[..|calls|] == calls;
  }

  function NameOf(c: ToolCall): string {
    if c.name.Some? then c.name.value else "unknown"
  }

  function ToolResultMessage(c: ToolCall, result: string, error: Option<string>): Message {
    if error.Some?
    then Message("tool", "Error executing tool " + NameOf(c) + ": " + error.value, None, c.id, true)
    else Message("tool", result, None, c.id, false)
  }

  function ResultOf(w: World, n: nat, i: nat, c: ToolCall): Message {
    match w.runTool(n, i, c)
    case Returned(message) => if message.Some? then message.value else ToolResultMessage(c, "", None)
    case Failed(error) => ToolResultMessage(c, "", Some(error))
    case NeedsAuth(error) => ToolResultMessage(c, "", Some(error))
  }

  /** One result per call, in call order. */
  function ResultsOf(w: World, n: nat, calls: seq<ToolCall>): (r: seq<Message>)
    ensures |r| == |calls| && forall i :: 0 <= i < |calls| ==> r[i] == ResultOf(w, n, i, calls[i])
  {
    seq(|calls|, i requires 0 <= i < |calls| => ResultOf(w, n, i, calls[i]))
  }

  predicate AsksForAuth(w: World, n: nat, i: nat, c: ToolCall) {
    w.runTool(n, i, c).NeedsAuth?
  }

  /** Runs the calls side by side and collects the results as they arrive. */
  method RunTools(w: World, n: nat, calls: seq<ToolCall>) returns (results: seq<Message>, auth: Option<string>)
    requires WorldOk(w)
    ensures multiset(results) == multiset(ResultsOf(w, n, calls))
    ensures auth.None? <==> forall i :: 0 <= i < |calls| ==> !AsksForAuth(w, n, i, calls[i])
    ensures auth.Some? ==> exists i :: 0 <= i < |calls| && w.runTool(n, i, calls[i]) == NeedsAuth(auth.value)
  {
    auth := None;
    var sent: seq<Message> := [];
    for i := 0 to |calls|
      invariant sent == ResultsOf(w, n, calls)[..i]
      invariant auth.None? <==> forall j :: 0 <= j < i ==> !AsksForAuth(w, n, j, calls[j])
      invariant auth.Some? ==> exists j :: 0 <= j < i && w.runTool(n, j, calls[j]) == NeedsAuth(auth.value)
    {
      var r := w.runTool(n, i, calls[i]);
      if r.NeedsAuth? && auth.None? {
        auth := Some(r.error);
      }
      assert AsksForAuth(w, n, i, calls[i]) <==> r.NeedsAuth?;
      sent := sent + [ResultOf(w, n, i, calls[i])];
    }
    assert sent == ResultsOf(w, n, calls);
    results := w.arrival(n, sent);
  }

  // ---- the loop ----

  /** The conversation after some rounds. */
  function History(start: seq<Message>, rounds: seq<Round>): seq<Message> {
    if rounds == [] then start
    else
      var last := rounds[|rounds| - 1];
      History(start, rounds[..|rounds| - 1]) + last.assistant + last.results
  }

  function Usages(rs: seq<Response>): (us: seq<Option<LlmUsage>>)
    ensures |us| == |rs| && forall i :: 0 <= i < |rs| ==> us[i] == rs[i].usage
  {
    seq(|rs|, i requires 0 <= i < |rs| => rs[i].usage)
  }

  /** Round k follows response k: its assistant messages and one result per auto-executed call, in some order. */
  ghost predicate RoundOk(w: World, k: nat, response: Response, round: Round) {
    && round.assistant == AssistantMessages(response.choices)
    && multiset(round.results) == multiset(ResultsOf(w, k, Kind(w, k, Calls(response.choices), true)))
  }

  /** The model answered request k with the next response, after a round in which every call ran. */
  ghost predicate RequestOk(w: World, start: seq<Message>, k: nat, request: seq<Message>, rounds: seq<Round>, asked: Response, reply: Response) {
    && request == History(start, rounds)
    && Calls(asked.choices) != [] && Kind(w, k, Calls(asked.choices), false) == []
    && w.model(k, request) == Reply(reply)
  }

  ghost predicate Conversation(w: World, start: seq<Message>, responses: seq<Response>, rounds: seq<Round>, requests: seq<seq<Message>>) {
    && |responses| == |requests| + 1 && |requests| <= |rounds|
    && |rounds| <= |responses|
    && (forall k :: 0 <= k < |rounds| ==> RoundOk(w, k, responses[k], rounds[k]))
    && (forall k :: 0 <= k < |requests| ==> RequestOk(w, start, k, requests[k], rounds[..k + 1], responses[k], responses[k + 1]))
  }

  function AllResults(rounds: seq<Round>): seq<Message> {
    if rounds == [] then [] else AllResults(rounds[..|rounds| - 1]) + rounds[|rounds| - 1].results
  }

  function AllExecuted(w: World, responses: seq<Response>, n: nat): seq<ToolCall>
    requires n <= |responses|
  {
    if n == 0 then [] else AllExecuted(w, responses, n - 1) + Kind(w, n - 1, Calls(responses[n - 1].choices), true)
  }

  /** How the loop ends, in terms of the conversation it had. */
  ghost predicate EndsAs(w: World, maxDepth: int, start: seq<Message>, responses: seq<Response>, rounds: seq<Round>,
                         requests: seq<seq<Message>>, out: Outcome)
    requires |responses| == |requests| + 1
  {
    var n := |requests|;
    var last := responses[n];
    var auto, other := Kind(w, n, Calls(last.choices), true), Kind(w, n, Calls(last.choices), false);
    match out
    case Final(response) =>
      && response == last.(usage := Total(Usages(responses)))
      && |rounds| == n && (n >= maxDepth || Calls(last.choices) == [])
    case Untouched(response) =>
      response == last && n == 0 < maxDepth && auto == [] && other != []
    case WithPending(response, results, executed, pending) =>
      && response == last.(usage := Total(Usages(responses)))
      && n < maxDepth && pending == other != [] && (n > 0 || auto != [])
      && |rounds| == (if auto == [] then n else n + 1)
      && results == AllResults(rounds) && executed == AllExecuted(w, responses, n + 1)
    case AuthRequired(error) =>
      && n < maxDepth && |rounds| == n
      && exists i :: 0 <= i < |auto| && w.runTool(n, i, auto[i]) == NeedsAuth(error)
    case ModelError(error) =>
      && n < maxDepth && |rounds| == n + 1 && auto != [] && other == []
      && w.model(n, History(start, rounds)) == ModelFailed(error)
  }

  lemma RoundJoins(w: World, start: seq<Message>, responses: seq<Response>, rounds: seq<Round>, requests: seq<seq<Message>>, round: Round)
    requires Conversation(w, start, responses, rounds, requests) && |rounds| == |requests|
    requires RoundOk(w, |rounds|, responses[|rounds|], round)
    ensures Conversation(w, start, responses, rounds + [round], requests)
  {
    var more := rounds + [round];
    forall k | 0 <= k < |requests| ensures RequestOk(w, start, k, requests[k], more[..k + 1], responses[k], responses[k + 1]) {
      assert more[..k + 1] == rounds[..k + 1];
    }
  }

  lemma ReplyJoins(w: World, start: seq<Message>, responses: seq<Response>, rounds: seq<Round>, requests: seq<seq<Message>>,
                   request: seq<Message>, reply: Response)
    requires Conversation(w, start, responses, rounds, requests) && |rounds| == |requests| + 1
    requires RequestOk(w, start, |requests|, request, rounds, responses[|requests|], reply)
    ensures Conversation(w, start, responses + [reply], rounds, requests + [request])
  {
    assert rounds[..|requests| + 1] == rounds;
    var rs, qs := responses + [reply], requests + [request];
    forall k | 0 <= k < |qs| ensures RequestOk(w, start, k, qs[k], rounds[..k + 1], rs[k], rs[k + 1]) {
    }
  }

  lemma HistoryGrows(start: seq<Message>, rounds: seq<Round>, round: Round)
    ensures History(start, rounds + [round]) == History(start, rounds) + round.assistant + round.results
    ensures AllResults(rounds + [round]) == AllResults(rounds) + round.results
  {
    assert (rounds + [round])[..|rounds|] == rounds;
  }

  lemma UsagesGrow(rs: seq<Response>, r: Response)
    ensures Total(Usages(rs + [r])) == MergeUsage(Total(Usages(rs)), r.usage)
  {
    assert Usages(rs + [r])[..|rs|] == Usages(rs);
  }

  lemma {:induction false} ExecutedPrefix(w: World, rs: seq<Response>, more: seq<Response>, n: nat)
    requires n <= |rs|
    ensures AllExecuted(w, rs + more, n) == AllExecuted(w, rs, n)
  {
    if n > 0 {
      ExecutedPrefix(w, rs, more, n - 1);
    }
  }

  /** The running totals agree with the conversation so far. */
  ghost predicate Tracks(w: World, start: seq<Message>, responses: seq<Response>, rounds: seq<Round>,
                         history: seq<Message>, allResults: seq<Message>, allExecuted: seq<ToolCall>)
    requires |rounds| <= |responses|
  {
    history == History(start, rounds) && allResults == AllResults(rounds) && allExecuted == AllExecuted(w, responses, |rounds|)
  }

  /** Runs the auto-executable calls of one response and adds the round to the conversation. */
  method RunRound(w: World, ghost start: seq<Message>, ghost responses: seq<Response>, rounds: seq<Round>, ghost requests: seq<seq<Message>>,
                  n: nat, current: Response, auto: seq<ToolCall>, history: seq<Message>, allResults: seq<Message>, allExecuted: seq<ToolCall>)
    returns (auth: Option<string>, rounds': seq<Round>, history': seq<Message>, allResults': seq<Message>, allExecuted': seq<ToolCall>)
    requires WorldOk(w) && Conversation(w, start, responses, rounds, requests) && n == |requests| == |rounds|
    requires current == responses[n] && auto == Kind(w, n, Calls(current.choices), true)
    requires Tracks(w, start, responses, rounds, history, allResults, allExecuted)
    ensures auth.Some? ==> rounds' == rounds && exists i :: 0 <= i < |auto| && w.runTool(n, i, auto[i]) == NeedsAuth(auth.value)
    ensures auth.None? ==>
              && |rounds'| == n + 1 && |allResults'| == |allResults| + |auto| && Conversation(w, start, responses, rounds', requests)
              && Tracks(w, start, responses, rounds', history', allResults', allExecuted')
  {
    var results;
    results, auth := RunTools(w, n, auto);
    rounds', history', allResults', allExecuted' := rounds, history, allResults, allExecuted;
    if auth.Some? {
      return;
    }
    assert |multiset(results)| == |auto|;
    var round := Round(AssistantMessages(current.choices), results);
    HistoryGrows(start, rounds, round);
    RoundJoins(w, start, responses, rounds, requests, round);
    rounds' := rounds + [round];
    history' := AddAssistantMessage(history, current);
    history' := history' + results;
    allResults', allExecuted' := allResults + results, allExecuted + auto;
  }

  /** Asks the model to go on from the conversation so far. */
  method AskModel(w: World, ghost start: seq<Message>, responses: seq<Response>, ghost rounds: seq<Round>, requests: seq<seq<Message>>,
                  n: nat, history: seq<Message>, usage: Option<LlmUsage>, ghost allResults: seq<Message>, ghost allExecuted: seq<ToolCall>)
    returns (error: Option<string>, responses': seq<Response>, requests': seq<seq<Message>>, usage': Option<LlmUsage>)
    requires Conversation(w, start, responses, rounds, requests) && n == |requests| && |rounds| == n + 1
    requires Calls(responses[n].choices) != [] && Kind(w, n, Calls(responses[n].choices), false) == []
    requires Tracks(w, start, responses, rounds, history, allResults, allExecuted) && usage == Total(Usages(responses))
    ensures error.Some? ==> responses' == responses && requests' == requests && w.model(n, history) == ModelFailed(error.value)
    ensures error.None? ==>
              && |requests'| == n + 1 && |responses'| == n + 2 && responses'[0] == responses[0]
              && Conversation(w, start, responses', rounds, requests')
              && Tracks(w, start, responses', rounds, history, allResults, allExecuted) && usage' == Total(Usages(responses'))
  {
    responses', requests', usage', error := responses, requests, usage, None;
    match w.model(n, history)
    case ModelFailed(e) =>
      error := Some(e);
    case Reply(reply) =>
      ReplyJoins(w, start, responses, rounds, requests, history, reply);
      UsagesGrow(responses, reply);
      ExecutedPrefix(w, responses, [reply], |rounds|);
      requests', responses' := requests + [history], responses + [reply];
      usage' := MergeUsage(usage, reply.usage);
  }

  /** What holds before every iteration. */
  ghost predicate InLoop(w: World, start: seq<Message>, responses: seq<Response>, rounds: seq<Round>, requests: seq<seq<Message>>,
                         history: seq<Message>, allResults: seq<Message>, allExecuted: seq<ToolCall>, usage: Option<LlmUsage>)
  {
    && Conversation(w, start, responses, rounds, requests) && |rounds| == |requests|
    && Tracks(w, start, responses, rounds, history, allResults, allExecuted) && usage == Total(Usages(responses))
  }

  lemma PendingEnd(w: World, maxDepth: int, start: seq<Message>, responses: seq<Response>, rounds: seq<Round>, requests: seq<seq<Message>>,
                   history: seq<Message>, allResults: seq<Message>, allExecuted: seq<ToolCall>, auto: seq<ToolCall>, other: seq<ToolCall>)
    requires Conversation(w, start, responses, rounds, requests) && |requests| < maxDepth
    requires Tracks(w, start, responses, rounds, history, allResults, allExecuted)
    requires |rounds| == if auto == [] then |requests| else |requests| + 1
    requires auto == Kind(w, |requests|, Calls(responses[|requests|].choices), true)
    requires other == Kind(w, |requests|, Calls(responses[|requests|].choices), false) != []
    requires |requests| > 0 || auto != []
    ensures EndsAs(w, maxDepth, start, responses, rounds, requests,
                   WithPending(responses[|requests|].(usage := Total(Usages(responses))), allResults, allExecuted, other))
  {
    if auto == [] {
      assert allExecuted + auto == allExecuted;
    }
  }

  /** One iteration on a response that has tool calls: either the loop ends here, or the model has replied. */
  method Iterate(w: World, maxDepth: int, ghost start: seq<Message>, responses: seq<Response>, rounds: seq<Round>, requests: seq<seq<Message>>,
                 n: nat, calls: seq<ToolCall>, history: seq<Message>, allResults: seq<Message>, allExecuted: seq<ToolCall>, usage: Option<LlmUsage>)
    returns (stop: Option<Outcome>, responses': seq<Response>, rounds': seq<Round>, requests': seq<seq<Message>>,
             history': seq<Message>, allResults': seq<Message>, allExecuted': seq<ToolCall>, usage': Option<LlmUsage>)
    requires WorldOk(w) && InLoop(w, start, responses, rounds, requests, history, allResults, allExecuted, usage)
    requires n == |requests| < maxDepth && calls == Calls(responses[n].choices) != []
    ensures Conversation(w, start, responses', rounds', requests') && responses'[0] == responses[0]
    ensures stop.Some? ==> |requests'| == n && EndsAs(w, maxDepth, start, responses', rounds', requests', stop.value)
    ensures stop.None? ==>
              |requests'| == n + 1 && InLoop(w, start, responses', rounds', requests', history', allResults', allExecuted', usage')
  {
    responses', rounds', requests', stop := responses, rounds, requests, None;
    history', allResults', allExecuted', usage' := history, allResults, allExecuted, usage;
    var current := responses[n];
    var auto, other := Separate(w, n, calls);
    if |auto| > 0 {
      var auth;
      auth, rounds', history', allResults', allExecuted' :=
        RunRound(w, start, responses, rounds, requests, n, current, auto, history, allResults, allExecuted);
      if auth.Some? {
        stop := Some(AuthRequired(auth.value));
        return;
      }
    }
    if |other| > 0 {
      if n == 0 && |allResults'| == 0 {
        stop := Some(Untouched(current));
        return;
      }
      PendingEnd(w, maxDepth, start, responses, rounds', requests, history', allResults', allExecuted', auto, other);
      stop := Some(WithPending(current.(usage := usage), allResults', allExecuted', other));
      return;
    }
    AllAuto(w, n, calls);
    var error;
    error, responses', requests', usage' := AskModel(w, start, responses, rounds', requests, n, history', usage, allResults', allExecuted');
    if error.Some? {
      stop := Some(ModelError(error.value));
    }
  }

  /** The agent loop, with the conversation it had: responses, rounds of tools, and requests to the model. */
  method ExecuteAgent(w: World, maxDepth: int, start: seq<Message>, initial: Response)
    returns (out: Outcome, responses: seq<Response>, rounds: seq<Round>, requests: seq<seq<Message>>)
    requires WorldOk(w)
    ensures |requests| <= if maxDepth < 0 then 0 else maxDepth
    ensures Conversation(w, start, responses, rounds, requests) && responses[0] == initial
    ensures EndsAs(w, maxDepth, start, responses, rounds, requests, out)
  {
    responses, rounds, requests := [initial], [], [];
    var history, depth := start, 0;
    var allResults: seq<Message>, allExecuted: seq<ToolCall> := [], [];
    var usage := initial.usage;
    assert Usages(responses)[..0] == [];
    while depth < maxDepth
      invariant 0 <= depth == |requests| && (depth <= maxDepth || depth == 0)
      invariant InLoop(w, start, responses, rounds, requests, history, allResults, allExecuted, usage) && responses[0] == initial
      decreases maxDepth - depth
    {
      var calls := ExtractToolCalls(responses[depth]);
      if |calls| == 0 {
        break;
      }
      var stop;
      stop, responses, rounds, requests, history, allResults, allExecuted, usage :=
        Iterate(w, maxDepth, start, responses, rounds, requests, depth, calls, history, allResults, allExecuted, usage);
      if stop.Some? {
        return stop.value, responses, rounds, requests;
      }
      depth := depth + 1;
    }
    out := Final(responses[|requests|].(usage := usage));
  }

  /** Every request to the model carries, for each earlier response, exactly one result per tool call of that response. */
  lemma RequestsCarryEveryResult(w: World, start: seq<Message>, responses: seq<Response>, rounds: seq<Round>, requests: seq<seq<Message>>,
                                 m: nat, k: nat)
    requires Conversation(w, start, responses, rounds, requests) && k <= m < |requests|
    ensures requests[m] == History(start, rounds[..m + 1])
    ensures rounds[k].assistant == AssistantMessages(responses[k].choices)
    ensures multiset(rounds[k].results) == multiset(ResultsOf(w, k, Calls(responses[k].choices)))
    ensures |rounds[k].results| == |Calls(responses[k].choices)| > 0
  {
    assert RequestOk(w, start, m, requests[m], rounds[..m + 1], responses[m], responses[m + 1]);
    assert RequestOk(w, start, k, requests[k], rounds[..k + 1], responses[k], responses[k + 1]);
    assert RoundOk(w, k, responses[k], rounds[k]);
    AllAuto(w, k, Calls(responses[k].choices));
    assert |multiset(rounds[k].results)| == |Calls(responses[k].choices)|;
  }

  // ---- what the results say ----

  /** The tool gave a message of its own. */
  predicate Answered(w: World, n: nat, i: nat, c: ToolCall) {
    w.runTool(n, i, c).Returned? && w.runTool(n, i, c).message.Some?
  }

  /** Each result is the tool's own message, or one made for the call, with its ID. */
  lemma ResultContents(w: World, n: nat, calls: seq<ToolCall>, i: nat)
    requires i < |calls|
    ensures var c, m, r := calls[i], ResultsOf(w, n, calls)[i], w.runTool(n, i, calls[i]);
            && (r.Returned? && r.message.Some? ==> m == r.message.value)
            && (r.Returned? && r.message.None? ==>
                  m.role == "tool" && m.content == "" && !m.isError && m.toolCallId == c.id && m.calls.None?)
            && (r.Failed? || r.NeedsAuth? ==>
                  && m.role == "tool" && m.isError && m.toolCallId == c.id && m.calls.None?
                  && m.content == "Error executing tool " + (if c.name.Some? then c.name.value else "unknown") + ": " + r.error)
  {
  }

  /** The results of the first `j` calls whose tool gave a message, or of those whose tool did not. */
  function ResultsWhere(w: World, n: nat, calls: seq<ToolCall>, j: nat, answered: bool): seq<Message>
    requires j <= |calls|
  {
    if j == 0 then []
    else
      ResultsWhere(w, n, calls, j - 1, answered) +
      if Answered(w, n, j - 1, calls[j - 1]) == answered then [ResultsOf(w, n, calls)[j - 1]] else []
  }

  /** The IDs of the first `j` calls whose tool gave no message. */
  function UnansweredIds(w: World, n: nat, calls: seq<ToolCall>, j: nat): seq<Option<string>>
    requires j <= |calls|
  {
    if j == 0 then []
    else UnansweredIds(w, n, calls, j - 1) + if Answered(w, n, j - 1, calls[j - 1]) then [] else [calls[j - 1].id]
  }

  function IdsOf(ms: seq<Message>): (r: seq<Option<string>>)
    ensures |r| == |ms| && forall i :: 0 <= i < |ms| ==> r[i] == ms[i].toolCallId
  {
    seq(|ms|, i requires 0 <= i < |ms| => ms[i].toolCallId)
  }

  lemma {:induction false} GeneratedIds(w: World, n: nat, calls: seq<ToolCall>, j: nat)
    requires j <= |calls|
    ensures IdsOf(ResultsWhere(w, n, calls, j, false)) == UnansweredIds(w, n, calls, j)
  {
    if j > 0 {
      GeneratedIds(w, n, calls, j - 1);
      ResultContents(w, n, calls, j - 1);
    }
  }

  lemma WhereGrows(w: World, n: nat, calls: seq<ToolCall>, j: nat, answered: bool)
    requires 0 < j <= |calls|
    ensures var before, m := ResultsWhere(w, n, calls, j - 1, answered), ResultsOf(w, n, calls)[j - 1];
            ResultsWhere(w, n, calls, j, answered) == if Answered(w, n, j - 1, calls[j - 1]) == answered then before + [m] else before
  {
  }

  lemma JoinedTo(a: seq<Message>, b: seq<Message>, all: seq<Message>, m: Message, a': seq<Message>, b': seq<Message>, first: bool)
    requires multiset(all) == multiset(a) + multiset(b)
    requires a' == (if first then a + [m] else a) && b' == (if first then b else b + [m])
    ensures multiset(all + [m]) == multiset(a') + multiset(b')
  {
  }

  lemma {:induction false} ResultsSplit(w: World, n: nat, calls: seq<ToolCall>, j: nat)
    requires j <= |calls|
    ensures multiset(ResultsOf(w, n, calls)[..j]) ==
            multiset(ResultsWhere(w, n, calls, j, true)) + multiset(ResultsWhere(w, n, calls, j, false))
  {
    if j > 0 {
      ResultsSplit(w, n, calls, j - 1);
      SplitStep(w, n, calls, j, ResultsOf(w, n, calls));
    }
  }

  lemma SplitStep(w: World, n: nat, calls: seq<ToolCall>, j: nat, rs: seq<Message>)
    requires 0 < j <= |calls| && rs == ResultsOf(w, n, calls)
    requires multiset(rs[..j - 1]) == multiset(ResultsWhere(w, n, calls, j - 1, true)) + multiset(ResultsWhere(w, n, calls, j - 1, false))
    ensures multiset(rs[..j]) == multiset(ResultsWhere(w, n, calls, j, true)) + multiset(ResultsWhere(w, n, calls, j, false))
  {
    WhereGrows(w, n, calls, j, true);
    WhereGrows(w, n, calls, j, false);
    JoinedTo(ResultsWhere(w, n, calls, j - 1, true), ResultsWhere(w, n, calls, j - 1, false), rs[..j - 1], rs[j - 1],
             ResultsWhere(w, n, calls, j, true), ResultsWhere(w, n, calls, j, false), Answered(w, n, j - 1, calls[j - 1]));
    assert rs[..j] == rs[..j - 1] + [rs[j - 1]];
  }

  /**
   In every round that was sent to the model the results are the tools' own messages and, for
   the calls whose tool gave none, made ones whose call IDs are exactly those calls' IDs.
   */
  lemma RoundsAnswerTheirCalls(w: World, start: seq<Message>, responses: seq<Response>, rounds: seq<Round>, requests: seq<seq<Message>>, k: nat)
    requires Conversation(w, start, responses, rounds, requests) && k < |requests|
    ensures var calls := Calls(responses[k].choices);
            var own, made := ResultsWhere(w, k, calls, |calls|, true), ResultsWhere(w, k, calls, |calls|, false);
            && multiset(rounds[k].results) == multiset(own) + multiset(made)
            && IdsOf(made) == UnansweredIds(w, k, calls, |calls|)
  {
    var calls := Calls(responses[k].choices);
    RequestsCarryEveryResult(w, start, responses, rounds, requests, k, k);
    ResultsSplit(w, k, calls, |calls|);
    assert ResultsOf(w, k, calls)[..|calls|] == ResultsOf(w, k, calls);
    GeneratedIds(w, k, calls, |calls|);
  }
}
