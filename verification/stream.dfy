/** The streaming chat program's turn: fold the streamed chunks into the
    reply text and the requested function name, then either record the
    assistant's answer or run the requested search tool and record its output
    as a function message. */
module Stream {
  import opened Basics
  import opened Chat
  import opened Search

  /** The `function_call` part of a delta: an optional `name` and the
      `arguments` fragment. */
  datatype FunctionCallDelta = FunctionCallDelta(name: Option<string>, arguments: string)

  /** The first choice of one streamed chunk. `finishReason` is "" when the
      field is absent or None (both are falsy); `content` is None when the key
      is absent or its value is None. */
  datatype Chunk = Chunk(finishReason: string, functionCall: Option<FunctionCallDelta>, content: Option<string>)

  /** What the fold produces: `response_text` and `function_name`. */
  datatype StreamReply = StreamReply(text: string, functionName: string)

  /** The search tools offered to the model, with `count` for `token_count`. */
  datatype Tools = Tools(count: string -> nat, web: string -> seq<Hit>,
                         wikiTitles: string -> seq<string>, wikiPage: string -> PageLookup)

  /** The token budget both tools are called with. */
  const ToolBudget: int := 1000

  datatype ToolError = InvalidFunctionName(name: string)

  /** The index of the first chunk carrying a finish reason, or the number of chunks. */
  function FinishIndex(chunks: seq<Chunk>): (k: nat)
    ensures k <= |chunks|
    ensures forall i :: 0 <= i < k ==> chunks[i].finishReason == ""
    ensures k < |chunks| ==> chunks[k].finishReason != ""
  {
    if |chunks| == 0 || chunks[0].finishReason != "" then 0 else 1 + FinishIndex(chunks[1..])
  }

  /** The argument fragment one chunk adds to the reply text. */
  function ArgumentPiece(c: Chunk): string
  {
    if c.functionCall.Some? then c.functionCall.value.arguments else ""
  }

  /** The content one chunk adds to the reply text: none when it is empty. */
  function ContentPiece(c: Chunk): string
  {
    if c.content.Some? && c.content.value != "" then c.content.value else ""
  }

  /** The fragments of the reply text in chunk order: each chunk's arguments, then its content. */
  function Pieces(chunks: seq<Chunk>): (r: seq<string>)
    ensures |r| == 2 * |chunks|
    ensures forall i :: 0 <= i < |chunks| ==> r[2 * i] == ArgumentPiece(chunks[i]) && r[2 * i + 1] == ContentPiece(chunks[i])
  {
    if |chunks| == 0 then []
    else
      var c := chunks[|chunks| - 1];
      Pieces(chunks[..|chunks| - 1]) + [ArgumentPiece(c), ContentPiece(c)]
  }

  /** The name carried by the last function-call delta that has one, or "". */
  function LastName(chunks: seq<Chunk>): string
  {
    if |chunks| == 0 then ""
    else
      var c := chunks[|chunks| - 1];
      if c.functionCall.Some? && c.functionCall.value.name.Some? then c.functionCall.value.name.value
      else LastName(chunks[..|chunks| - 1])
  }

  lemma StepFacts(chunks: seq<Chunk>, i: nat)
    requires i < |chunks|
    ensures Concat(Pieces(chunks[..i + 1])) == Concat(Pieces(chunks[..i])) + ArgumentPiece(chunks[i]) + ContentPiece(chunks[i])
    ensures LastName(chunks[..i + 1])
            == if chunks[i].functionCall.Some? && chunks[i].functionCall.value.name.Some?
               then chunks[i].functionCall.value.name.value else LastName(chunks[..i])
  {
    var p := chunks[..i + 1];
    assert p[..i] == chunks[..i];
    var q := Pieces(chunks[..i]) + [ArgumentPiece(chunks[i])];
    assert Pieces(p) == q + [ContentPiece(chunks[i])];
    assert (q + [ContentPiece(chunks[i])])[..|q|] == q;
    assert q[..|q| - 1] == Pieces(chunks[..i]);
  }

  /** The body of the loop for a chunk without a finish reason: a function
      call delta may rename the call and appends its arguments; non-empty
      content is appended after them. */
  method ApplyDelta(text: string, name: string, c: Chunk) returns (text': string, name': string)
    ensures text' == text + ArgumentPiece(c) + ContentPiece(c)
    ensures c.functionCall.Some? && c.functionCall.value.name.Some? ==> name' == c.functionCall.value.name.value
    ensures !(c.functionCall.Some? && c.functionCall.value.name.Some?) ==> name' == name
  {
    text', name' := text, name;
    if c.functionCall.Some? {
      if c.functionCall.value.name.Some? {
        name' := c.functionCall.value.name.value;
      }
      text' := text' + c.functionCall.value.arguments;
    }
    if c.content.Some? && c.content.value != "" {
      text' := text' + c.content.value;
    }
  }

  /** The `for chunk in completion` loop. */
  method CollectStream(chunks: seq<Chunk>) returns (reply: StreamReply)
    ensures reply.text == Concat(Pieces(chunks[..FinishIndex(chunks)]))
    ensures reply.functionName == LastName(chunks[..FinishIndex(chunks)])
  {
    var responseText := "";
    var functionName := "";
    var i := 0;
    while i < |chunks|
      invariant i <= FinishIndex(chunks)
      invariant responseText == Concat(Pieces(chunks[..i]))
      invariant functionName == LastName(chunks[..i])
    {
      var c := chunks[i];
      if c.finishReason != "" {
        break;
      }
      StepFacts(chunks, i);
      responseText, functionName := ApplyDelta(responseText, functionName, c);
      i := i + 1;
    }
    assert i == FinishIndex(chunks);
    reply := StreamReply(responseText, functionName);
  }

  /** Chunks after the first one with a finish reason are never looked at. */
  lemma FinishIgnoresRest(chunks: seq<Chunk>, rest: seq<Chunk>)
    requires FinishIndex(chunks) < |chunks|
    ensures FinishIndex(chunks + rest) == FinishIndex(chunks)
    ensures (chunks + rest)[..FinishIndex(chunks + rest)] == chunks[..FinishIndex(chunks)]
  {
    var k := FinishIndex(chunks);
    var all := chunks + rest;
    assert all[k] == chunks[k];
    assert forall i :: 0 <= i < k ==> all[i] == chunks[i];
  }

  /** The tool dispatch as written: the `web_search` branch is followed by a
      separate `if`/`else` on `wikipedia_search`, whose `else` raises. */
  function DispatchAsWritten(tools: Tools, name: string, query: string): (r: Result<string, ToolError>)
    ensures r.Ok? <==> name == "wikipedia_search"
    ensures name == "wikipedia_search" ==> r == Ok(WikipediaSearch(tools.count, tools.wikiTitles, tools.wikiPage, query, 1000))
    ensures r.Err? ==> r.error == InvalidFunctionName(name)
  {
    // The web_search output computed for name == "web_search" is discarded by the raise.
    if name == "wikipedia_search" then
      Ok(WikipediaSearch(tools.count, tools.wikiTitles, tools.wikiPage, query, ToolBudget))
    else Err(InvalidFunctionName(name))
  }

  /** The dispatch with `elif`: each known tool runs with the 1000-token
      budget, any other name raises. */
  function Dispatch(tools: Tools, name: string, query: string): (r: Result<string, ToolError>)
    ensures r.Ok? <==> name == "web_search" || name == "wikipedia_search"
    ensures name == "web_search" ==> r == Ok(WebSearch(tools.count, tools.web(query), 1000))
    ensures name == "wikipedia_search" ==> r == Ok(WikipediaSearch(tools.count, tools.wikiTitles, tools.wikiPage, query, 1000))
    ensures r.Err? ==> r.error == InvalidFunctionName(name)
  {
    if name == "web_search" then Ok(WebSearch(tools.count, tools.web(query), ToolBudget))
    else if name == "wikipedia_search" then
      Ok(WikipediaSearch(tools.count, tools.wikiTitles, tools.wikiPage, query, ToolBudget))
    else Err(InvalidFunctionName(name))
  }

  /** As written, a `web_search` call can never succeed; with `elif` it
      returns the budgeted search text. Both agree on every other name. */
  lemma WebSearchFallsThrough(tools: Tools, query: string)
    ensures DispatchAsWritten(tools, "web_search", query) == Err(InvalidFunctionName("web_search"))
    ensures Dispatch(tools, "web_search", query) == Ok(WebSearch(tools.count, tools.web(query), ToolBudget))
    ensures forall name :: name != "web_search" ==> DispatchAsWritten(tools, name, query) == Dispatch(tools, name, query)
  {
  }

  /** How the tool is chosen: `SeparateIfs` is the code as written, whose
      `web_search` branch falls through to the `else` that raises; `Elif`
      chains the two tests. */
  datatype DispatchPolicy = SeparateIfs | Elif

  function RunTool(policy: DispatchPolicy, tools: Tools, name: string, query: string): Result<string, ToolError>
  {
    match policy
    case SeparateIfs => DispatchAsWritten(tools, name, query)
    case Elif => Dispatch(tools, name, query)
  }

  /** What the conversation becomes once the stream is folded: the answer is
      appended as an assistant message, or the requested tool's output as a
      function message named after the tool. `queryOf` stands for
      `json.loads(response_text)['query']`. */
  function AfterStream(policy: DispatchPolicy, tools: Tools, messages: seq<Message>, reply: StreamReply,
                       queryOf: string -> string): (r: Result<seq<Message>, ToolError>)
    ensures r.Ok? ==> |r.value| == |messages| + 1 && r.value[..|messages|] == messages
    ensures reply.functionName == "" ==> r == Ok(messages + [Message(Assistant, reply.text)])
    ensures reply.functionName == "wikipedia_search" ==>
              r == Ok(messages + [Message(FunctionResult("wikipedia_search"),
                                          WikipediaSearch(tools.count, tools.wikiTitles, tools.wikiPage,
                                                          queryOf(reply.text), 1000))])
    ensures reply.functionName == "web_search" && policy == Elif ==>
              r == Ok(messages + [Message(FunctionResult("web_search"),
                                          WebSearch(tools.count, tools.web(queryOf(reply.text)), 1000))])
    ensures r.Err? <==> reply.functionName !in {"", "wikipedia_search"}
                        && (policy == SeparateIfs || reply.functionName != "web_search")
    ensures r.Err? ==> r.error == InvalidFunctionName(reply.functionName)
  {
    if reply.functionName == "" then Ok(messages + [Message(Assistant, reply.text)])
    else
      match RunTool(policy, tools, reply.functionName, queryOf(reply.text))
      case Ok(output) => Ok(messages + [Message(FunctionResult(reply.functionName), output)])
      case Err(e) => Err(e)
  }

  /** Before each completion: a new user message is read only when no
      function call is pending, and an empty line adds nothing. */
  function ReadUser(messages: seq<Message>, pendingName: string, text: string): (r: seq<Message>)
    ensures |messages| <= |r| <= |messages| + 1 && r[..|messages|] == messages
    ensures |r| == |messages| + 1 <==> pendingName == "" && text != ""
    ensures |r| == |messages| + 1 ==> r[|messages|] == Message(User, text)
  {
    if pendingName != "" || text == "" then messages else messages + [Message(User, text)]
  }
}
