/** One turn of the function-calling chat program: the user's line is
    appended, the model answers or asks for `web_search`; a search runs with a
    2000-token budget, its output is appended as a system message and the
    model is asked again; the model's final message is appended.

    `complete` stands for `openai.ChatCompletion.create` on the whole history
    (its failures are not modelled); a requested call carries its arguments
    already parsed. */
module Dialogue {
  import opened Basics
  import opened Chat
  import opened Search

  /** The requested function and the `query` parsed from its arguments. */
  datatype FunctionCall = FunctionCall(name: string, query: string)

  /** `choices[0]` of a completion: its finish reason, its message and the
      function call in that message, if any. */
  datatype Completion = Completion(finishReason: string, message: Message, call: Option<FunctionCall>)

  /** A `function_call` finish without a call in the message (a KeyError), or
      a call to a function other than `web_search`. */
  datatype TurnError = MissingFunctionCall | InvalidFunctionName(name: string)

  const SearchBudget: int := 2000

  /** The conversation the program starts from. */
  function InitialHistory(systemPrompt: string): seq<Message>
  {
    [Message(System, systemPrompt)]
  }

  /** The system message that hands a function's output back to the model. */
  function FunctionOutputMessage(name: string, output: string): Message
  {
    Message(System, "function " + name + " output:\n\n" + output)
  }

  /** The first completion of a turn asked for a function call. */
  predicate CallsFunction(c: Completion)
  {
    c.finishReason == "function_call"
  }

  function Turn(count: string -> nat, web: string -> seq<Hit>, history: seq<Message>, text: string,
                complete: seq<Message> -> Completion): (r: Result<seq<Message>, TurnError>)
    ensures text == "" ==> r == Ok(history)
    ensures var asked := history + [Message(User, text)];
            && (r.Err? <==> text != "" && CallsFunction(complete(asked))
                            && (complete(asked).call.None? || complete(asked).call.value.name != "web_search"))
            && (r.Ok? && text != "" ==>
                  && |asked| <= |r.value|
                  && r.value[..|asked|] == asked
                  && |r.value| == |history| + (if CallsFunction(complete(asked)) then 3 else 2)
                  && r.value[|r.value| - 1] == complete(r.value[..|r.value| - 1]).message)
            && (r.Ok? && text != "" && CallsFunction(complete(asked)) ==>
                  r.value[|history| + 1]
                  == FunctionOutputMessage("web_search", WebSearch(count, web(complete(asked).call.value.query), SearchBudget)))
  {
    if text == "" then Ok(history)
    else
      var asked := history + [Message(User, text)];
      var first := complete(asked);
      if !CallsFunction(first) then Ok(asked + [first.message])
      else if first.call.None? then Err(MissingFunctionCall)
      else if first.call.value.name != "web_search" then Err(InvalidFunctionName(first.call.value.name))
      else
        var output := WebSearch(count, web(first.call.value.query), SearchBudget);
        var informed := asked + [FunctionOutputMessage(first.call.value.name, output)];
        Ok(informed + [complete(informed).message])
  }

  /** Whatever the turns, the system prompt stays the first message. */
  lemma {:induction false} SystemPromptStaysFirst(count: string -> nat, web: string -> seq<Hit>, systemPrompt: string,
                                                  texts: seq<string>, complete: seq<Message> -> Completion)
    ensures var r := Conversation(count, web, InitialHistory(systemPrompt), texts, complete);
            r.Ok? ==> |r.value| >= 1 && r.value[0] == Message(System, systemPrompt)
    decreases |texts|
  {
    if |texts| > 0 {
      ConversationKeepsPrefix(count, web, InitialHistory(systemPrompt), texts, complete);
    }
  }

  /** Successive turns, stopping at the first that raises. */
  function Conversation(count: string -> nat, web: string -> seq<Hit>, history: seq<Message>, texts: seq<string>,
                        complete: seq<Message> -> Completion): Result<seq<Message>, TurnError>
    decreases |texts|
  {
    if |texts| == 0 then Ok(history)
    else
      match Turn(count, web, history, texts[0], complete)
      case Err(e) => Err(e)
      case Ok(next) => Conversation(count, web, next, texts[1..], complete)
  }

  /** Turns only ever append: the history so far is a prefix of every later one. */
  lemma {:induction false} ConversationKeepsPrefix(count: string -> nat, web: string -> seq<Hit>, history: seq<Message>,
                                                   texts: seq<string>, complete: seq<Message> -> Completion)
    ensures var r := Conversation(count, web, history, texts, complete);
            r.Ok? ==> |history| <= |r.value| && r.value[..|history|] == history
    decreases |texts|
  {
    if |texts| > 0 {
      var t := Turn(count, web, history, texts[0], complete);
      if t.Ok? {
        ConversationKeepsPrefix(count, web, t.value, texts[1..], complete);
        if texts[0] != "" {
          var asked := history + [Message(User, texts[0])];
          assert t.value[..|asked|][..|history|] == history;
        }
      }
    }
  }
}
