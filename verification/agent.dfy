/**
 * One turn of the agent: append the user's message, take the model's first
 * reply, and either answer with it directly or record the requested tool
 * calls, dispatch them in order and answer with the model's second reply.
 * The shared conversation history is the field of `Conversation`; the two
 * replies of the language model are parameters of the turn.
 */
module Agent {
  import opened Wrappers
  import opened Messages
  import opened Tools
  import opened ToolDispatch
  import opened Text

  /** A reply of the language model: its text and the tool calls it requests, in order. */
  datatype Reply = Reply(content: string, toolCalls: seq<ToolCall>)

  /** The outcome of one call to the language model. */
  datatype Completion = Completed(reply: Reply) | Unavailable

  /** What a turn returns to its caller: the answer and the tool log, or the error that ended it. */
  datatype TurnResult<A> = Answered(answer: string, log: seq<LogEntry<A>>) | Failed(error: TurnError)

  datatype TurnOutcome<A> = TurnOutcome(history: seq<Message>, result: TurnResult<A>)

  /**
   * The turn on history `h`. `ready` says whether the model client exists;
   * `first` and `second` are the model's replies to the call with tool
   * schemas and to the call without them. Nothing appended is ever undone.
   */
  function Turn<A>(h: seq<Message>, ready: bool, utterance: string, first: Completion, second: Completion,
                   parse: string -> Option<A>, invoke: (ToolKind, A) -> Option<string>): TurnOutcome<A>
  {
    if !ready then TurnOutcome(h, Failed(ClientNotInitialized))
    else
      var asked := h + [User(utterance)];
      match first
      case Unavailable => TurnOutcome(asked, Failed(ServiceUnavailable))
      case Completed(reply) =>
        if reply.toolCalls == [] then
          TurnOutcome(asked + [Assistant(reply.content, [])], Answered(reply.content, []))
        else
          var requested := asked + [Assistant(reply.content, reply.toolCalls)];
          var d := Dispatch(reply.toolCalls, parse, invoke);
          var answered := requested + d.replies;
          if d.error.Some? then TurnOutcome(answered, Failed(d.error.value))
          else match second
            case Unavailable => TurnOutcome(answered, Failed(ServiceUnavailable))
            case Completed(final) =>
              TurnOutcome(answered + [Assistant(final.content, [])], Answered(final.content, d.log))
  }

  /** The process-wide conversation history. */
  class Conversation {
    var history: seq<Message>

    ghost predicate Valid()
      reads this
    {
      WellLinked(history)
    }

    constructor ()
      ensures Valid() && history == []
    {
      history := [];
    }

    /** Runs one turn, appending to `history` as it goes. */
    method RunTurn<A>(ready: bool, utterance: string, first: Completion, second: Completion,
                      parse: string -> Option<A>, invoke: (ToolKind, A) -> Option<string>)
      returns (result: TurnResult<A>)
      requires Valid()
      modifies this
      ensures Valid()
      ensures var t := Turn(old(history), ready, utterance, first, second, parse, invoke);
              history == t.history && result == t.result
    {
      ghost var t := Turn(history, ready, utterance, first, second, parse, invoke);
      TurnPreservesWellLinked(history, ready, utterance, first, second, parse, invoke);
      if !ready {
        return Failed(ClientNotInitialized);
      }
      history := history + [User(utterance)];
      if first.Unavailable? {
        return Failed(ServiceUnavailable);
      }
      var reply := first.reply;
      if reply.toolCalls == [] {
        history := history + [Assistant(reply.content, [])];
        return Answered(reply.content, []);
      }
      var calls := reply.toolCalls;
      history := history + [Assistant(reply.content, calls)];
      ghost var requested := history;
      var log: seq<LogEntry<A>> := [];
      var i := 0;
      while i < |calls|
        invariant 0 <= i <= |calls|
        invariant Dispatch(calls[..i], parse, invoke).error == None
        invariant history == requested + Dispatch(calls[..i], parse, invoke).replies
        invariant log == Dispatch(calls[..i], parse, invoke).log
      {
        var call := calls[i];
        assert calls[..i + 1] == calls[..i] + [call];
        assert calls[..i + 1] + calls[i + 1..] == calls;
        DispatchAppend(calls[..i], [call], parse, invoke);
        var args := parse(call.arguments);
        if args.None? {
          DispatchStops(calls[..i + 1], calls[i + 1..], parse, invoke);
          assert history == t.history;
          return Failed(InvalidArguments(call.id));
        }
        if call.name in ToolFunctions {
          var output := invoke(ToolFunctions[call.name], args.value);
          if output.None? {
            DispatchStops(calls[..i + 1], calls[i + 1..], parse, invoke);
            assert history == t.history;
            return Failed(HandlerRaised(call.id));
          }
          log := log + [LogEntry(call.name, args.value, output.value)];
          history := history + [Tool(output.value, call.id)];
        }
        i := i + 1;
      }
      assert calls[..i] == calls;
      if second.Unavailable? {
        return Failed(ServiceUnavailable);
      }
      history := history + [Assistant(second.reply.content, [])];
      result := Answered(second.reply.content, log);
    }

    /** Empties the history and reports how many messages it held. */
    method ClearHistory() returns (count: nat, message: string)
      modifies this
      ensures Valid() && history == []
      ensures count == |old(history)|
      ensures message == "已清空 " + Decimal(count) + " 条对话记录"
    {
      count := |history|;
      history := [];
      message := "已清空 " + Decimal(count) + " 条对话记录";
    }
  }

  /** Without a model client the turn fails before touching the history. */
  lemma TurnWithoutClient<A>(h: seq<Message>, utterance: string, first: Completion, second: Completion,
                             parse: string -> Option<A>, invoke: (ToolKind, A) -> Option<string>)
    ensures Turn(h, false, utterance, first, second, parse, invoke) == TurnOutcome(h, Failed(ClientNotInitialized))
  {
  }

  /**
   * A turn only appends: the earlier history is kept as it was, followed by
   * exactly one `user` message with the utterance.
   */
  lemma TurnAppendsUserFirst<A>(h: seq<Message>, utterance: string, first: Completion, second: Completion,
                                parse: string -> Option<A>, invoke: (ToolKind, A) -> Option<string>)
    ensures var t := Turn(h, true, utterance, first, second, parse, invoke);
      |t.history| > |h| && t.history[..|h| + 1] == h + [User(utterance)]
  {
  }

  /** A first reply without tool calls is the answer: an empty log and two new messages, user then assistant. */
  lemma TurnWithoutTools<A>(h: seq<Message>, utterance: string, reply: Reply, second: Completion,
                            parse: string -> Option<A>, invoke: (ToolKind, A) -> Option<string>)
    requires reply.toolCalls == []
    ensures var t := Turn(h, true, utterance, Completed(reply), second, parse, invoke);
      t.result == Answered(reply.content, []) &&
      t.history == h + [User(utterance), Assistant(reply.content, [])]
  {
  }

  /**
   * When the first reply requests tools, the assistant message carrying all
   * of them, with their ids, names and arguments in the model's order, comes
   * right after the user message and before any `tool` message; this holds
   * whether the turn then succeeds or fails.
   */
  lemma TurnRecordsCallsFirst<A>(h: seq<Message>, utterance: string, reply: Reply, second: Completion,
                                 parse: string -> Option<A>, invoke: (ToolKind, A) -> Option<string>)
    requires reply.toolCalls != []
    ensures var t := Turn(h, true, utterance, Completed(reply), second, parse, invoke);
      |t.history| >= |h| + 2 &&
      t.history[..|h| + 2] == h + [User(utterance), Assistant(reply.content, reply.toolCalls)] &&
      forall i :: |h| + 2 <= i < |t.history| && t.history[i].Tool? ==>
        t.history[i].toolCallId in CallIds(reply.toolCalls)
  {
    var t := Turn(h, true, utterance, Completed(reply), second, parse, invoke);
    var d := Dispatch(reply.toolCalls, parse, invoke);
    var requested := h + [User(utterance), Assistant(reply.content, reply.toolCalls)];
    RepliesAnswerCalls(reply.toolCalls, parse, invoke);
    assert t.history[..|h| + 2] == requested;
    forall i | |h| + 2 <= i < |t.history| && t.history[i].Tool?
      ensures t.history[i].toolCallId in CallIds(reply.toolCalls)
    {
      if i < |requested| + |d.replies| {
        assert t.history[i] == d.replies[i - |requested|];
      }
    }
  }

  /**
   * A turn that answers after dispatching tools: the answer is the second
   * reply's text and is the last message; between the assistant tool-call
   * message and the answer stands one `tool` message per registered call,
   * in request order, carrying that call's id and the same result as the
   * log entry with the same index, which names that call's tool.
   */
  lemma TurnWithTools<A>(h: seq<Message>, utterance: string, reply: Reply, second: Completion,
                         parse: string -> Option<A>, invoke: (ToolKind, A) -> Option<string>)
    requires reply.toolCalls != []
    requires Turn(h, true, utterance, Completed(reply), second, parse, invoke).result.Answered?
    ensures var t, reg := Turn(h, true, utterance, Completed(reply), second, parse, invoke), RegisteredCalls(reply.toolCalls);
      var log := t.result.log;
      second.Completed? && t.result.answer == second.reply.content &&
      |log| == |reg| <= |reply.toolCalls| &&
      |t.history| == |h| + 3 + |log| &&
      t.history[|h| + 1] == Assistant(reply.content, reply.toolCalls) &&
      t.history[|t.history| - 1] == Assistant(t.result.answer, []) &&
      forall i :: 0 <= i < |log| ==>
        t.history[|h| + 2 + i] == Tool(log[i].result, reg[i].id) && log[i].tool == reg[i].name &&
        parse(reg[i].arguments) == Some(log[i].args)
  {
    var t := Turn(h, true, utterance, Completed(reply), second, parse, invoke);
    var d := Dispatch(reply.toolCalls, parse, invoke);
    DispatchComplete(reply.toolCalls, parse, invoke);
    RegisteredCallsBound(reply.toolCalls);
    var requested := h + [User(utterance), Assistant(reply.content, reply.toolCalls)];
    assert t.history == requested + d.replies + [Assistant(second.reply.content, [])];
    forall i | 0 <= i < |d.log| ensures t.history[|h| + 2 + i] == d.replies[i] { }
  }

  /**
   * Unknown tool names are skipped silently, so a successful turn answers
   * every requested call exactly when every requested name is registered.
   */
  lemma TurnAnswersAllCallsIff<A>(h: seq<Message>, utterance: string, reply: Reply, second: Completion,
                                  parse: string -> Option<A>, invoke: (ToolKind, A) -> Option<string>)
    requires reply.toolCalls != []
    requires Turn(h, true, utterance, Completed(reply), second, parse, invoke).result.Answered?
    ensures var log := Turn(h, true, utterance, Completed(reply), second, parse, invoke).result.log;
      |log| == |reply.toolCalls| <==> forall i :: 0 <= i < |reply.toolCalls| ==> reply.toolCalls[i].name in ToolFunctions
  {
    DispatchComplete(reply.toolCalls, parse, invoke);
    RegisteredCallsBound(reply.toolCalls);
  }

  /**
   * A model service failure is not rolled back: after a failed first call
   * the history ends with the unanswered user message.
   */
  lemma FailedFirstCallKeepsUserMessage<A>(h: seq<Message>, utterance: string, second: Completion,
                                           parse: string -> Option<A>, invoke: (ToolKind, A) -> Option<string>)
    ensures Turn(h, true, utterance, Unavailable, second, parse, invoke) ==
            TurnOutcome(h + [User(utterance)], Failed(ServiceUnavailable))
  {
  }

  /**
   * A failing second model call is not rolled back either: the user
   * message, the assistant tool-call message and every tool reply stay.
   */
  lemma FailedSecondCallKeepsToolReplies<A>(h: seq<Message>, utterance: string, reply: Reply,
                                            parse: string -> Option<A>, invoke: (ToolKind, A) -> Option<string>)
    requires reply.toolCalls != []
    requires Dispatch(reply.toolCalls, parse, invoke).error == None
    ensures Turn(h, true, utterance, Completed(reply), Unavailable, parse, invoke) ==
            TurnOutcome(h + [User(utterance), Assistant(reply.content, reply.toolCalls)] +
                        Dispatch(reply.toolCalls, parse, invoke).replies,
                        Failed(ServiceUnavailable))
  {
  }

  /**
   * A tool call whose arguments do not decode, or whose handler raises, fails
   * the turn with that call's id; the user message, the assistant tool-call
   * message and the replies to the calls before it stay in the history.
   */
  lemma DispatchFailureKeepsHistory<A>(h: seq<Message>, utterance: string, reply: Reply, second: Completion,
                                       parse: string -> Option<A>, invoke: (ToolKind, A) -> Option<string>)
    requires reply.toolCalls != []
    requires Dispatch(reply.toolCalls, parse, invoke).error.Some?
    ensures var t, calls := Turn(h, true, utterance, Completed(reply), second, parse, invoke), reply.toolCalls;
      t.result.Failed? &&
      exists k :: (0 <= k < |calls| &&
        FailsOn(calls[k], t.result.error, parse, invoke) &&
        Dispatch(calls[..k], parse, invoke).error == None &&
        t.history == h + [User(utterance), Assistant(reply.content, calls)] + Dispatch(calls[..k], parse, invoke).replies)
  {
    DispatchFailure(reply.toolCalls, parse, invoke);
  }

  /** Every turn, whatever its outcome, keeps each `tool` message linked to the assistant call it answers. */
  lemma TurnPreservesWellLinked<A>(h: seq<Message>, ready: bool, utterance: string, first: Completion, second: Completion,
                                   parse: string -> Option<A>, invoke: (ToolKind, A) -> Option<string>)
    requires WellLinked(h)
    ensures WellLinked(Turn(h, ready, utterance, first, second, parse, invoke).history)
  {
    if ready {
      var asked := h + [User(utterance)];
      AppendLinked(h, User(utterance));
      if first.Completed? {
        var reply := first.reply;
        if reply.toolCalls == [] {
          AppendLinked(asked, Assistant(reply.content, []));
        } else {
          var requested := asked + [Assistant(reply.content, reply.toolCalls)];
          AppendLinked(asked, Assistant(reply.content, reply.toolCalls));
          var d := Dispatch(reply.toolCalls, parse, invoke);
          RepliesAnswerCalls(reply.toolCalls, parse, invoke);
          AppendToolReplies(requested, d.replies);
          if d.error.None? && second.Completed? {
            AppendLinked(requested + d.replies, Assistant(second.reply.content, []));
          }
        }
      }
    }
  }

  /**
   * The weather example: one `get_weather` call for 北京, whose arguments
   * decode to the keyword map {"city": "北京"}, yields one log entry with
   * those arguments and the table's report, and the second reply is the answer.
   */
  lemma WeatherTurn(answer: string)
    ensures var call := ToolCall("call_1", "get_weather", "{\"city\": \"北京\"}");
      var t := Turn([], true, "What's the weather in 北京?",
                    Completed(Reply("", [call])), Completed(Reply(answer, [])),
                    (s: string) => Some(map["city" := "北京"]),
                    (k: ToolKind, args: map<string, string>) =>
                      if k == WeatherTool && "city" in args then Some(GetWeather(args["city"])) else None);
      t.result == Answered(answer, [LogEntry("get_weather", map["city" := "北京"], "晴天,温度15°C,空气质量良好")]) &&
      |t.history| == 4 && t.history[2] == Tool("晴天,温度15°C,空气质量良好", "call_1")
  {
    var call := ToolCall("call_1", "get_weather", "{\"city\": \"北京\"}");
    var args := map["city" := "北京"];
    var parse := (s: string) => Some(args);
    var invoke := (k: ToolKind, args: map<string, string>) =>
      if k == WeatherTool && "city" in args then Some(GetWeather(args["city"])) else None;
    var report := "晴天,温度15°C,空气质量良好";
    assert ToolFunctions["get_weather"] == WeatherTool;
    assert invoke(WeatherTool, args) == Some(report);
    assert [call][1..] == [];
    assert Dispatch([call], parse, invoke) == Dispatched([Tool(report, "call_1")], [LogEntry("get_weather", args, report)], None);
  }
}
