/**
 * The tool-call round of a turn as a pure function: for each requested call,
 * in the model's order, decode its arguments, look its name up in the
 * dispatch table and run the handler. A known tool yields one `tool` reply
 * and one log entry; an unknown name yields nothing; an argument that does
 * not decode, or a handler that raises, ends the round with an error and
 * keeps the replies produced so far.
 */
module ToolDispatch {
  import opened Wrappers
  import opened Messages
  import opened Tools

  /** One entry of the turn's tool log: tool name, decoded arguments, result text. */
  datatype LogEntry<A> = LogEntry(tool: string, args: A, result: string)

  /**
   * Why a turn ends without an answer. `Dispatch` produces only the last two;
   * the type is shared with `Agent.Turn`, which adds the first two.
   */
  datatype TurnError =
    | ClientNotInitialized
    | ServiceUnavailable
    | InvalidArguments(callId: string)
    | HandlerRaised(callId: string)

  /** What a dispatch round produced: the `tool` replies, the log, and the error that stopped it, if any. */
  datatype Dispatched<A> = Dispatched(replies: seq<Message>, log: seq<LogEntry<A>>, error: Option<TurnError>)

  /**
   * The round over `calls`; `parse` stands for the JSON decoder and `invoke`
   * for the handlers (`None` when the decoder or a handler raises).
   */
  function Dispatch<A>(calls: seq<ToolCall>, parse: string -> Option<A>, invoke: (ToolKind, A) -> Option<string>): Dispatched<A>
    decreases |calls|
  {
    if calls == [] then Dispatched([], [], None)
    else
      var c := calls[0];
      match parse(c.arguments)
      case None => Dispatched([], [], Some(InvalidArguments(c.id)))
      case Some(args) =>
        if c.name !in ToolFunctions then Dispatch(calls[1..], parse, invoke)
        else match invoke(ToolFunctions[c.name], args)
          case None => Dispatched([], [], Some(HandlerRaised(c.id)))
          case Some(result) =>
            var rest := Dispatch(calls[1..], parse, invoke);
            Dispatched([Tool(result, c.id)] + rest.replies, [LogEntry(c.name, args, result)] + rest.log, rest.error)
  }

  /** The requested calls whose names are in the dispatch table, in request order. */
  function RegisteredCalls(calls: seq<ToolCall>): seq<ToolCall>
  {
    if calls == [] then []
    else if calls[0].name in ToolFunctions then [calls[0]] + RegisteredCalls(calls[1..])
    else RegisteredCalls(calls[1..])
  }

  /** No more calls are registered than requested, and all are exactly when every name is known. */
  lemma {:induction false} RegisteredCallsBound(calls: seq<ToolCall>)
    ensures |RegisteredCalls(calls)| <= |calls|
    ensures |RegisteredCalls(calls)| == |calls| <==> forall i :: 0 <= i < |calls| ==> calls[i].name in ToolFunctions
  {
    if calls != [] {
      RegisteredCallsBound(calls[1..]);
      if forall i :: 0 <= i < |calls| ==> calls[i].name in ToolFunctions {
        assert forall i :: 0 <= i < |calls| - 1 ==> calls[1..][i].name in ToolFunctions by {
          forall i | 0 <= i < |calls| - 1 ensures calls[1..][i].name in ToolFunctions { assert calls[1..][i] == calls[i + 1]; }
        }
      } else if calls[0].name in ToolFunctions {
        var i :| 0 <= i < |calls| && calls[i].name !in ToolFunctions;
        assert calls[1..][i - 1] == calls[i];
      }
    }
  }

  /**
   * A round that ends without error answers the registered calls and only
   * them: reply `i` and log entry `i` belong to the `i`-th registered call,
   * carry its id and name, the arguments it decodes to and the handler's
   * result for them.
   */
  lemma {:induction false} DispatchComplete<A>(calls: seq<ToolCall>, parse: string -> Option<A>, invoke: (ToolKind, A) -> Option<string>)
    requires Dispatch(calls, parse, invoke).error == None
    ensures var d, reg := Dispatch(calls, parse, invoke), RegisteredCalls(calls);
      |d.replies| == |d.log| == |reg| &&
      forall i :: 0 <= i < |reg| ==>
        reg[i].name in ToolFunctions &&
        d.replies[i] == Tool(d.log[i].result, reg[i].id) &&
        d.log[i].tool == reg[i].name &&
        parse(reg[i].arguments) == Some(d.log[i].args) &&
        invoke(ToolFunctions[reg[i].name], d.log[i].args) == Some(d.log[i].result)
  {
    if calls != [] {
      DispatchComplete(calls[1..], parse, invoke);
    }
  }

  /** A round ends without error exactly when every argument decodes and every known tool's handler returns. */
  lemma {:induction false} DispatchSucceedsIff<A>(calls: seq<ToolCall>, parse: string -> Option<A>, invoke: (ToolKind, A) -> Option<string>)
    ensures Dispatch(calls, parse, invoke).error == None <==>
      forall i :: 0 <= i < |calls| ==>
        parse(calls[i].arguments).Some? &&
        (calls[i].name in ToolFunctions ==> invoke(ToolFunctions[calls[i].name], parse(calls[i].arguments).value).Some?)
  {
    if calls != [] {
      DispatchSucceedsIff(calls[1..], parse, invoke);
      assert forall i :: 0 <= i < |calls| - 1 ==> calls[1..][i] == calls[i + 1];
    }
  }

  /** Every message of `replies` is a `tool` message answering one of `ids`. */
  predicate AnswersAmong(replies: seq<Message>, ids: set<string>)
  {
    forall i :: 0 <= i < |replies| ==> replies[i].Tool? && replies[i].toolCallId in ids
  }

  /** Every reply is a `tool` message answering one of the requested ids, whether or not the round failed. */
  lemma {:induction false} RepliesAnswerCalls<A>(calls: seq<ToolCall>, parse: string -> Option<A>, invoke: (ToolKind, A) -> Option<string>)
    ensures AnswersAmong(Dispatch(calls, parse, invoke).replies, CallIds(calls))
  {
    if calls != [] {
      var c, rest := calls[0], Dispatch(calls[1..], parse, invoke);
      RepliesAnswerCalls(calls[1..], parse, invoke);
      assert c.id in CallIds(calls);
      assert CallIds(calls[1..]) <= CallIds(calls) by {
        forall x | x in CallIds(calls[1..]) ensures x in CallIds(calls) {
          var c' :| c' in calls[1..] && c'.id == x;
          assert c' in calls;
        }
      }
      var d := Dispatch(calls, parse, invoke);
      if parse(c.arguments).Some? && c.name in ToolFunctions {
        var result := invoke(ToolFunctions[c.name], parse(c.arguments).value);
        if result.Some? {
          assert d.replies == [Tool(result.value, c.id)] + rest.replies;
          forall i | 1 <= i < |d.replies|
            ensures d.replies[i].Tool? && d.replies[i].toolCallId in CallIds(calls)
          {
            assert d.replies[i] == rest.replies[i - 1];
          }
        }
      }
    }
  }

  /** A round over `xs + ys` that gets through `xs` without error continues with the round over `ys`. */
  lemma {:induction false} DispatchAppend<A>(xs: seq<ToolCall>, ys: seq<ToolCall>, parse: string -> Option<A>, invoke: (ToolKind, A) -> Option<string>)
    requires Dispatch(xs, parse, invoke).error == None
    ensures var dx, dy := Dispatch(xs, parse, invoke), Dispatch(ys, parse, invoke);
      Dispatch(xs + ys, parse, invoke) == Dispatched(dx.replies + dy.replies, dx.log + dy.log, dy.error)
  {
    if xs == [] {
      assert xs + ys == ys;
    } else {
      assert (xs + ys)[0] == xs[0];
      assert (xs + ys)[1..] == xs[1..] + ys;
      DispatchAppend(xs[1..], ys, parse, invoke);
    }
  }

  /** Once a round fails, the calls after the failing one are never looked at. */
  lemma {:induction false} DispatchStops<A>(xs: seq<ToolCall>, ys: seq<ToolCall>, parse: string -> Option<A>, invoke: (ToolKind, A) -> Option<string>)
    requires Dispatch(xs, parse, invoke).error.Some?
    ensures Dispatch(xs + ys, parse, invoke) == Dispatch(xs, parse, invoke)
  {
    assert xs != [];
    assert (xs + ys)[0] == xs[0];
    assert (xs + ys)[1..] == xs[1..] + ys;
    var c := xs[0];
    if parse(c.arguments).Some? && (c.name in ToolFunctions ==> invoke(ToolFunctions[c.name], parse(c.arguments).value).Some?) {
      DispatchStops(xs[1..], ys, parse, invoke);
    }
  }

  /** The call on which a round fails, and the error it fails with. */
  predicate FailsOn<A>(c: ToolCall, e: TurnError, parse: string -> Option<A>, invoke: (ToolKind, A) -> Option<string>)
  {
    (parse(c.arguments) == None && e == InvalidArguments(c.id)) ||
    (parse(c.arguments).Some? && c.name in ToolFunctions &&
     invoke(ToolFunctions[c.name], parse(c.arguments).value) == None && e == HandlerRaised(c.id))
  }

  /**
   * A failed round stops at some call `k`: the calls before it went through,
   * their replies are all that was produced, and call `k` is the one whose
   * arguments did not decode or whose handler raised.
   */
  lemma {:induction false} DispatchFailure<A>(calls: seq<ToolCall>, parse: string -> Option<A>, invoke: (ToolKind, A) -> Option<string>)
    requires Dispatch(calls, parse, invoke).error.Some?
    ensures exists k :: (0 <= k < |calls| &&
      Dispatch(calls[..k], parse, invoke).error == None &&
      Dispatch(calls, parse, invoke).replies == Dispatch(calls[..k], parse, invoke).replies &&
      FailsOn(calls[k], Dispatch(calls, parse, invoke).error.value, parse, invoke))
  {
    var c := calls[0];
    var d := Dispatch(calls, parse, invoke);
    if FailsOn(c, d.error.value, parse, invoke) {
      assert calls[..0] == [];
    } else {
      DispatchFailure(calls[1..], parse, invoke);
      var k :| 0 <= k < |calls| - 1 &&
        Dispatch(calls[1..][..k], parse, invoke).error == None &&
        Dispatch(calls[1..], parse, invoke).replies == Dispatch(calls[1..][..k], parse, invoke).replies &&
        FailsOn(calls[1..][k], Dispatch(calls[1..], parse, invoke).error.value, parse, invoke);
      assert calls[..k + 1][0] == c;
      assert calls[..k + 1][1..] == calls[1..][..k];
      assert calls[1..][k] == calls[k + 1];
    }
  }
}
