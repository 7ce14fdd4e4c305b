/**
 * Entries of the conversation history and the linking invariant between
 * `assistant` messages that request tools and the `tool` messages that
 * answer them.
 */
module Messages {

  /** One tool invocation requested by the model; `arguments` is the raw JSON text. */
  datatype ToolCall = ToolCall(id: string, name: string, arguments: string)

  /**
   * A history entry. The final answer of a turn is an `Assistant` with no
   * tool calls; an `Assistant` that requests tools carries them in order.
   */
  datatype Message =
    | User(content: string)
    | Assistant(content: string, toolCalls: seq<ToolCall>)
    | Tool(content: string, toolCallId: string)

  function CallIds(calls: seq<ToolCall>): set<string>
  {
    set c | c in calls :: c.id
  }

  /**
   * The ids a `tool` message appended to `h` may answer: the calls of the
   * assistant message that the trailing run of `tool` messages follows,
   * and none after a `user` message or a final answer.
   */
  function OpenIds(h: seq<Message>): set<string>
    decreases |h|
  {
    if h == [] then {}
    else match h[|h| - 1]
      case Tool(_, _) => OpenIds(h[..|h| - 1])
      case Assistant(_, calls) => CallIds(calls)
      case User(_) => {}
  }

  /** Every `tool` message answers a call of the assistant message it follows. */
  predicate WellLinked(h: seq<Message>)
    decreases |h|
  {
    h == [] ||
    (WellLinked(h[..|h| - 1]) &&
     (h[|h| - 1].Tool? ==> h[|h| - 1].toolCallId in OpenIds(h[..|h| - 1])))
  }

  /**
   * The reading of `OpenIds` by positions: an open id belongs to an
   * assistant message followed only by `tool` messages.
   */
  lemma {:induction false} OpenIdsWitness(h: seq<Message>, id: string)
    requires id in OpenIds(h)
    ensures exists j :: 0 <= j < |h| && h[j].Assistant? && id in CallIds(h[j].toolCalls) &&
                        forall k :: j < k < |h| ==> h[k].Tool?
    decreases |h|
  {
    var n := |h| - 1;
    if h[n].Tool? {
      var p := h[..n];
      OpenIdsWitness(p, id);
      var j :| 0 <= j < |p| && p[j].Assistant? && id in CallIds(p[j].toolCalls) &&
               forall k :: j < k < |p| ==> p[k].Tool?;
      assert h[j] == p[j];
      forall k | j < k < |h| ensures h[k].Tool? {
        if k < n { assert h[k] == p[k]; }
      }
    } else {
      assert h[n].Assistant?;
    }
  }

  /**
   * `WellLinked` read by positions: each `tool` message is preceded by an
   * assistant message that requested its id, with only `tool` messages in
   * between.
   */
  lemma {:induction false} WellLinkedAt(h: seq<Message>, i: int)
    requires WellLinked(h)
    requires 0 <= i < |h| && h[i].Tool?
    ensures exists j :: 0 <= j < i && h[j].Assistant? && h[i].toolCallId in CallIds(h[j].toolCalls) &&
                        forall k :: j < k < i ==> h[k].Tool?
    decreases |h|
  {
    var n := |h| - 1;
    var p := h[..n];
    if i == n {
      OpenIdsWitness(p, h[i].toolCallId);
      var j :| 0 <= j < |p| && p[j].Assistant? && h[i].toolCallId in CallIds(p[j].toolCalls) &&
               forall k :: j < k < |p| ==> p[k].Tool?;
      assert h[j] == p[j];
      forall k | j < k < i ensures h[k].Tool? { assert h[k] == p[k]; }
    } else {
      assert h[i] == p[i];
      WellLinkedAt(p, i);
      var j :| 0 <= j < i && p[j].Assistant? && p[i].toolCallId in CallIds(p[j].toolCalls) &&
               forall k :: j < k < i ==> p[k].Tool?;
      assert h[j] == p[j];
      forall k | j < k < i ensures h[k].Tool? { assert h[k] == p[k]; }
    }
  }

  /** Appending one message keeps the history linked when a `tool` message answers an open id. */
  lemma AppendLinked(h: seq<Message>, m: Message)
    requires WellLinked(h)
    requires m.Tool? ==> m.toolCallId in OpenIds(h)
    ensures WellLinked(h + [m])
    ensures OpenIds(h + [m]) == match m
      case Tool(_, _) => OpenIds(h)
      case Assistant(_, calls) => CallIds(calls)
      case User(_) => {}
  {
  }

  /** A run of `tool` messages answering open ids keeps the history linked and the same ids open. */
  lemma {:induction false} AppendToolReplies(h: seq<Message>, replies: seq<Message>)
    requires WellLinked(h)
    requires forall i :: 0 <= i < |replies| ==> replies[i].Tool? && replies[i].toolCallId in OpenIds(h)
    ensures WellLinked(h + replies)
    ensures OpenIds(h + replies) == OpenIds(h)
    decreases |replies|
  {
    if replies != [] {
      var n := |replies| - 1;
      AppendToolReplies(h, replies[..n]);
      AppendLinked(h + replies[..n], replies[n]);
      assert h + replies[..n] + [replies[n]] == h + replies;
    } else {
      assert h + replies == h;
    }
  }
}
