# Agent turn and to-do list of a tool-calling chat assistant

This project models the core of a chat assistant that puts a
function-calling language model in front of six tools (weather, calculator,
web search, clock, add a to-do, list the to-dos). One **turn** takes a user
utterance and does the following:

1. It appends a `user` message to the shared conversation history.
2. It asks the model with the tool schemas attached.
3. If the reply requests no tools, that reply is the answer.
4. Otherwise it appends an `assistant` message carrying the requested calls.
   It then dispatches each call, in the model's order, through the
   name-to-handler table. It appends one `tool` message per call whose name
   is known. It asks the model a second time, without tool schemas.
5. It appends the final answer as an `assistant` message. It returns the
   answer with a log of the tools it ran.

Beside the turn, the project models the in-memory to-do list (add, render,
clear), the reset of the conversation history, the weather table lookup and
the calculator's character guard.

Modules:

- `Messages` (messages.dfy): the message datatype. It also holds `WellLinked`:
  each `tool` message answers a call of the assistant message it follows.
- `Tools` (tools.dfy): the dispatch table, the advertised tool names,
  `get_weather` and the calculator guard.
- `ToolDispatch` (dispatch.dfy): the tool-call round as a pure function,
  `Dispatch`, and its properties.
- `Agent` (agent.dfy): the specification function `Turn`, and the class
  `Conversation`. Its method `RunTurn` runs the turn imperatively: one loop
  over the tool calls, appending to the `history` field. The method is proved
  equal to `Turn`. `ClearHistory` empties the history.
- `Text` (text.dfy): decimal rendering of counts and ids.
- `Todos` (todos.dfy): `TodoItem`, the listing text, and the class `TodoList`.

External parts become parameters:

- **The language model.** Its two replies are the parameters `first` and
  `second` of type `Completion`. A `Completion` is either `Completed` with
  a `Reply` (text plus ordered tool calls), or `Unavailable`, which stands
  for a raising client call.
- **Client initialisation.** Whether the client exists is the parameter
  `ready`.
- **The JSON decoder.** It is `parse: string -> Option<A>`. `A` is the
  decoded argument type, and `None` means the decoder raised.
- **The tool handlers.** They are `invoke: (ToolKind, A) -> Option<string>`.
  `None` means the handler raised, for example on a keyword-argument
  mismatch.
- **The calculator's evaluator.** It is `evaluate: string -> Evaluation`.
- **The creation timestamp of a to-do.** It is a text parameter.

The model follows the code, including three places where a reader might
expect something else:

- One might expect a tool name missing from the table to get a textual error
  reply. The code skips it silently, with no `tool` message and no log entry.
- One might expect an argument payload that does not decode to become a
  textual error result. In the code, `json.loads` raises, and the turn aborts.
- One might expect a failed model call to roll back the turn's `user`
  message. The code keeps it, and keeps everything appended before the
  failure, whether the first or the second call fails.

The lemmas `TurnAnswersAllCallsIff`, `DispatchFailureKeepsHistory`,
`FailedFirstCallKeepsUserMessage` and `FailedSecondCallKeepsToolReplies`
state the code's behaviour in each case.

## Model

| member | source | states |
|---|---|---|
| Agent.Conversation.constructor | agent_system.py:41 | the history starts empty (and so linked) |
| Agent.Conversation.RunTurn | agent_system.py:311-418 | the turn's loop leaves exactly the history and returns exactly the result that `Turn` gives for the old history, and keeps every `tool` message linked to its assistant call |
| Agent.Conversation.ClearHistory | agent_system.py:498-508 | the history becomes empty; the reported count is the number of messages it held, in the message "已清空 {count} 条对话记录" |
| Agent.TurnWithoutClient | agent_system.py:318-319 | without a model client the turn fails with the history unchanged |
| Agent.TurnAppendsUserFirst | agent_system.py:326-329 | a turn keeps the earlier history unchanged as a prefix and first appends exactly one `user` message with the utterance |
| Agent.TurnWithoutTools | agent_system.py:404-413 | a first reply with no tool calls is the answer, the log is empty, and the history grows by exactly user then assistant |
| Agent.TurnRecordsCallsFirst | agent_system.py:350-363 | with tool calls, the assistant message carrying every call (same ids, names, arguments, order) comes right after the user message and before any `tool` message; every later `tool` message answers one of those ids |
| Agent.TurnWithTools | agent_system.py:366-413 | an answered tool turn has one `tool` message per registered call in request order with that call's id, the log entry of the same index names that call's tool, holds its decoded arguments and the same result; the log is no longer than the request; the last message is the assistant answer, which is the second reply's text |
| Agent.TurnAnswersAllCallsIff | agent_system.py:374-391 | in an answered turn, the log covers every requested call if and only if every requested name is in the dispatch table |
| Agent.FailedFirstCallKeepsUserMessage | agent_system.py:326-341 | a failing first model call fails the turn and leaves the user message in the history |
| Agent.FailedSecondCallKeepsToolReplies | agent_system.py:396-400 | a failing second model call fails the turn and leaves the user message, the assistant tool-call message and every tool reply in the history |
| Agent.DispatchFailureKeepsHistory | agent_system.py:366-389 | an undecodable argument or a raising handler fails the turn on that call's id; the user message, the assistant tool-call message and the replies to the earlier calls stay |
| Agent.TurnPreservesWellLinked | agent_system.py:326-413 | every turn, whatever its outcome, keeps each `tool` message linked to a call of the assistant message it follows |
| Agent.WeatherTurn | agent_system.py:366-402 | a `get_weather` call for 北京, its arguments decoded to the keyword map {"city": "北京"}, yields the single log entry with those arguments and the table's report, one `tool` message with that report, and the second reply as answer |
| Messages.WellLinkedAt | agent_system.py:350-389 | in a linked history each `tool` message is preceded by an assistant message that requested its id, with only `tool` messages in between |
| ToolDispatch.DispatchComplete | agent_system.py:366-391 | a round without error yields, for the i-th registered call, a `tool` reply with its id and a log entry with its name, its decoded arguments and the handler's result, the same result in both |
| ToolDispatch.RegisteredCallsBound | agent_system.py:374-391 | there are never more registered calls than requested, and as many exactly when every name is registered |
| ToolDispatch.DispatchSucceedsIff | agent_system.py:366-375 | a round ends without error if and only if every call's arguments decode and every registered call's handler returns |
| ToolDispatch.RepliesAnswerCalls | agent_system.py:385-389 | every reply of a round, failed or not, is a `tool` message whose id is one of the requested ids |
| ToolDispatch.DispatchAppend | agent_system.py:366 | calls are handled strictly in order: a round over two parts is the round over the first followed by the round over the second |
| ToolDispatch.DispatchStops | agent_system.py:366-375 | once a call fails, no later call is handled |
| ToolDispatch.DispatchFailure | agent_system.py:366-389 | a failed round stops at one call whose arguments did not decode or whose handler raised, and its replies are those of the calls before it |
| Tools.AdvertisedToolsAreDispatchable | agent_system.py:183-284 | the advertised tool names are distinct and are exactly the dispatch table's keys |
| Tools.WeatherReportTellsKnownCity | agent_system.py:75-82 | the report is one of the table's entries exactly when the city is in the table, so the default report for any other city never passes for a known one |
| Tools.GuardShieldsEvaluator | agent_system.py:96-98 | an expression with a character outside `0123456789+-*/(). ` gets the fixed rejection, whatever the evaluator would do |
| Tools.AllowedReachesEvaluator | agent_system.py:96-107 | an allowed expression's reply is the evaluator's value or error text and never the rejection |
| Tools.AllowedConcat | agent_system.py:97 | the guard accepts a concatenation exactly when it accepts both parts |
| Tools.ImportIsRejected | agent_system.py:96-98 | `__import__('os')` does not pass the guard |
| Text.Decimal | agent_system.py:174 | the rendering of a number is non-empty, all decimal digits, without a leading zero unless the number is 0 |
| Text.DecimalRoundTrip | agent_system.py:174 | reading the rendered digits back gives the number |
| Todos.Listing | agent_system.py:168-177 | the listing is the fixed empty text exactly when the list is empty, and otherwise the header followed by the item lines |
| Todos.LinesConcat | agent_system.py:172-174 | the lines of a concatenation are the lines of the first part followed by those of the second |
| Todos.ListingInOrder | agent_system.py:171-174 | the listing is the header, the lines of the items before k, item k's line and the lines of the items after it |
| Todos.ListingAfterAdd | agent_system.py:146-153 | adding an item appends exactly its line to the listing |
| Todos.TodoList.constructor | agent_system.py:42 | the to-do list starts empty |
| Todos.TodoList.AddTodo | agent_system.py:138-158 | appends one open item with id one past the previous length; earlier items are unchanged; the ids stay 1, 2, 3, ...; replies "已添加待办事项: {content}" |
| Todos.TodoList.GetTodoList | agent_system.py:160-177 | the loop builds exactly `Listing` of the items |
| Todos.TodoList.ClearTodos | agent_system.py:510-520 | the list becomes empty; the count reported is its previous length, in "已清空 {count} 个待办事项" |

## Left out

- The web surface is not modelled: the FastAPI app, CORS, the endpoints and their error mapping, and the startup banner. This includes `/chat`'s `clear_history` flag, which only empties the history before a turn, as `ClearHistory` does. It also includes the `/todos` listing and `/health`.
- The language-model client is not modelled. It is a network service. Its two replies are the parameters `first` and `second`. What the code sends it is not modelled either: the history, the tool schemas on the first call only, the model name `glm-4` and the temperature 0.3. So a reply may be any value.
- Tool handlers are abstract, apart from the weather lookup and the calculator guard. So an `add_todo` or `get_todo_list` call dispatched inside a turn is not connected to the `TodoList` state. `TodoList` models those two handlers on their own. A handler's result is modelled as depending only on the tool and its decoded arguments. So within one round, two `get_current_time` calls answer alike, and so do two `get_todo_list` calls around an `add_todo`; the code may answer differently in both cases.
- `search_web` is not modelled. It only builds a constant mock text.
- `get_current_time` and the to-do timestamps are not modelled, because they read the wall clock. The timestamp is a text parameter.
- The calculator's `eval` is not modelled. It evaluates arbitrary Python with floating-point results. It is the `evaluate` parameter.
- Python `None` as a reply's text is modelled as the empty string. The code turns `None` into `""` for the tool-call message. It stores `None` as the final answer.
- The `type` field copied into each recorded tool call is always `"function"`, so it is not modelled.
- The `print` logging is not modelled, and neither is `init_zhipu`'s read of the environment.
- Concurrency is not modelled: the code has none. The model is sequential.
