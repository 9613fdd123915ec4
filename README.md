# Message and tool-call bookkeeping of a résumé chat assistant

The assistant answers visitors' questions about one person's career. It forwards
the conversation to a chat-completion endpoint and runs the tools the endpoint
asks for. This model covers the two pieces of its own logic, both in `app.py`.

- **The outbound sanitiser `clean_messages`** (module `Messages`). Before each
  request, every item of the message list that is not a dictionary is dropped.
  Each dictionary is cut down to the keys `role`, `content` and
  `tool_call_id`. A `tool` message without a `tool_call_id` is dropped. The
  spec function `Cleaned` describes the result, and the method `CleanMessages`
  is the source's loop, proved equal to it. The lemmas prove four things: the
  output is exactly the kept items, projected, in their original order; it is
  never longer than the input; cleaning twice equals cleaning once; and a
  non-dictionary object appended to the list never reaches the output.
- **The tool-call dispatcher `Me.handle_tool_call` and its duplicate guard**
  (modules `Tools` and `Dispatch`). For each requested call it does these steps
  in order:
  1. Decode the JSON arguments.
  2. Build the key `name + ":" + email`.
  3. Skip the call if the key is already in `tool_call_history`.
  4. Skip a `record_user_details` call that has no email.
  5. Record a `record_user_details` key.
  6. Look the tool up and call it. A tool sends at most one push notification.
  7. Append a `tool` result message that carries the call id.

  `Handle` is one call, `Run` is a list of calls, and the class `Me` holds the
  guard as a `set<string>` field. Its methods `HandleOne`, `HandleToolCall` and
  `Chat` are proved against `Handle` and `Run`. `Chat` clears the guard at the
  start of every turn, so deduplication only holds within one turn.

Push notifications are kept in a ghost log `Me.pushed` of `Notice` values. The
text of a notice is `Tools.Text`. JSON decoding is a parameter `decode` that
returns `None` on failure. The completion endpoint is an input script `rounds`:
the batches of tool calls it asks for before it gives its final answer.

`Chat`'s contract shows one consequence of the code as written. After each tool
round, `chat` appends the client library's message object (app.py:199). That
object is not a dictionary, so the next `clean_messages` pass drops it. The
endpoint therefore gets the `tool` results without the assistant message that
asked for them: request `k` carries the opening messages and then the results
of the first `k` rounds, and nothing else.

Three behaviours of the code worth stating plainly:
- The sanitiser does not drop a message for lacking a field. It only projects
  keys, and only drops `tool` messages that have no `tool_call_id`.
- The guard in this file lasts one turn, not one session: `chat` resets it at
  app.py:188.
- `record_unknown_question` is never deduplicated. Its key is
  `record_unknown_question:` plus the email argument, and no such key is ever
  added to the guard.

## Model

| member | source | states |
|---|---|---|
| `Messages.Project` | app.py:46-51 | a cleaned dictionary keeps exactly the input's keys that are among `role`, `content`, `tool_call_id`, each with its original value |
| `Messages.Cleaned` | app.py:44-56 | the sanitised list is never longer than the input, and every entry has only allowed keys and is not a `tool` message without `tool_call_id` |
| `Messages.CleanMessages` | app.py:44-56 | the source's loop, with its two `continue`s, builds exactly `Cleaned(messages)` |
| `Messages.CleanedKeepsExactly` | app.py:47-56 | the output is the projection of exactly the kept items, one per kept item, in input order (with `Sequences.Positions`: strictly increasing, in range, and containing every kept index) |
| `Messages.KeptIff` | app.py:49-54 | an item survives if and only if it is a dictionary and not a `tool` message lacking `tool_call_id` |
| `Messages.CleanedAppend` | app.py:48-55 | sanitising a concatenation is the concatenation of the sanitised parts, so relative order is kept |
| `Messages.CleanedFixpoint` | app.py:46-55 | a list of messages that are already clean passes through unchanged |
| `Messages.CleanedIdempotent` | app.py:44-56 | applying the sanitiser to its own output changes nothing |
| `Messages.CleanedDropsNonDict` | app.py:49-50 | a non-dictionary item appended to the list (such as the client's message object of app.py:199) never reaches the output |
| `Tools.Text` | app.py:27 | every push text starts with `Recording `. A user-details text goes on with the name, ` with email ` and the email. An unknown-question text (app.py:42) is `Recording ` followed by exactly the question |
| `Tools.NoticeMentionsSubject` | app.py:27 | the push text of `record_user_details` contains the email, and that of `record_unknown_question` (app.py:42) contains the question |
| `Tools.Invoke` | app.py:144-145 | looking up and calling a tool raises exactly when the keyword arguments do not fit the signature (app.py:26, 41). Otherwise the two tools return `{"recorded": "ok"}` with their notification, using the defaults of app.py:26, and any other name returns `{}` with no notification |
| `Dispatch.EmailOf` | app.py:128 | the email argument when there is one, and the empty string when there is not |
| `Dispatch.CallKey` | app.py:128 | the guard key is the tool name, a colon, and then exactly the call's email |
| `Dispatch.CallKeySameToolIff` | app.py:128-132 | two calls of the same tool share a guard key if and only if they carry the same email |
| `Dispatch.ToolResult` | app.py:146-150 | a result message has role `tool`, carries the call id, and is clean |
| `Dispatch.Handle` | app.py:122-157 | one call. Undecodable arguments, a key already in the guard, or a `record_user_details` call without an email: no result, no notification, guard unchanged. The guard only grows, by `record_user_details:` plus a non-empty email. A user-details notification is for an email whose key was absent and is now recorded. A call past both checks whose tool returns gets that tool's JSON result and notification (app.py:144-150). An unregistered name gives `{}`. A tool that raises gives no result, but its user-details key stays recorded |
| `Dispatch.Run` | app.py:121-159 | handling a list of calls gives exactly one outcome per requested call |
| `Dispatch.ResultsAtPositions` | app.py:146-150 | the `results` list holds the result of each answered call, one per call, in request order |
| `Dispatch.NoticesAtPositions` | app.py:121-159 | the pushed log holds the notification of each notifying call, one per call, in request order |
| `Dispatch.RunAppend` | app.py:122-158 | handling `a + b` is handling `a`, then handling `b` from the guard that `a` left |
| `Dispatch.RunAt` | app.py:122-157 | the `i`-th call is handled against the guard left by the calls before it; a failing call does not stop the calls after it |
| `Dispatch.HistoryOnlyGrows` | app.py:142 | within `handle_tool_call` the guard only grows, and every added key is `record_user_details:` plus a non-empty email |
| `Dispatch.HistoryMonotone` | app.py:142 | the guard after the first `i` calls is contained in the guard after the first `j`, for `i <= j` |
| `Dispatch.ResultsFollowRequests` | app.py:121-150 | there are at most as many results as calls. The `j`-th result has role `tool`, content `{"recorded": "ok"}` or `{}`, and the id of the `j`-th answered call |
| `Dispatch.ResultsAreClean` | app.py:146-150 | every result message passes through `clean_messages` unchanged |
| `Dispatch.NotifiedKeyAt` | app.py:128-142 | a `record_user_details` notification at call `i` is for a non-empty email whose key was absent before call `i` and present after it |
| `Dispatch.EmailNotifiedAtMostOnce` | app.py:128-142 | within one lifetime of the guard, each email triggers at most one `record_user_details` notification. It is never for an empty email, and never for an email whose key the guard held at the start |
| `Dispatch.UnknownQuestionNeverDeduplicated` | app.py:128-145 | from a guard that holds only user-details keys (the empty guard of app.py:188 included), every `record_unknown_question` call whose arguments decode to exactly `question` gives one notification for that question and one `{"recorded": "ok"}` result, however often it repeats |
| `Dispatch.EmailPushedAtMostOnce` | app.py:128-145 | in one lifetime of the guard, the pushed log holds at most one `record_user_details` notification per email. It holds none for an empty email, and none for an email whose key the guard held at the start |
| `Dispatch.UnknownQuestionPushed` | app.py:128-145 | from a guard holding only user-details keys, each `record_unknown_question` call with exactly a `question` argument pushes that question. It sits in the log right after the notifications of the calls before it |
| `Dispatch.SameDetailsTwiceInOneTurn` | app.py:128-150 | the same valid `record_user_details` call twice in one turn gives one `{"recorded": "ok"}` result and one notification for that email, then a skip. The guard ends holding just that email's key, which `chat` clears before the next turn (app.py:188) |
| `Dispatch.Opening` | app.py:189 | the opening list of a turn is the system message, then the visible history unchanged, then the user message |
| `Dispatch.OpeningCleaned` | app.py:189-192 | the first request of a turn is the system message, the sanitised history, and the user message |
| `Dispatch.CleanedAfterRound` | app.py:199-200 | after a tool round, the sanitised list grows by exactly that round's results, because the appended client object is dropped |
| `Dispatch.ChatRoundMessages` | app.py:192-200 | after round `k` of a turn, the sanitised list is the sanitised opening followed by every result of rounds `0..k` |
| `Dispatch.Me.constructor` | app.py:109 | a new assistant starts with an empty guard and no notifications |
| `Dispatch.Me.HandleOne` | app.py:123-157 | the loop body for one call, with each `continue` as an early return, updates the guard, the results and the notification log exactly as `Handle` says |
| `Dispatch.Me.HandleToolCall` | app.py:120-159 | the new guard, the returned results and the notifications pushed are exactly those of `Run` from the old guard |
| `Dispatch.Me.Chat` | app.py:187-203 | the guard is cleared at the start of the turn. Afterwards it and the notification log are those of `Run` from the empty guard over all requested calls of the turn. Request `k` carries the sanitised opening messages and then the results of the first `k` rounds |

## Left out

- The push service (app.py:15-23) is an HTTP POST. It is modelled as an append to the ghost log `Me.pushed`. A failing POST, which would raise inside a tool after its key was recorded, is not modelled.
- JSON decoding (`json.loads`) is the parameter `decode`. Its `None` covers both invalid JSON and JSON that is not an object, because both skip the call with the guard unchanged (the second raises at app.py:128). Encoding (`json.dumps`) is the two fixed strings `{"recorded": "ok"}` and `{}`.
- Dispatch.Handle: decoded argument values are strings only. So "no email" (app.py:139) means a missing key or the empty string. Other falsy JSON values such as `null`, `0` or `false`, and the formatting of a non-string email into the key, are not modelled.
- Tools.Invoke: the lookup is `globals().get(name)` (app.py:144), which can resolve any module-level name, for example `push` or `clean_messages`. The model uses a fixed registry of the two tools and gives `{}` for every other name.
- Messages.Value: dictionary values are strings, integers, booleans or null. Nested values are not modelled because the sanitiser never looks inside them.
- The completion clients and the endpoint (app.py:190-203) are an input script of tool-call batches. The final answer text that `chat` returns, the model names, and the tool schemas (app.py:58-100) are not modelled. The `while not done` loop is written as one iteration per tool-call batch followed by the final request. Because the script is finite, an endpoint that never stops asking for tools, which would keep the unbounded loop of app.py:191 running forever, is outside the model.
- `Me.__init__` reading the LinkedIn PDF and the summary file (app.py:110-117) is file I/O and a third-party library. Only the guard's initial value is modelled.
- `system_prompt` (app.py:161-185) is a fixed text. It is the parameter `systemPrompt` of `Chat`.
- `response_generator` (app.py:29-39) uses randomness and sleeps, and nothing calls it.
- The Streamlit page (app.py:207-239) is UI code. This includes the session history and its last-four slice, which `Chat` takes as its `history` parameter.
- The `print` logging in `handle_tool_call` is left out.
