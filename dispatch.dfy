/**
 * The tool-call dispatcher `Me.handle_tool_call` (app.py:120-159) with its
 * duplicate guard, the set `tool_call_history` (app.py:109), and the
 * bookkeeping of `Me.chat` (app.py:187-203) that resets the guard each turn.
 *
 * `Handle` and `Run` state what one call and a list of calls do; the class
 * `Me` holds the mutable guard and its methods are proved against them.
 */
module Dispatch {
  import opened Wrappers
  import opened Sequences
  import opened Messages
  import opened Tools

  /** A tool call requested by the completion endpoint; `arguments` is JSON text. */
  datatype ToolCall = ToolCall(id: string, name: string, arguments: string)

  /** `json.loads` on the argument text: None when the text is not JSON or not a JSON object. */
  type Decoder = string -> Option<Args>

  /** The guard key of every `record_user_details` call. */
  const DetailsPrefix: string := RecordUserDetails + ":"

  /** `arguments.get('email', '')` */
  function EmailOf(args: Args): (e: string)
    ensures "email" !in args ==> e == ""
    ensures "email" in args ==> e == args["email"]
  {
    ArgOr(args, "email", "")
  }

  /** The guard key `name + ":" + email` of app.py:128. */
  function CallKey(name: string, args: Args): (k: string)
    ensures |k| == |name| + 1 + |EmailOf(args)|
    ensures k[..|name| + 1] == name + ":" && k[|name| + 1..] == EmailOf(args)
  {
    name + ":" + EmailOf(args)
  }

  /** Two calls of one tool share a guard key exactly when they carry the same email. */
  lemma CallKeySameToolIff(name: string, a: Args, b: Args)
    ensures CallKey(name, a) == CallKey(name, b) <==> EmailOf(a) == EmailOf(b)
  {
  }

  /** A key `record_user_details:` followed by a non-empty email. */
  predicate IsDetailsKey(k: string) {
    |k| > |DetailsPrefix| && DetailsPrefix <= k
  }

  /** The `tool` message appended for an answered call. */
  function ToolResult(id: string, content: string): (m: Message)
    ensures IsClean(m) && "role" in m && m["role"] == Str("tool")
    ensures "tool_call_id" in m && m["tool_call_id"] == Str(id)
  {
    map["role" := Str("tool"), "content" := Str(content), "tool_call_id" := Str(id)]
  }

  /** What one call contributes: at most one result message and at most one notification. */
  datatype Outcome = Outcome(result: Option<Message>, notice: Option<Notice>)

  /** A skipped call: no result, no notification. */
  const Skipped: Outcome := Outcome(None, None)

  /** The guard after one call, and that call's outcome. */
  datatype Step = Step(history: set<string>, outcome: Outcome)

  /** A `tool` message answering call `id` with one of the two results a tool can give. */
  predicate IsResultFor(m: Message, id: string) {
    m == ToolResult(id, RecordedOk) || m == ToolResult(id, EmptyObject)
  }

  /** The outcome's result, when there is one, answers `call`. */
  predicate AnswersCall(o: Outcome, call: ToolCall) {
    o.result.Some? ==> IsResultFor(o.result.value, call.id)
  }

  /** One pass of the loop body of app.py:122-157 against the guard `h`. */
  function Handle(h: set<string>, call: ToolCall, decode: Decoder): (s: Step)
    // undecodable arguments: skipped, guard unchanged
    ensures decode(call.arguments).None? ==> s == Step(h, Skipped)
    // a key already in the guard: skipped, guard unchanged
    ensures decode(call.arguments).Some? && CallKey(call.name, decode(call.arguments).value) in h ==>
      s == Step(h, Skipped)
    // record_user_details without an email: skipped, guard unchanged
    ensures decode(call.arguments).Some? && call.name == RecordUserDetails &&
            EmailOf(decode(call.arguments).value) == "" ==>
      s == Step(h, Skipped)
    // the guard only grows, and only by the key of a record_user_details call with an email
    ensures h <= s.history
    ensures s.history != h ==>
      call.name == RecordUserDetails && decode(call.arguments).Some? &&
      EmailOf(decode(call.arguments).value) != "" &&
      s.history == h + {DetailsPrefix + EmailOf(decode(call.arguments).value)}
    // a result, when there is one, is a `tool` message for this call's id
    ensures AnswersCall(s.outcome, call)
    // a notification comes only with a result, and only from a tool that ran
    ensures s.outcome.notice.Some? ==>
      s.outcome.result.Some? && decode(call.arguments).Some? &&
      Invoke(call.name, decode(call.arguments).value) == Returned(s.outcome.result.value["content"].s, s.outcome.notice)
    // a user-details notification is for a non-empty email not yet in the guard, and records it there
    ensures s.outcome.notice.Some? && s.outcome.notice.value.UserDetails? ==>
      var e := s.outcome.notice.value.email;
      e != "" && DetailsPrefix + e !in h && s.history == h + {DetailsPrefix + e}
    // a name outside the registry, past the guard: the empty object, no notification
    ensures decode(call.arguments).Some? && CallKey(call.name, decode(call.arguments).value) !in h &&
            call.name != RecordUserDetails && call.name != RecordUnknownQuestion ==>
      s == Step(h, Outcome(Some(ToolResult(call.id, EmptyObject)), None))
    // a call past both checks whose tool returns: answered with the tool's result and notification
    ensures decode(call.arguments).Some? && CallKey(call.name, decode(call.arguments).value) !in h &&
            (call.name != RecordUserDetails || EmailOf(decode(call.arguments).value) != "") &&
            Invoke(call.name, decode(call.arguments).value).Returned? ==>
      var r := Invoke(call.name, decode(call.arguments).value);
      s.outcome == Outcome(Some(ToolResult(call.id, r.content)), r.notice)
    // a tool that raises: no result and no notification
    ensures decode(call.arguments).Some? && Invoke(call.name, decode(call.arguments).value).Raised? ==>
      s.outcome == Skipped
    // ... but a record_user_details call with a fresh, non-empty email has its key recorded first
    ensures decode(call.arguments).Some? && call.name == RecordUserDetails &&
            EmailOf(decode(call.arguments).value) != "" &&
            CallKey(call.name, decode(call.arguments).value) !in h ==>
      s.history == h + {CallKey(call.name, decode(call.arguments).value)}
  {
    match decode(call.arguments)
    case None => Step(h, Skipped)
    case Some(args) =>
      var key := CallKey(call.name, args);
      if key in h then Step(h, Skipped)
      else if call.name == RecordUserDetails && EmailOf(args) == "" then Step(h, Skipped)
      else
        var h' := if call.name == RecordUserDetails then h + {key} else h;
        match Invoke(call.name, args)
        case Raised => Step(h', Skipped)
        case Returned(content, notice) => Step(h', Outcome(Some(ToolResult(call.id, content)), notice))
  }

  /** The guard after a list of calls, and each call's outcome in request order. */
  datatype RunState = RunState(history: set<string>, outcomes: seq<Outcome>)

  /** handle_tool_call over `calls`, one call after another, starting from the guard `h`. */
  function Run(h: set<string>, calls: seq<ToolCall>, decode: Decoder): (r: RunState)
    ensures |r.outcomes| == |calls|
  {
    if calls == [] then RunState(h, [])
    else
      var prev := Run(h, calls[..|calls| - 1], decode);
      var s := Handle(prev.history, calls[|calls| - 1], decode);
      RunState(s.history, prev.outcomes + [s.outcome])
  }

  predicate Answered(o: Outcome) {
    o.result.Some?
  }

  /** The `results` list: the result messages of the outcomes, in order. */
  function Results(outs: seq<Outcome>): (r: seq<Message>)
    ensures |r| <= |outs|
  {
    if outs == [] then []
    else
      var last := outs[|outs| - 1];
      Results(outs[..|outs| - 1]) + (if last.result.Some? then [last.result.value] else [])
  }

  /** The notifications pushed, in order. */
  function Notices(outs: seq<Outcome>): (r: seq<Notice>)
    ensures |r| <= |outs|
  {
    if outs == [] then []
    else
      var last := outs[|outs| - 1];
      Notices(outs[..|outs| - 1]) + (if last.notice.Some? then [last.notice.value] else [])
  }

  lemma {:induction false} ResultsAppend(a: seq<Outcome>, b: seq<Outcome>)
    ensures Results(a + b) == Results(a) + Results(b)
  {
    if b == [] {
      assert a + b == a;
    } else {
      ResultsAppend(a, b[..|b| - 1]);
      assert (a + b)[..|a + b| - 1] == a + b[..|b| - 1];
    }
  }

  lemma {:induction false} NoticesAppend(a: seq<Outcome>, b: seq<Outcome>)
    ensures Notices(a + b) == Notices(a) + Notices(b)
  {
    if b == [] {
      assert a + b == a;
    } else {
      NoticesAppend(a, b[..|b| - 1]);
      assert (a + b)[..|a + b| - 1] == a + b[..|b| - 1];
    }
  }

  /** The result messages are exactly those of the answered outcomes, in order. */
  lemma {:induction false} ResultsAtPositions(outs: seq<Outcome>)
    ensures |Results(outs)| == |Positions(outs, Answered)|
    ensures forall j :: 0 <= j < |Results(outs)| ==>
      outs[Positions(outs, Answered)[j]].result == Some(Results(outs)[j])
  {
    if outs != [] {
      var prefix := outs[..|outs| - 1];
      var last := outs[|outs| - 1];
      ResultsAtPositions(prefix);
      var p, q := Positions(outs, Answered), Positions(prefix, Answered);
      assert p == q + (if Answered(last) then [|outs| - 1] else []);
      assert Results(outs) == Results(prefix) + (if last.result.Some? then [last.result.value] else []);
      forall j | 0 <= j < |Results(outs)|
        ensures outs[p[j]].result == Some(Results(outs)[j])
      {
        if j < |q| {
          assert p[j] == q[j] && outs[q[j]] == prefix[q[j]];
        }
      }
    }
  }

  /** Handling `a + b` is handling `a`, then handling `b` from the guard `a` left. */
  lemma {:induction false} RunAppend(h: set<string>, a: seq<ToolCall>, b: seq<ToolCall>, decode: Decoder)
    ensures var ra := Run(h, a, decode);
            var rb := Run(ra.history, b, decode);
            Run(h, a + b, decode) == RunState(rb.history, ra.outcomes + rb.outcomes)
  {
    if b == [] {
      assert a + b == a;
    } else {
      var b' := b[..|b| - 1];
      RunAppend(h, a, b', decode);
      assert (a + b)[..|a + b| - 1] == a + b';
    }
  }

  /** Call `i` is handled against the guard that the calls before it left. */
  lemma {:induction false} RunAt(h: set<string>, calls: seq<ToolCall>, i: nat, decode: Decoder)
    requires i < |calls|
    ensures var before := Run(h, calls[..i], decode).history;
            var s := Handle(before, calls[i], decode);
            Run(h, calls, decode).outcomes[i] == s.outcome &&
            Run(h, calls[..i + 1], decode).history == s.history
  {
    assert calls[..i + 1][..i] == calls[..i];
    RunAppend(h, calls[..i + 1], calls[i + 1..], decode);
    assert calls[..i + 1] + calls[i + 1..] == calls;
  }

  /** Within handle_tool_call the guard only grows, and only by `record_user_details:` keys with an email. */
  lemma {:induction false} HistoryOnlyGrows(h: set<string>, calls: seq<ToolCall>, decode: Decoder)
    ensures h <= Run(h, calls, decode).history
    ensures forall k :: k in Run(h, calls, decode).history && k !in h ==> IsDetailsKey(k)
  {
    if calls != [] {
      HistoryOnlyGrows(h, calls[..|calls| - 1], decode);
    }
  }

  /** The guard after the first `i` calls is contained in the guard after the first `j`. */
  lemma {:induction false} HistoryMonotone(h: set<string>, calls: seq<ToolCall>, i: nat, j: nat, decode: Decoder)
    requires i <= j <= |calls|
    ensures Run(h, calls[..i], decode).history <= Run(h, calls[..j], decode).history
  {
    assert calls[..j] == calls[..i] + calls[i..j];
    RunAppend(h, calls[..i], calls[i..j], decode);
    HistoryOnlyGrows(Run(h, calls[..i], decode).history, calls[i..j], decode);
  }

  /** Every result is a `tool` message carrying its call's id, and the results follow request order. */
  lemma {:induction false} ResultsFollowRequests(h: set<string>, calls: seq<ToolCall>, decode: Decoder)
    ensures var outs := Run(h, calls, decode).outcomes;
            var p := Positions(outs, Answered);
            |Results(outs)| == |p| <= |calls| &&
            forall j :: 0 <= j < |p| ==> IsResultFor(Results(outs)[j], calls[p[j]].id)
  {
    var outs := Run(h, calls, decode).outcomes;
    var p := Positions(outs, Answered);
    ResultsAtPositions(outs);
    forall j | 0 <= j < |p|
      ensures IsResultFor(Results(outs)[j], calls[p[j]].id)
    {
      RunAt(h, calls, p[j], decode);
    }
  }

  /** Every result message survives the sanitiser unchanged. */
  lemma {:induction false} ResultsAreClean(h: set<string>, calls: seq<ToolCall>, decode: Decoder)
    ensures forall j :: 0 <= j < |Results(Run(h, calls, decode).outcomes)| ==>
      IsClean(Results(Run(h, calls, decode).outcomes)[j])
  {
    ResultsFollowRequests(h, calls, decode);
  }

  /** The outcome pushed a notification. */
  predicate Notified(o: Outcome) {
    o.notice.Some?
  }

  /** The pushed log holds the notification of each notifying call, one per call, in request order. */
  lemma {:induction false} NoticesAtPositions(outs: seq<Outcome>)
    ensures |Notices(outs)| == |Positions(outs, Notified)|
    ensures forall j :: 0 <= j < |Notices(outs)| ==>
      outs[Positions(outs, Notified)[j]].notice == Some(Notices(outs)[j])
  {
    if outs != [] {
      var prefix := outs[..|outs| - 1];
      var last := outs[|outs| - 1];
      NoticesAtPositions(prefix);
      var p, q := Positions(outs, Notified), Positions(prefix, Notified);
      assert p == q + (if Notified(last) then [|outs| - 1] else []);
      assert Notices(outs) == Notices(prefix) + (if last.notice.Some? then [last.notice.value] else []);
      forall j | 0 <= j < |Notices(outs)|
        ensures outs[p[j]].notice == Some(Notices(outs)[j])
      {
        if j < |q| {
          assert p[j] == q[j] && outs[q[j]] == prefix[q[j]];
        }
      }
    }
  }

  /** Outcome `o` notifies about the contact details of `e`. */
  predicate NotifiesEmail(o: Outcome, e: string) {
    o.notice.Some? && o.notice.value.UserDetails? && o.notice.value.email == e
  }

  /** A user-details notification at call `i`: its key was absent before call `i` and present after it. */
  lemma {:induction false} NotifiedKeyAt(h: set<string>, calls: seq<ToolCall>, i: nat, e: string, decode: Decoder)
    requires i < |calls| && NotifiesEmail(Run(h, calls, decode).outcomes[i], e)
    ensures e != "" && DetailsPrefix + e !in h
    ensures DetailsPrefix + e !in Run(h, calls[..i], decode).history
    ensures DetailsPrefix + e in Run(h, calls[..i + 1], decode).history
  {
    RunAt(h, calls, i, decode);
    HistoryOnlyGrows(h, calls[..i], decode);
  }

  /**
   * Within one lifetime of the guard, each email triggers at most one
   * `record_user_details` notification, never for an empty email and never
   * for an email whose key the guard held at the start.
   */
  lemma {:induction false} EmailNotifiedAtMostOnce(h: set<string>, calls: seq<ToolCall>, decode: Decoder)
    ensures forall i, e :: 0 <= i < |calls| && NotifiesEmail(Run(h, calls, decode).outcomes[i], e) ==>
              |e| > 0 && DetailsPrefix + e !in h
    ensures var outs := Run(h, calls, decode).outcomes;
            forall i, j, e ::
              (0 <= i < |outs| && 0 <= j < |outs| && NotifiesEmail(outs[i], e) && NotifiesEmail(outs[j], e))
              ==> i == j
  {
    forall i, e | 0 <= i < |calls| && NotifiesEmail(Run(h, calls, decode).outcomes[i], e)
      ensures |e| > 0 && DetailsPrefix + e !in h
    {
      NotifiedKeyAt(h, calls, i, e, decode);
    }
    var outs := Run(h, calls, decode).outcomes;
    forall i, j, e | 0 <= i < |outs| && 0 <= j < |outs| && NotifiesEmail(outs[i], e) && NotifiesEmail(outs[j], e)
      ensures i == j
    {
      NotifiedKeyAt(h, calls, i, e, decode);
      NotifiedKeyAt(h, calls, j, e, decode);
      if i < j {
        HistoryMonotone(h, calls, i + 1, j, decode);
      } else if j < i {
        HistoryMonotone(h, calls, j + 1, i, decode);
      }
    }
  }

  /**
   * `record_unknown_question` keys never enter the guard, so such calls are
   * never deduplicated: from a guard holding only user-details keys (the empty
   * one `chat` starts with), every call whose arguments decode to exactly
   * `question` sends one notification for that question and gets `{"recorded": "ok"}`.
   */
  lemma {:induction false} UnknownQuestionNeverDeduplicated(h: set<string>, calls: seq<ToolCall>, i: nat, args: Args, decode: Decoder)
    requires forall k :: k in h ==> IsDetailsKey(k)
    requires i < |calls| && calls[i].name == RecordUnknownQuestion
    requires decode(calls[i].arguments) == Some(args) && args.Keys == {"question"}
    ensures Run(h, calls, decode).outcomes[i] ==
      Outcome(Some(ToolResult(calls[i].id, RecordedOk)), Some(UnknownQuestion(args["question"])))
  {
    RunAt(h, calls, i, decode);
    HistoryOnlyGrows(h, calls[..i], decode);
    var key := CallKey(calls[i].name, args);
    assert key[8] != DetailsPrefix[8];
    assert !IsDetailsKey(key);
  }

  /**
   * The pushed log of one lifetime of the guard holds at most one
   * `record_user_details` notification per email, never one for an empty
   * email, and none for an email whose key the guard held at the start.
   */
  lemma {:induction false} EmailPushedAtMostOnce(h: set<string>, calls: seq<ToolCall>, decode: Decoder)
    ensures var ns := Notices(Run(h, calls, decode).outcomes);
            forall i :: 0 <= i < |ns| && ns[i].UserDetails? ==>
              |ns[i].email| > 0 && DetailsPrefix + ns[i].email !in h
    ensures var ns := Notices(Run(h, calls, decode).outcomes);
            forall i, j :: 0 <= i < j < |ns| && ns[i].UserDetails? && ns[j].UserDetails? ==>
              ns[i].email != ns[j].email
  {
    var outs := Run(h, calls, decode).outcomes;
    var ns := Notices(outs);
    var p := Positions(outs, Notified);
    NoticesAtPositions(outs);
    forall i | 0 <= i < |ns| && ns[i].UserDetails?
      ensures |ns[i].email| > 0 && DetailsPrefix + ns[i].email !in h
    {
      NotifiedKeyAt(h, calls, p[i], ns[i].email, decode);
    }
    forall i, j | 0 <= i < j < |ns| && ns[i].UserDetails? && ns[j].UserDetails?
      ensures ns[i].email != ns[j].email
    {
      if ns[i].email == ns[j].email {
        var e := ns[i].email;
        NotifiedKeyAt(h, calls, p[i], e, decode);
        NotifiedKeyAt(h, calls, p[j], e, decode);
        HistoryMonotone(h, calls, p[i] + 1, p[j], decode);
      }
    }
  }

  /**
   * Each `record_unknown_question` call whose arguments are exactly `question`
   * pushes its question: it sits in the log right after the notifications of
   * the calls before it.
   */
  lemma {:induction false} UnknownQuestionPushed(h: set<string>, calls: seq<ToolCall>, i: nat, args: Args, decode: Decoder)
    requires forall k :: k in h ==> IsDetailsKey(k)
    requires i < |calls| && calls[i].name == RecordUnknownQuestion
    requires decode(calls[i].arguments) == Some(args) && args.Keys == {"question"}
    ensures var outs := Run(h, calls, decode).outcomes;
            var before := |Notices(outs[..i])|;
            before < |Notices(outs)| && Notices(outs)[before] == UnknownQuestion(args["question"])
  {
    var outs := Run(h, calls, decode).outcomes;
    UnknownQuestionNeverDeduplicated(h, calls, i, args, decode);
    assert outs == outs[..i] + [outs[i]] + outs[i + 1..];
    NoticesAppend(outs[..i] + [outs[i]], outs[i + 1..]);
    NoticesAppend(outs[..i], [outs[i]]);
    assert [outs[i]][..0] == [];
    assert Notices([outs[i]]) == [UnknownQuestion(args["question"])];
  }

  /**
   * The same `record_user_details` call twice in one turn: the first is
   * answered and notifies, the second is skipped as a duplicate. Since `chat`
   * empties the guard at the start of each turn, a later turn notifies again.
   */
  lemma {:induction false} SameDetailsTwiceInOneTurn(call: ToolCall, args: Args, decode: Decoder)
    requires call.name == RecordUserDetails && decode(call.arguments) == Some(args)
    requires EmailOf(args) != "" && args.Keys <= UserDetailsParams
    ensures Run({}, [call, call], decode).outcomes ==
      [Outcome(Some(ToolResult(call.id, RecordedOk)),
               Some(UserDetails(EmailOf(args), ArgOr(args, "name", "Name not provided"),
                                ArgOr(args, "notes", "not provided")))),
       Skipped]
    ensures Run({}, [call, call], decode).history == {DetailsPrefix + EmailOf(args)}
  {
    assert [call, call][..1] == [call];
    assert [call][..0] == [];
    var key := CallKey(call.name, args);
    assert key == DetailsPrefix + EmailOf(args);
    var first := Handle({}, call, decode);
    assert first == Step({key}, Outcome(Some(ToolResult(call.id, RecordedOk)),
      Some(UserDetails(EmailOf(args), ArgOr(args, "name", "Name not provided"), ArgOr(args, "notes", "not provided")))));
    assert Run({}, [call], decode) == RunState(first.history, [first.outcome]);
    var second := Handle(first.history, call, decode);
    assert second == Step({key}, Skipped);
  }

  /** One more call: the state after `calls[..i + 1]` extends the state after `calls[..i]` by one step. */
  lemma {:induction false} RunStep(h: set<string>, calls: seq<ToolCall>, i: nat, decode: Decoder)
    requires i < |calls|
    ensures var prev := Run(h, calls[..i], decode);
            var s := Handle(prev.history, calls[i], decode);
            var next := Run(h, calls[..i + 1], decode);
            next == RunState(s.history, prev.outcomes + [s.outcome]) &&
            Results(next.outcomes) == Results(prev.outcomes) + (if s.outcome.result.Some? then [s.outcome.result.value] else []) &&
            Notices(next.outcomes) == Notices(prev.outcomes) + (if s.outcome.notice.Some? then [s.outcome.notice.value] else [])
  {
    assert calls[..i + 1][..i] == calls[..i];
    var prev := Run(h, calls[..i], decode);
    var s := Handle(prev.history, calls[i], decode);
    assert (prev.outcomes + [s.outcome])[..|prev.outcomes|] == prev.outcomes;
  }

  /** The opening message list of a turn: system prompt, visible history, user message (app.py:189). */
  function Opening(systemPrompt: string, history: seq<Item>, message: string): (r: seq<Item>)
    ensures |r| == |history| + 2
    ensures r[0] == Dict(map["role" := Str("system"), "content" := Str(systemPrompt)])
    ensures r[1..|r| - 1] == history
    ensures r[|r| - 1] == Dict(map["role" := Str("user"), "content" := Str(message)])
  {
    [Dict(map["role" := Str("system"), "content" := Str(systemPrompt)])] + history +
    [Dict(map["role" := Str("user"), "content" := Str(message)])]
  }

  /** The first request of a turn: the system prompt, the sanitised history and the user message. */
  lemma {:induction false} OpeningCleaned(systemPrompt: string, history: seq<Item>, message: string)
    ensures Cleaned(Opening(systemPrompt, history, message)) ==
            [map["role" := Str("system"), "content" := Str(systemPrompt)]] + Cleaned(history) +
            [map["role" := Str("user"), "content" := Str(message)]]
  {
    var sys := map["role" := Str("system"), "content" := Str(systemPrompt)];
    var user := map["role" := Str("user"), "content" := Str(message)];
    CleanedAppend([Dict(sys)] + history, [Dict(user)]);
    CleanedAppend([Dict(sys)], history);
    assert [Dict(sys)] == AsItems([sys]);
    assert [Dict(user)] == AsItems([user]);
    CleanedFixpoint([sys]);
    CleanedFixpoint([user]);
  }

  /** The tool calls of several completion rounds, in order. */
  function Flatten(rounds: seq<seq<ToolCall>>): (r: seq<ToolCall>)
    ensures rounds == [] ==> r == []
  {
    if rounds == [] then [] else Flatten(rounds[..|rounds| - 1]) + rounds[|rounds| - 1]
  }

  /** The kind of the completion client's message object appended at app.py:199: not a dictionary. */
  const AssistantMessage: string := "ChatCompletionMessage"

  /** One more completion round: the state after `rounds[..k + 1]` is the state after `rounds[..k]` followed by round `k`. */
  lemma {:induction false} RoundStep(rounds: seq<seq<ToolCall>>, k: nat, decode: Decoder)
    requires k < |rounds|
    ensures var before := Run({}, Flatten(rounds[..k]), decode);
            var batch := Run(before.history, rounds[k], decode);
            var after := Run({}, Flatten(rounds[..k + 1]), decode);
            after.history == batch.history &&
            Results(after.outcomes) == Results(before.outcomes) + Results(batch.outcomes) &&
            Notices(after.outcomes) == Notices(before.outcomes) + Notices(batch.outcomes)
  {
    assert rounds[..k + 1][..k] == rounds[..k];
    var before := Run({}, Flatten(rounds[..k]), decode);
    var batch := Run(before.history, rounds[k], decode);
    RunAppend({}, Flatten(rounds[..k]), rounds[k], decode);
    ResultsAppend(before.outcomes, batch.outcomes);
    NoticesAppend(before.outcomes, batch.outcomes);
  }

  /** After a round, the sanitised list grows by exactly that round's results: the client's message object is dropped. */
  lemma {:induction false} CleanedAfterRound(previous: seq<Item>, results: seq<Message>)
    requires forall j :: 0 <= j < |results| ==> IsClean(results[j])
    ensures Cleaned(previous + [NonDict(AssistantMessage)] + AsItems(results)) == Cleaned(previous) + results
  {
    CleanedAppend(previous + [NonDict(AssistantMessage)], AsItems(results));
    CleanedDropsNonDict(previous, AssistantMessage);
    CleanedFixpoint(results);
  }

  /** The sanitised list after appending the client's message object and clean results. */
  lemma {:induction false} CleanedExtends(messages: seq<Item>, results: seq<Message>, start: seq<Message>, sofar: seq<Message>, total: seq<Message>)
    requires forall j :: 0 <= j < |results| ==> IsClean(results[j])
    requires Cleaned(messages) == start + sofar && total == sofar + results
    ensures Cleaned(messages + [NonDict(AssistantMessage)] + AsItems(results)) == start + total
  {
    CleanedAfterRound(messages, results);
    assert (start + sofar) + results == start + (sofar + results);
  }

  /** Notifications pushed in two stretches, as one; kept apart so that `ChatRoundGuard` stays small. */
  lemma NoticesExtend(p0: seq<Notice>, p1: seq<Notice>, p2: seq<Notice>, a: seq<Notice>, b: seq<Notice>, c: seq<Notice>)
    requires p1 == p0 + a && p2 == p1 + b && c == a + b
    ensures p2 == p0 + c
  {
  }

  /** After completion round `k` of `chat` (app.py:195-200), the sanitised list holds the opening and every result so far. */
  lemma {:induction false} ChatRoundMessages(rounds: seq<seq<ToolCall>>, k: nat, decode: Decoder, start: seq<Message>,
                          messages: seq<Item>, results: seq<Message>)
    requires k < |rounds|
    requires Cleaned(messages) == start + Results(Run({}, Flatten(rounds[..k]), decode).outcomes)
    requires results == Results(Run(Run({}, Flatten(rounds[..k]), decode).history, rounds[k], decode).outcomes)
    ensures Cleaned(messages + [NonDict(AssistantMessage)] + AsItems(results)) ==
            start + Results(Run({}, Flatten(rounds[..k + 1]), decode).outcomes)
  {
    var before := Run({}, Flatten(rounds[..k]), decode);
    var batch := Run(before.history, rounds[k], decode);
    var after := Run({}, Flatten(rounds[..k + 1]), decode);
    RoundStep(rounds, k, decode);
    ResultsAreClean(before.history, rounds[k], decode);
    CleanedExtends(messages, results, start, Results(before.outcomes), Results(after.outcomes));
  }

  /** After completion round `k` of `chat`, the guard and the pushed notifications are those of every call so far. */
  lemma {:induction false} ChatRoundGuard(rounds: seq<seq<ToolCall>>, k: nat, decode: Decoder,
                       pushed0: seq<Notice>, pushed1: seq<Notice>, pushed2: seq<Notice>)
    requires k < |rounds|
    requires pushed1 == pushed0 + Notices(Run({}, Flatten(rounds[..k]), decode).outcomes)
    requires pushed2 == pushed1 + Notices(Run(Run({}, Flatten(rounds[..k]), decode).history, rounds[k], decode).outcomes)
    ensures var after := Run({}, Flatten(rounds[..k + 1]), decode);
            pushed2 == pushed0 + Notices(after.outcomes) &&
            after.history == Run(Run({}, Flatten(rounds[..k]), decode).history, rounds[k], decode).history
  {
    RoundStep(rounds, k, decode);
    NoticesExtend(pushed0, pushed1, pushed2,
      Notices(Run({}, Flatten(rounds[..k]), decode).outcomes),
      Notices(Run(Run({}, Flatten(rounds[..k]), decode).history, rounds[k], decode).outcomes),
      Notices(Run({}, Flatten(rounds[..k + 1]), decode).outcomes));
  }

  /**
   * The lists `chat` sends to the completion endpoint during a turn whose
   * opening list sanitises to `start`: request `k` carries every result of
   * the first `k` rounds.
   */
  function Transcript(start: seq<Message>, rounds: seq<seq<ToolCall>>, decode: Decoder): (t: seq<seq<Message>>)
    ensures |t| == |rounds| + 1
  {
    seq(|rounds| + 1, k requires 0 <= k <= |rounds| => start + Results(Run({}, Flatten(rounds[..k]), decode).outcomes))
  }

  class Me {
    /** The duplicate guard of app.py:109. */
    var toolCallHistory: set<string>
    /** Every notification pushed so far, in order; stands for the push service. */
    ghost var pushed: seq<Notice>

    /** `Me.__init__` as far as the guard goes (app.py:109). */
    constructor ()
      ensures toolCallHistory == {} && pushed == []
    {
      toolCallHistory := {};
      pushed := [];
    }

    /**
     * The body of the loop of handle_tool_call (app.py:123-157) for one call:
     * each early `return` is one of the source's `continue`s.
     */
    method HandleOne(call: ToolCall, decode: Decoder) returns (result: Option<Message>)
      modifies this
      ensures var s := Handle(old(toolCallHistory), call, decode);
              toolCallHistory == s.history && result == s.outcome.result &&
              pushed == old(pushed) + (if s.outcome.notice.Some? then [s.outcome.notice.value] else [])
    {
      result := None;
      var decoded := decode(call.arguments);
      if decoded.None? {
        return;
      }
      var args := decoded.value;
      var key := CallKey(call.name, args);
      if key in toolCallHistory {
        return;
      }
      if call.name == RecordUserDetails {
        if EmailOf(args) == "" {
          return;
        }
        toolCallHistory := toolCallHistory + {key};
      }
      var invocation := Invoke(call.name, args);
      if invocation.Raised? {
        return;
      }
      if invocation.notice.Some? {
        pushed := pushed + [invocation.notice.value];
      }
      result := Some(ToolResult(call.id, invocation.content));
    }

    /** handle_tool_call: handles each call in order, updating the guard and pushing notifications. */
    method HandleToolCall(toolCalls: seq<ToolCall>, decode: Decoder) returns (results: seq<Message>)
      modifies this
      ensures var r := Run(old(toolCallHistory), toolCalls, decode);
              toolCallHistory == r.history &&
              results == Results(r.outcomes) &&
              pushed == old(pushed) + Notices(r.outcomes)
    {
      ghost var h0 := toolCallHistory;
      results := [];
      for i := 0 to |toolCalls|
        invariant var r := Run(h0, toolCalls[..i], decode);
                  toolCallHistory == r.history &&
                  results == Results(r.outcomes) &&
                  pushed == old(pushed) + Notices(r.outcomes)
      {
        RunStep(h0, toolCalls, i, decode);
        var result := HandleOne(toolCalls[i], decode);
        if result.Some? {
          results := results + [result.value];
        }
      }
      assert toolCalls[..|toolCalls|] == toolCalls;
    }

    /**
     * chat (app.py:187-203): resets the guard, then sends the sanitised
     * message list to the completion endpoint until it stops asking for tools.
     * The endpoint is replaced by `rounds`, the tool-call batches it requests
     * before it answers, so the `while not done` loop runs once per batch
     * (send, handle the calls, append the client's message object and the
     * results) and the last request, the one answered with text, follows it.
     * `sent[k]` is the list sent on the `k`-th request.
     */
    method Chat(systemPrompt: string, history: seq<Item>, message: string,
                rounds: seq<seq<ToolCall>>, decode: Decoder) returns (sent: seq<seq<Message>>)
      modifies this
      ensures var r := Run({}, Flatten(rounds), decode);
              toolCallHistory == r.history && pushed == old(pushed) + Notices(r.outcomes)
      ensures |sent| == |rounds| + 1
      ensures forall k :: 0 <= k < |sent| ==>
        sent[k] == Cleaned(Opening(systemPrompt, history, message)) +
                   Results(Run({}, Flatten(rounds[..k]), decode).outcomes)
    {
      toolCallHistory := {};
      var messages := Opening(systemPrompt, history, message);
      ghost var start := Cleaned(messages);
      ghost var transcript := Transcript(start, rounds, decode);
      ghost var state := RunState({}, []);
      sent := [];
      assert rounds[..0] == [];
      for turn := 0 to |rounds|
        invariant |sent| == turn
        invariant state == Run({}, Flatten(rounds[..turn]), decode)
        invariant toolCallHistory == state.history
        invariant pushed == old(pushed) + Notices(state.outcomes)
        invariant Cleaned(messages) == start + Results(state.outcomes)
        invariant sent == transcript[..turn]
      {
        var msgs := CleanMessages(messages);
        assert transcript[..turn + 1] == transcript[..turn] + [transcript[turn]];
        sent := sent + [msgs];
        ghost var pushedBefore := pushed;
        var results := HandleToolCall(rounds[turn], decode);
        ChatRoundMessages(rounds, turn, decode, start, messages, results);
        ChatRoundGuard(rounds, turn, decode, old(pushed), pushedBefore, pushed);
        messages := messages + [NonDict(AssistantMessage)] + AsItems(results);
        state := Run({}, Flatten(rounds[..turn + 1]), decode);
      }
      var msgs := CleanMessages(messages);
      assert rounds[..|rounds|] == rounds;
      assert transcript[..|rounds| + 1] == transcript[..|rounds|] + [transcript[|rounds|]];
      sent := sent + [msgs];
      assert sent == transcript;
    }
  }
}
