/** The conversational agent: the context window it rebuilds from the stored
    conversation on every message, the switch from a tool's name to its
    handler, and the reply it gives for each kind of model response. The
    language model is an oracle from the window to a completion. */
module Agent {
  import opened Wrappers
  import opened Schema
  import opened AgentTools
  import opened Json

  datatype Role = UserRole | AssistantRole

  function Flip(r: Role): Role
  {
    if r == UserRole then AssistantRole else UserRole
  }

  /** A stored message row of a conversation. */
  datatype Message = Message(
    role: Role,
    content: string,
    isUserMessage: bool,
    functionCalled: Option<string>,
    functionResult: Option<string>,
    createdAt: int)

  /** A message as the model receives it. */
  datatype Turn = Turn(role: Role, content: string)

  function TurnOf(m: Message): Turn
  {
    Turn(m.role, m.content)
  }

  /** The rows in the opposite order (`orderBy: { createdAt: 'desc' }` over
      rows stored oldest first). */
  function Reverse<T>(s: seq<T>): (r: seq<T>)
    ensures |r| == |s|
    ensures forall i :: 0 <= i < |s| ==> r[i] == s[|s| - 1 - i]
  {
    if s == [] then [] else [s[|s| - 1]] + Reverse(s[..|s| - 1])
  }

  // ---- Cut-over: only messages since the last tool call are eligible ----

  /** The time of the newest message that records a tool call, if any. */
  function Cutover(msgs: seq<Message>): Option<int>
  {
    if msgs == [] then None
    else
      var prev := Cutover(msgs[..|msgs| - 1]);
      var m := msgs[|msgs| - 1];
      if m.functionCalled.None? then prev
      else if prev.Some? && prev.value > m.createdAt then prev
      else Some(m.createdAt)
  }

  /** There is a cut-over exactly when some message records a tool call, and
      it is the time of the newest such message. */
  lemma {:induction false} CutoverIsNewestCall(msgs: seq<Message>)
    ensures Cutover(msgs).None? <==> forall m :: m in msgs ==> m.functionCalled.None?
    ensures Cutover(msgs).Some? ==>
      && (exists m :: m in msgs && m.functionCalled.Some? && m.createdAt == Cutover(msgs).value)
      && (forall m :: m in msgs && m.functionCalled.Some? ==> m.createdAt <= Cutover(msgs).value)
  {
    if msgs != [] {
      var init := msgs[..|msgs| - 1];
      var last := msgs[|msgs| - 1];
      CutoverIsNewestCall(init);
      assert msgs == init + [last];
      if Cutover(init).Some? {
        var m :| m in init && m.functionCalled.Some? && m.createdAt == Cutover(init).value;
        assert m in msgs;
      }
      assert last in msgs;
    }
  }

  /** The `createdAt >= t` filter, in stored order. */
  function OnOrAfter(msgs: seq<Message>, t: int): seq<Message>
  {
    if msgs == [] then []
    else
      var last := msgs[|msgs| - 1];
      OnOrAfter(msgs[..|msgs| - 1], t) + (if last.createdAt >= t then [last] else [])
  }

  lemma {:induction false} OnOrAfterMembers(msgs: seq<Message>, t: int)
    ensures forall m :: m in OnOrAfter(msgs, t) <==> m in msgs && m.createdAt >= t
  {
    if msgs != [] {
      OnOrAfterMembers(msgs[..|msgs| - 1], t);
      assert msgs == msgs[..|msgs| - 1] + [msgs[|msgs| - 1]];
    }
  }

  /** The messages the window may draw on: all of them when no tool call was
      ever recorded, otherwise those created at or after the cut-over. */
  function Eligible(msgs: seq<Message>): seq<Message>
  {
    match Cutover(msgs)
    case None => msgs
    case Some(t) => OnOrAfter(msgs, t)
  }

  lemma EligibleMembers(msgs: seq<Message>)
    ensures forall m :: m in Eligible(msgs) <==>
      m in msgs && (Cutover(msgs).None? || m.createdAt >= Cutover(msgs).value)
  {
    if Cutover(msgs).Some? {
      OnOrAfterMembers(msgs, Cutover(msgs).value);
    }
  }

  /** The rows of a conversation are stored in the order of their creation times. */
  predicate InTimeOrder(msgs: seq<Message>)
  {
    forall i, j :: 0 <= i < j < |msgs| ==> msgs[i].createdAt <= msgs[j].createdAt
  }

  lemma {:induction false} OnOrAfterInTimeOrder(msgs: seq<Message>, t: int)
    requires InTimeOrder(msgs)
    ensures InTimeOrder(OnOrAfter(msgs, t))
  {
    if msgs != [] {
      var init := msgs[..|msgs| - 1];
      var last := msgs[|msgs| - 1];
      OnOrAfterInTimeOrder(init, t);
      OnOrAfterMembers(init, t);
      var r := OnOrAfter(init, t);
      forall m | m in r ensures m.createdAt <= last.createdAt {
        var i :| 0 <= i < |init| && init[i] == m;
        assert msgs[i] == m;
      }
      forall i | 0 <= i < |r| ensures r[i].createdAt <= last.createdAt {
        assert r[i] in r;
      }
    }
  }

  /** With rows in time order, reversing the eligible rows lists them newest
      first, the order of `orderBy: { createdAt: 'desc' }`. */
  lemma NewestFirst(msgs: seq<Message>)
    requires InTimeOrder(msgs)
    ensures var h := Reverse(Eligible(msgs));
      forall i, j :: 0 <= i < j < |h| ==> h[i].createdAt >= h[j].createdAt
  {
    var e := Eligible(msgs);
    if Cutover(msgs).Some? {
      OnOrAfterInTimeOrder(msgs, Cutover(msgs).value);
    }
  }

  // ---- The context window ----

  const MaxContextMessages: nat := 3
  const Placeholder: string := "Hello"

  /** The messages the alternation walk accepts from a newest-first history,
      newest first: a message is taken when its role is the expected one,
      which then flips, until `quota` messages are taken. */
  function Picked(history: seq<Message>, expected: Role, quota: nat): (r: seq<Message>)
    decreases |history|
  {
    if history == [] || quota == 0 then []
    else if history[0].role == expected then [history[0]] + Picked(history[1..], Flip(expected), quota - 1)
    else Picked(history[1..], expected, quota)
  }

  /** The same walk without a quota. */
  function Alternation(history: seq<Message>, expected: Role): seq<Message>
    decreases |history|
  {
    if history == [] then []
    else if history[0].role == expected then [history[0]] + Alternation(history[1..], Flip(expected))
    else Alternation(history[1..], expected)
  }

  /** The quota counts accepted messages only: the walk keeps the first
      `quota` messages the unbounded walk would accept. */
  lemma {:induction false} PickedIsQuotaPrefix(history: seq<Message>, expected: Role, quota: nat)
    ensures var a := Alternation(history, expected);
      Picked(history, expected, quota) == a[..if quota < |a| then quota else |a|]
    decreases |history|
  {
    if history != [] && quota != 0 {
      if history[0].role == expected {
        PickedIsQuotaPrefix(history[1..], Flip(expected), quota - 1);
      } else {
        PickedIsQuotaPrefix(history[1..], expected, quota);
      }
    }
  }

  /** At most `quota` messages are taken, the newest has the expected role,
      and each next (older) one has the other role. */
  lemma {:induction false} PickedAlternates(history: seq<Message>, expected: Role, quota: nat)
    ensures var p := Picked(history, expected, quota);
      && |p| <= quota
      && (p != [] ==> p[0].role == expected)
      && forall i :: 0 <= i < |p| - 1 ==> p[i + 1].role == Flip(p[i].role)
    decreases |history|
  {
    if history != [] && quota != 0 {
      if history[0].role == expected {
        PickedAlternates(history[1..], Flip(expected), quota - 1);
      } else {
        PickedAlternates(history[1..], expected, quota);
      }
    }
  }

  /** `a` can be obtained from `b` by deleting elements. */
  predicate SubsequenceOf<T(==)>(a: seq<T>, b: seq<T>)
    decreases |b|
  {
    if a == [] then true
    else if b == [] then false
    else (a[0] == b[0] && SubsequenceOf(a[1..], b[1..])) || SubsequenceOf(a, b[1..])
  }

  /** The walk only drops messages: it keeps the history's order. */
  lemma {:induction false} PickedIsSubsequence(history: seq<Message>, expected: Role, quota: nat)
    ensures SubsequenceOf(Picked(history, expected, quota), history)
    decreases |history|
  {
    if history != [] && quota != 0 {
      if history[0].role == expected {
        PickedIsSubsequence(history[1..], Flip(expected), quota - 1);
      } else {
        PickedIsSubsequence(history[1..], expected, quota);
      }
    }
  }

  /** The turns of newest-first messages, oldest first (what the repeated
      `unshift` builds). */
  function OldestFirst(taken: seq<Message>): (r: seq<Turn>)
    ensures |r| == |taken|
    ensures forall i :: 0 <= i < |taken| ==> r[i] == TurnOf(taken[|taken| - 1 - i])
  {
    if taken == [] then [] else [TurnOf(taken[|taken| - 1])] + OldestFirst(taken[..|taken| - 1])
  }

  /** The walk from position `i` of the history, by index. */
  function PickedFrom(history: seq<Message>, i: nat, expected: Role, quota: nat): seq<Message>
    requires i <= |history|
    decreases |history| - i
  {
    if i == |history| || quota == 0 then []
    else if history[i].role == expected then [history[i]] + PickedFrom(history, i + 1, Flip(expected), quota - 1)
    else PickedFrom(history, i + 1, expected, quota)
  }

  lemma {:induction false} PickedFromIsPicked(history: seq<Message>, i: nat, expected: Role, quota: nat)
    requires i <= |history|
    ensures PickedFrom(history, i, expected, quota) == Picked(history[i..], expected, quota)
    decreases |history| - i
  {
    if i < |history| && quota > 0 {
      assert history[i..][1..] == history[i + 1..];
      PickedFromIsPicked(history, i + 1, Flip(expected), quota - 1);
      PickedFromIsPicked(history, i + 1, expected, quota);
    }
  }

  lemma PickedFromStart(history: seq<Message>, expected: Role, quota: nat)
    ensures PickedFrom(history, 0, expected, quota) == Picked(history, expected, quota)
  {
    PickedFromIsPicked(history, 0, expected, quota);
    assert history[0..] == history;
  }

  lemma OldestFirstSnoc(taken: seq<Message>, msg: Message)
    ensures OldestFirst(taken + [msg]) == [TurnOf(msg)] + OldestFirst(taken)
  {
    assert (taken + [msg])[..|taken|] == taken;
  }

  /** The window sent to the model for a newest-first history and the new
      message. */
  function ContextWindow(history: seq<Message>, userMessage: string): seq<Turn>
  {
    var ctx := OldestFirst(Picked(history, AssistantRole, MaxContextMessages));
    var head := if |ctx| > 0 && ctx[0].role == AssistantRole then [Turn(UserRole, Placeholder)] + ctx else ctx;
    head + [Turn(UserRole, userMessage)]
  }

  /** Each turn after the first has the other role than the one before it. */
  predicate Alternates(ts: seq<Turn>)
  {
    forall i :: 0 <= i < |ts| - 1 ==> ts[i + 1].role == Flip(ts[i].role)
  }

  lemma AlternatesAppend(a: seq<Turn>, b: seq<Turn>)
    requires Alternates(a) && Alternates(b)
    requires a != [] && b != [] ==> b[0].role == Flip(a[|a| - 1].role)
    ensures Alternates(a + b)
  {
    var w := a + b;
    forall i | 0 <= i < |w| - 1 ensures w[i + 1].role == Flip(w[i].role) {
      if i + 1 < |a| {
        assert w[i] == a[i] && w[i + 1] == a[i + 1];
      } else if i >= |a| {
        assert w[i] == b[i - |a|] && w[i + 1] == b[i - |a| + 1];
      }
    }
  }

  /** Listing an alternating newest-first sequence oldest first keeps it
      alternating; its ends swap. */
  lemma {:induction false} OldestFirstAlternates(p: seq<Message>)
    requires forall i :: 0 <= i < |p| - 1 ==> p[i + 1].role == Flip(p[i].role)
    ensures var ctx := OldestFirst(p);
      && Alternates(ctx)
      && (p != [] ==> ctx[0] == TurnOf(p[|p| - 1]) && ctx[|p| - 1] == TurnOf(p[0]))
  {
    if p != [] {
      var init := p[..|p| - 1];
      OldestFirstAlternates(init);
      AlternatesAppend([TurnOf(p[|p| - 1])], OldestFirst(init));
    }
  }

  /** The window starts with a user turn, alternates throughout, ends with
      the new message and holds at most five turns. */
  lemma ContextWindowAlternates(history: seq<Message>, userMessage: string)
    ensures var w := ContextWindow(history, userMessage);
      && |w| <= MaxContextMessages + 2
      && w[0].role == UserRole
      && Alternates(w)
      && w[|w| - 1] == Turn(UserRole, userMessage)
  {
    var p := Picked(history, AssistantRole, MaxContextMessages);
    PickedAlternates(history, AssistantRole, MaxContextMessages);
    OldestFirstAlternates(p);
    var ctx := OldestFirst(p);
    var hello := [Turn(UserRole, Placeholder)];
    var head := if |ctx| > 0 && ctx[0].role == AssistantRole then hello + ctx else ctx;
    if head != ctx {
      AlternatesAppend(hello, ctx);
    }
    AlternatesAppend(head, [Turn(UserRole, userMessage)]);
  }

  /** Before the new message come the taken messages, newest last; a
      placeholder user turn opens the window exactly when the oldest taken
      message is the assistant's. */
  lemma ContextWindowTakes(history: seq<Message>, userMessage: string)
    ensures var w := ContextWindow(history, userMessage);
      var p := Picked(history, AssistantRole, MaxContextMessages);
      && (forall i :: 0 <= i < |p| ==> w[|w| - 2 - i] == TurnOf(p[i]))
      && (|w| == |p| + 2 <==> p != [] && p[|p| - 1].role == AssistantRole)
      && (|w| == |p| + 2 ==> w[0] == Turn(UserRole, Placeholder))
  {
    var p := Picked(history, AssistantRole, MaxContextMessages);
    var ctx := OldestFirst(p);
    var w := ContextWindow(history, userMessage);
    var k := |w| - 1 - |ctx|;
    assert w[k..|w| - 1] == ctx;
    forall i | 0 <= i < |p| ensures w[|w| - 2 - i] == TurnOf(p[i]) {
      assert w[|w| - 2 - i] == ctx[|p| - 1 - i];
    }
  }

  /** The loop of processUserMessage that builds the window. */
  method BuildContextWindow(history: seq<Message>, userMessage: string) returns (contextMessages: seq<Turn>)
    ensures contextMessages == ContextWindow(history, userMessage)
  {
    contextMessages := [];
    var messageCount := 0;
    var expectedRole := AssistantRole;
    ghost var taken: seq<Message> := [];
    var i := 0;
    PickedFromStart(history, AssistantRole, MaxContextMessages);
    while i < |history|
      invariant 0 <= i <= |history|
      invariant messageCount == |taken| <= MaxContextMessages
      invariant taken + PickedFrom(history, i, expectedRole, MaxContextMessages - messageCount)
             == Picked(history, AssistantRole, MaxContextMessages)
      invariant contextMessages == OldestFirst(taken)
    {
      if messageCount >= MaxContextMessages {
        break;
      }
      var msg := history[i];
      if msg.role == expectedRole {
        contextMessages := [Turn(msg.role, msg.content)] + contextMessages;
        messageCount := messageCount + 1;
        expectedRole := Flip(expectedRole);
        AppendAssoc(taken, [msg], PickedFrom(history, i + 1, expectedRole, MaxContextMessages - messageCount));
        OldestFirstSnoc(taken, msg);
        taken := taken + [msg];
      }
      i := i + 1;
    }
    assert taken + [] == taken;
    if |contextMessages| > 0 && contextMessages[0].role == AssistantRole {
      contextMessages := [Turn(UserRole, Placeholder)] + contextMessages;
    }
    contextMessages := contextMessages + [Turn(UserRole, userMessage)];
  }

  // ---- Dispatch ----

  /** The handlers the switch of executeToolUse names. */
  datatype Tool =
    | AddBirthdayTool | RemoveBirthdayTool | EditBirthdayTool
    | UnsubscribeTool | ChangeTimezoneTool | EditCadenceTool | IrrelevantTool
    | StopSendingTool | StartSendingTool

  const AddBirthdayName: string := "add_birthday"
  const RemoveBirthdayName: string := "remove_birthday"
  const EditBirthdayName: string := "edit_birthday"
  const UnsubscribeName: string := "unsubscribe"
  const ChangeTimezoneName: string := "change_timezone"
  const EditCadenceName: string := "edit_cadence"
  const IrrelevantName: string := "irrelevant"
  const StopSendingName: string := "stop_sending"
  const StartSendingName: string := "start_sending"

  const UnknownTool: string := "Unknown tool"

  /** The tool catalogue the three tool classes declare. */
  const Catalog: seq<string> := [AddBirthdayName, RemoveBirthdayName, EditBirthdayName,
                                 UnsubscribeName, ChangeTimezoneName, EditCadenceName,
                                 StopSendingName, StartSendingName]

  function NameOf(t: Tool): string
  {
    match t
    case AddBirthdayTool => AddBirthdayName
    case RemoveBirthdayTool => RemoveBirthdayName
    case EditBirthdayTool => EditBirthdayName
    case UnsubscribeTool => UnsubscribeName
    case ChangeTimezoneTool => ChangeTimezoneName
    case EditCadenceTool => EditCadenceName
    case IrrelevantTool => IrrelevantName
    case StopSendingTool => StopSendingName
    case StartSendingTool => StartSendingName
  }

  /** The case of the switch a name selects, or none for the default. */
  function ToolNamed(name: string): (r: Option<Tool>)
    ensures r.Some? ==> NameOf(r.value) == name
  {
    if name == AddBirthdayName then Some(AddBirthdayTool)
    else if name == RemoveBirthdayName then Some(RemoveBirthdayTool)
    else if name == EditBirthdayName then Some(EditBirthdayTool)
    else if name == UnsubscribeName then Some(UnsubscribeTool)
    else if name == ChangeTimezoneName then Some(ChangeTimezoneTool)
    else if name == EditCadenceName then Some(EditCadenceTool)
    else if name == IrrelevantName then Some(IrrelevantTool)
    else if name == StopSendingName then Some(StopSendingTool)
    else if name == StartSendingName then Some(StartSendingTool)
    else None
  }

  /** Every case is reached by its own name. */
  lemma ToolNamedNameOf(t: Tool)
    ensures ToolNamed(NameOf(t)) == Some(t)
  {
  }

  /** Every catalogued tool has a handler; `irrelevant` is not catalogued. */
  lemma CatalogDispatches()
    ensures forall n :: n in Catalog ==> ToolNamed(n).Some? && ToolNamed(n).value != IrrelevantTool
    ensures IrrelevantName !in Catalog
  {
  }

  /** What a handler does. `irrelevant` calls a method the management tools
      do not define, so it throws. */
  function HandlerEffect(t: Tool, db: Db, args: ToolArgs, userId: UserId): Effect
  {
    match t
    case AddBirthdayTool => AddBirthdayEffect(db, args, userId)
    case RemoveBirthdayTool => RemoveBirthdayEffect(db, args, userId)
    case EditBirthdayTool => EditBirthdayEffect(db, args, userId)
    case UnsubscribeTool => UnsubscribeEffect(db, userId)
    case ChangeTimezoneTool => ChangeTimezoneEffect(db, args, userId)
    case EditCadenceTool => EditCadenceEffect(db, args, userId)
    case IrrelevantTool => Effect(Err(NotAFunction(IrrelevantName)), db)
    case StopSendingTool => StopSendingEffect(db, userId)
    case StartSendingTool => StartSendingEffect(db, userId)
  }

  /** executeToolUse. */
  function DispatchEffect(db: Db, name: string, args: ToolArgs, userId: UserId): Effect
  {
    match ToolNamed(name)
    case None => Effect(Ok(ToolResult(UnknownTool)), db)
    case Some(t) => HandlerEffect(t, db, args, userId)
  }

  /** What a tool call does, from its function's name and arguments. */
  type Dispatcher = (string, ToolArgs) -> Effect

  /** executeToolUse for a user, on a snapshot of the store. */
  function DispatchFor(db: Db, userId: UserId): Dispatcher
  {
    (name: string, args: ToolArgs) => DispatchEffect(db, name, args, userId)
  }

  /** A name outside the switch yields the `Unknown tool` result, without
      an error and without touching the store. */
  lemma DispatchUnknown(db: Db, name: string, args: ToolArgs, userId: UserId)
    requires forall t :: NameOf(t) != name
    ensures DispatchEffect(db, name, args, userId) == Effect(Ok(ToolResult(UnknownTool)), db)
  {
  }

  /** Each name reaches its own handler. */
  lemma DispatchRoutes(t: Tool, db: Db, args: ToolArgs, userId: UserId)
    ensures DispatchEffect(db, NameOf(t), args, userId) == HandlerEffect(t, db, args, userId)
  {
    ToolNamedNameOf(t);
  }

  /** What each handler does with the input it is given in an exchange, in
      which none of its fields is defined: adding and editing a birthday
      fail on the invalid date, editing the cadence throws on `includes`,
      removing a birthday deletes every contact of the user, and changing the
      time zone writes nothing. */
  lemma UndecodedDispatch(db: Db, userId: UserId)
    ensures DispatchEffect(db, NameOf(AddBirthdayTool), Undecoded, userId) == Effect(Err(InvalidDate(UndefinedText)), db)
    ensures DispatchEffect(db, NameOf(EditBirthdayTool), Undecoded, userId) == Effect(Err(InvalidDate(UndefinedText)), db)
    ensures DispatchEffect(db, NameOf(EditCadenceTool), Undecoded, userId) == Effect(Err(UndefinedProperty(IncludesName)), db)
    ensures var e := DispatchEffect(db, NameOf(RemoveBirthdayTool), Undecoded, userId);
      && e.result == Ok(ToolResult(RemovedText(UndefinedText)))
      && forall c :: c in e.db.contacts <==> c in db.contacts && c.userId != userId
    ensures var e := DispatchEffect(db, NameOf(ChangeTimezoneTool), Undecoded, userId);
      && e.db == db
      && (e.result.Ok? <==> HasUser(db.users, userId))
  {
    DispatchRoutes(AddBirthdayTool, db, Undecoded, userId);
    DispatchRoutes(EditBirthdayTool, db, Undecoded, userId);
    DispatchRoutes(EditCadenceTool, db, Undecoded, userId);
    DispatchRoutes(RemoveBirthdayTool, db, Undecoded, userId);
    RemoveWithoutNameRemovesAll(db, Undecoded, userId);
    DispatchRoutes(ChangeTimezoneTool, db, Undecoded, userId);
    ChangeTimezoneWithoutZone(db, Undecoded, userId);
  }

  // ---- The reply ----

  /** One tool call of a completion: the function's name, its arguments as
      the JSON text the model wrote, and the call's JSON text. */
  datatype ToolCall = ToolCall(name: string, arguments: string, json: string)

  /** The first choice of a completion: the finish reason, the text (null
      when absent), the tool calls and the JSON text of the tool-call array. */
  datatype Completion = Completion(finishReason: string, content: Option<string>, toolCalls: seq<ToolCall>, toolCallsJson: string)

  /** The language model: the first choice it answers the window with, or
      `None` when the request throws or the answer has no choice. */
  type Llm = seq<Turn> -> Option<Completion>

  const ToolCallsReason: string := "tool_calls"
  const UnexpectedFormat: string := "Unexpected response format "

  /** The text the assistant row is created with. */
  function StoredContent(c: Completion): Option<string>
  {
    if c.finishReason == ToolCallsReason then Some(c.toolCallsJson) else c.content
  }

  /** The assistant row after a tool call ran. */
  function Recorded(reply: Message, call: ToolCall, result: ToolResult): Message
  {
    reply.(content := call.json, isUserMessage := false,
           functionCalled := Some(call.name), functionResult := Some(result.output))
  }

  /** The result of processUserMessage: the reply (or what was thrown), the
      store, and the user's conversation afterwards. */
  datatype Exchange = Exchange(reply: Result<string, Failure>, db: Db, conversation: Option<seq<Message>>)

  /** processUserMessage for the user's conversation (`None` when there is
      none yet): creating the conversation needs the user. The user's row is
      created at `now`, before the model is asked; the assistant's row at
      `later`, after it answered. */
  function Respond(db: Db, conversation: Option<seq<Message>>, userMessage: string, userId: UserId,
                   llm: Llm, dispatch: Dispatcher, now: int, later: int): Exchange
  {
    if conversation.None? && !HasUser(db.users, userId) then Exchange(Err(RecordNotFound(userId)), db, None)
    else
      var msgs := if conversation.Some? then conversation.value else [];
      var request := Message(UserRole, userMessage, true, None, None, now);
      match llm(WindowFor(conversation, userMessage))
      case None => Exchange(Err(CompletionFailed), db, Some(msgs + [request]))
      case Some(c) => Reply(db, msgs, request, c, dispatch, later)
  }

  /** The rest of processUserMessage once the user's row `request` is
      stored after `msgs` and the model answered `c`; the assistant's row is
      created at `replyAt`. */
  function Reply(db: Db, msgs: seq<Message>, request: Message, c: Completion, dispatch: Dispatcher, replyAt: int): Exchange
  {
    var content := StoredContent(c);
    if content.None? then Exchange(Err(MissingContent), db, Some(msgs + [request]))
    else
      var reply := Message(AssistantRole, content.value, false, None, None, replyAt);
      var stored := msgs + [request, reply];
      if c.finishReason != ToolCallsReason then
        Exchange(Ok(if content.value != "" then content.value else UnexpectedFormat + c.finishReason), db, Some(stored))
      else if c.toolCalls == [] then Exchange(Err(MissingToolCall), db, Some(stored))
      else
        var call := c.toolCalls[0];
        // The handler is handed the arguments' JSON text undecoded: every
        // field it reads from that string is undefined.
        var e := dispatch(call.name, Undecoded);
        if e.result.Err? then Exchange(Err(e.result.error), e.db, Some(stored))
        else Exchange(Ok(ToolResultJson(e.result.value.output)), e.db,
                      Some(msgs + [request, Recorded(reply, call, e.result.value)]))
  }

  /** The window the model is given for a conversation. */
  function WindowFor(conversation: Option<seq<Message>>, userMessage: string): seq<Turn>
  {
    ContextWindow(Reverse(Eligible(if conversation.Some? then conversation.value else [])), userMessage)
  }

  /** Once the conversation exists or can be created, the stored history is
      kept and the new message is stored after it, verbatim, as a user row. */
  lemma RespondStoresMessage(db: Db, conversation: Option<seq<Message>>, userMessage: string, userId: UserId,
                             llm: Llm, dispatch: Dispatcher, now: int, later: int)
    requires conversation.Some? || HasUser(db.users, userId)
    ensures var x := Respond(db, conversation, userMessage, userId, llm, dispatch, now, later);
      var msgs := if conversation.Some? then conversation.value else [];
      && x.conversation.Some?
      && |x.conversation.value| > |msgs|
      && x.conversation.value[..|msgs|] == msgs
      && x.conversation.value[|msgs|] == Message(UserRole, userMessage, true, None, None, now)
  {
    var x := Respond(db, conversation, userMessage, userId, llm, dispatch, now, later);
    var msgs := if conversation.Some? then conversation.value else [];
    assert x.conversation.value[..|msgs|] == msgs;
  }

  /** A model reply that is not a tool call changes no row of the store and
      returns the text, or the diagnostic naming the finish reason when the
      text is empty; the reply is stored as an assistant row with no tool,
      created at `later`. */
  lemma RespondText(db: Db, conversation: Option<seq<Message>>, userMessage: string, userId: UserId,
                    llm: Llm, dispatch: Dispatcher, now: int, later: int)
    requires conversation.Some? || HasUser(db.users, userId)
    requires var c := llm(WindowFor(conversation, userMessage));
      c.Some? && c.value.finishReason != ToolCallsReason && c.value.content.Some?
    ensures var x := Respond(db, conversation, userMessage, userId, llm, dispatch, now, later);
      var c := llm(WindowFor(conversation, userMessage)).value;
      var stored := x.conversation.value;
      && x.db == db
      && x.reply.Ok?
      && (c.content.value != "" ==> x.reply.value == c.content.value)
      && (c.content.value == "" ==> x.reply.value == UnexpectedFormat + c.finishReason)
      && stored[|stored| - 1] == Message(AssistantRole, c.content.value, false, None, None, later)
  {
  }

  /** A text reply that is null cannot be stored: the create throws after
      the user's row was stored, no table changes, and the unanswered row
      leaves the next window as it was. */
  lemma RespondNullText(db: Db, conversation: Option<seq<Message>>, userMessage: string, userId: UserId,
                        llm: Llm, dispatch: Dispatcher, now: int, later: int, next: string)
    requires conversation.Some? || HasUser(db.users, userId)
    requires conversation.Some? ==> forall m :: m in conversation.value ==> m.createdAt <= now
    requires var c := llm(WindowFor(conversation, userMessage));
      c.Some? && c.value.finishReason != ToolCallsReason && c.value.content.None?
    ensures var x := Respond(db, conversation, userMessage, userId, llm, dispatch, now, later);
      var msgs := if conversation.Some? then conversation.value else [];
      && x.reply == Err(MissingContent)
      && x.db == db
      && x.conversation == Some(msgs + [Message(UserRole, userMessage, true, None, None, now)])
      && WindowFor(x.conversation, next) == WindowFor(conversation, next)
  {
    var msgs := if conversation.Some? then conversation.value else [];
    UnansweredRequestSkipped(msgs, Message(UserRole, userMessage, true, None, None, now), next);
  }

  /** When the model request throws, the user's row is already stored; no
      table changes, and the unanswered row leaves the next window as it
      was. */
  lemma RespondCompletionFails(db: Db, conversation: Option<seq<Message>>, userMessage: string, userId: UserId,
                               llm: Llm, dispatch: Dispatcher, now: int, later: int, next: string)
    requires conversation.Some? || HasUser(db.users, userId)
    requires conversation.Some? ==> forall m :: m in conversation.value ==> m.createdAt <= now
    requires llm(WindowFor(conversation, userMessage)).None?
    ensures var x := Respond(db, conversation, userMessage, userId, llm, dispatch, now, later);
      var msgs := if conversation.Some? then conversation.value else [];
      && x.reply == Err(CompletionFailed)
      && x.db == db
      && x.conversation == Some(msgs + [Message(UserRole, userMessage, true, None, None, now)])
      && WindowFor(x.conversation, next) == WindowFor(conversation, next)
  {
    var msgs := if conversation.Some? then conversation.value else [];
    UnansweredRequestSkipped(msgs, Message(UserRole, userMessage, true, None, None, now), next);
  }

  /** A user row left without an answer, no older than the rows before it,
      is the newest row and the walk, which first expects the assistant,
      passes over it: the window is the one the earlier rows give. */
  lemma UnansweredRequestSkipped(msgs: seq<Message>, request: Message, next: string)
    requires request.role == UserRole && request.functionCalled.None?
    requires forall m :: m in msgs ==> m.createdAt <= request.createdAt
    ensures WindowFor(Some(msgs + [request]), next) == WindowFor(Some(msgs), next)
  {
    var all := msgs + [request];
    assert all[..|msgs|] == msgs;
    assert Cutover(all) == Cutover(msgs);
    assert Eligible(all) == Eligible(msgs) + [request] by {
      if Cutover(msgs).Some? {
        CutoverIsNewestCall(msgs);
      }
    }
    var e := Eligible(msgs);
    assert (e + [request])[..|e|] == e;
    assert Reverse(Eligible(all)) == [request] + Reverse(e);
    assert ([request] + Reverse(e))[1..] == Reverse(e);
  }

  /** A successful tool call is recorded on the stored assistant row, with
      the tool's name and output, and the reply is the tool result as JSON
      whose output member reads back as the output. */
  lemma RespondToolCall(db: Db, conversation: Option<seq<Message>>, userMessage: string, userId: UserId,
                        llm: Llm, dispatch: Dispatcher, now: int, later: int)
    requires conversation.Some? || HasUser(db.users, userId)
    requires var c := llm(WindowFor(conversation, userMessage));
      && c.Some? && c.value.finishReason == ToolCallsReason && c.value.toolCalls != []
      && dispatch(c.value.toolCalls[0].name, Undecoded).result.Ok?
    ensures var x := Respond(db, conversation, userMessage, userId, llm, dispatch, now, later);
      var call := llm(WindowFor(conversation, userMessage)).value.toolCalls[0];
      var e := dispatch(call.name, Undecoded);
      var stored := x.conversation.value;
      var r := x.reply.value;
      && x.db == e.db
      && stored[|stored| - 1].role == AssistantRole
      && stored[|stored| - 1].content == call.json
      && stored[|stored| - 1].functionCalled == Some(call.name)
      && stored[|stored| - 1].functionResult == Some(e.result.value.output)
      && stored[|stored| - 1].createdAt == later
      && x.reply.Ok? && |r| > |ToolResultOpen|
      && Parse(r[|ToolResultOpen|..|r| - 1]) == Some(e.result.value.output)
  {
    var call := llm(WindowFor(conversation, userMessage)).value.toolCalls[0];
    var e := dispatch(call.name, Undecoded);
    ToolResultJsonOutput(e.result.value.output);
  }

  /** When the tool throws, the assistant row is already stored with the
      tool calls' JSON and no call recorded on it, the store is what the
      handler left, and the reply is what was thrown. */
  lemma RespondToolCallFails(db: Db, conversation: Option<seq<Message>>, userMessage: string, userId: UserId,
                             llm: Llm, dispatch: Dispatcher, now: int, later: int)
    requires conversation.Some? || HasUser(db.users, userId)
    requires var c := llm(WindowFor(conversation, userMessage));
      && c.Some? && c.value.finishReason == ToolCallsReason && c.value.toolCalls != []
      && dispatch(c.value.toolCalls[0].name, Undecoded).result.Err?
    ensures var x := Respond(db, conversation, userMessage, userId, llm, dispatch, now, later);
      var c := llm(WindowFor(conversation, userMessage)).value;
      var e := dispatch(c.toolCalls[0].name, Undecoded);
      var msgs := if conversation.Some? then conversation.value else [];
      var stored := x.conversation.value;
      && x.reply == Err(e.result.error)
      && x.db == e.db
      && |stored| == |msgs| + 2
      && stored[|stored| - 1].role == AssistantRole
      && stored[|stored| - 1].content == c.toolCallsJson
      && stored[|stored| - 1].functionCalled.None?
      && stored[|stored| - 1].functionResult.None?
  {
  }

  /** A remove_birthday call in an exchange deletes every contact of the
      user, whatever name the model gave, and confirms the removal of
      `undefined`. */
  lemma RespondUndecodedRemove(db: Db, conversation: Option<seq<Message>>, userMessage: string, userId: UserId,
                               llm: Llm, now: int, later: int)
    requires conversation.Some? || HasUser(db.users, userId)
    requires var c := llm(WindowFor(conversation, userMessage));
      && c.Some? && c.value.finishReason == ToolCallsReason && c.value.toolCalls != []
      && c.value.toolCalls[0].name == NameOf(RemoveBirthdayTool)
    ensures var x := Respond(db, conversation, userMessage, userId, llm, DispatchFor(db, userId), now, later);
      && x.reply == Ok(ToolResultJson(RemovedText(UndefinedText)))
      && forall ct :: ct in x.db.contacts <==> ct in db.contacts && ct.userId != userId
  {
    UndecodedDispatch(db, userId);
  }

  /** An add_birthday, edit_birthday or edit_cadence call in an exchange
      throws: the store is unchanged, and the stored assistant row records
      no call. */
  lemma RespondUndecodedThrows(db: Db, conversation: Option<seq<Message>>, userMessage: string, userId: UserId,
                               llm: Llm, now: int, later: int)
    requires conversation.Some? || HasUser(db.users, userId)
    requires var c := llm(WindowFor(conversation, userMessage));
      && c.Some? && c.value.finishReason == ToolCallsReason && c.value.toolCalls != []
      && c.value.toolCalls[0].name in {NameOf(AddBirthdayTool), NameOf(EditBirthdayTool), NameOf(EditCadenceTool)}
    ensures var x := Respond(db, conversation, userMessage, userId, llm, DispatchFor(db, userId), now, later);
      var stored := x.conversation.value;
      && x.reply.Err?
      && x.db == db
      && stored[|stored| - 1].functionCalled.None?
  {
    UndecodedDispatch(db, userId);
    RespondToolCallFails(db, conversation, userMessage, userId, llm, DispatchFor(db, userId), now, later);
  }

  /** Whatever the model answers, the stored rows are the old ones, the
      request, and at most one assistant row, created at `replyAt`. */
  lemma ReplyAppends(db: Db, msgs: seq<Message>, request: Message, c: Completion, dispatch: Dispatcher, replyAt: int)
    ensures var x := Reply(db, msgs, request, c, dispatch, replyAt);
      && x.conversation.Some?
      && var stored := x.conversation.value;
      && |msgs| < |stored| <= |msgs| + 2
      && stored[..|msgs| + 1] == msgs + [request]
      && (|stored| == |msgs| + 2 ==> stored[|msgs| + 1].createdAt == replyAt && stored[|msgs| + 1].role == AssistantRole)
  {
    var stored := Reply(db, msgs, request, c, dispatch, replyAt).conversation.value;
    assert stored[..|msgs| + 1] == msgs + [request];
  }

  /** After a tool call succeeds, the next cut-over is the time of the
      assistant's row, which is later than the user's row of the same
      exchange: only the recorded call stays eligible. */
  lemma RespondMovesCutover(db: Db, conversation: Option<seq<Message>>, userMessage: string, userId: UserId,
                            llm: Llm, dispatch: Dispatcher, now: int, later: int)
    requires conversation.Some? || HasUser(db.users, userId)
    requires conversation.Some? ==> forall m :: m in conversation.value ==> m.createdAt <= now
    requires now < later
    requires var c := llm(WindowFor(conversation, userMessage));
      && c.Some? && c.value.finishReason == ToolCallsReason && c.value.toolCalls != []
      && dispatch(c.value.toolCalls[0].name, Undecoded).result.Ok?
    ensures var stored := Respond(db, conversation, userMessage, userId, llm, dispatch, now, later).conversation.value;
      && Cutover(stored) == Some(later)
      && Eligible(stored) == [stored[|stored| - 1]]
  {
    var msgs := if conversation.Some? then conversation.value else [];
    var request := Message(UserRole, userMessage, true, None, None, now);
    var c := llm(WindowFor(conversation, userMessage)).value;
    ReplyAppends(db, msgs, request, c, dispatch, later);
    var stored := Reply(db, msgs, request, c, dispatch, later).conversation.value;
    var last := stored[|stored| - 1];
    assert |stored| == |msgs| + 2 && last.functionCalled.Some?;
    assert stored == (msgs + [request]) + [last];
    CallAfterRequest(msgs, request, last);
  }

  /** A recorded call created after the request, itself no older than the
      rows before it, becomes the cut-over, and only the call is eligible. */
  lemma CallAfterRequest(msgs: seq<Message>, request: Message, call: Message)
    requires call.functionCalled.Some?
    requires forall m :: m in msgs ==> m.createdAt <= request.createdAt
    requires request.createdAt < call.createdAt
    ensures Cutover((msgs + [request]) + [call]) == Some(call.createdAt)
    ensures Eligible((msgs + [request]) + [call]) == [call]
  {
    var before := msgs + [request];
    var all := before + [call];
    CutoverAfterCall(before, call);
    assert all[..|all| - 1] == before;
    OnOrAfterNone(before, call.createdAt);
  }

  /** No row of `msgs` is kept by a filter on a time later than all of them. */
  lemma OnOrAfterNone(msgs: seq<Message>, t: int)
    requires forall m :: m in msgs ==> m.createdAt < t
    ensures OnOrAfter(msgs, t) == []
  {
    OnOrAfterMembers(msgs, t);
  }

  /** After a successful tool call, the next window holds none of this
      exchange's request nor anything older: it is the placeholder, the
      recorded call, and the next message. */
  lemma RespondToolCallNextWindow(db: Db, conversation: Option<seq<Message>>, userMessage: string, userId: UserId,
                                  llm: Llm, dispatch: Dispatcher, now: int, later: int, next: string)
    requires conversation.Some? || HasUser(db.users, userId)
    requires conversation.Some? ==> forall m :: m in conversation.value ==> m.createdAt <= now
    requires now < later
    requires var c := llm(WindowFor(conversation, userMessage));
      && c.Some? && c.value.finishReason == ToolCallsReason && c.value.toolCalls != []
      && dispatch(c.value.toolCalls[0].name, Undecoded).result.Ok?
    ensures var x := Respond(db, conversation, userMessage, userId, llm, dispatch, now, later);
      var call := llm(WindowFor(conversation, userMessage)).value.toolCalls[0];
      WindowFor(x.conversation, next)
        == [Turn(UserRole, Placeholder), Turn(AssistantRole, call.json), Turn(UserRole, next)]
  {
    RespondMovesCutover(db, conversation, userMessage, userId, llm, dispatch, now, later);
    var stored := Respond(db, conversation, userMessage, userId, llm, dispatch, now, later).conversation.value;
    var last := stored[|stored| - 1];
    assert Reverse([last]) == [last];
    assert Picked([last], AssistantRole, MaxContextMessages) == [last];
  }

  /** A row recording a tool call, no older than any row before it, becomes
      the cut-over. */
  lemma CutoverAfterCall(msgs: seq<Message>, call: Message)
    requires call.functionCalled.Some?
    requires forall m :: m in msgs ==> m.createdAt <= call.createdAt
    ensures Cutover(msgs + [call]) == Some(call.createdAt)
  {
    assert (msgs + [call])[..|msgs|] == msgs;
    CutoverIsNewestCall(msgs);
  }

  /** Rows keep their time order when the user's row is created no earlier
      than every stored row and the assistant's row no earlier than it. */
  lemma RespondKeepsTimeOrder(db: Db, conversation: Option<seq<Message>>, userMessage: string, userId: UserId,
                              llm: Llm, dispatch: Dispatcher, now: int, later: int)
    requires conversation.Some? ==> InTimeOrder(conversation.value)
    requires conversation.Some? ==> forall m :: m in conversation.value ==> m.createdAt <= now
    requires now <= later
    ensures var x := Respond(db, conversation, userMessage, userId, llm, dispatch, now, later);
      x.conversation.Some? ==> InTimeOrder(x.conversation.value)
  {
    if conversation.Some? || HasUser(db.users, userId) {
      var msgs := if conversation.Some? then conversation.value else [];
      var request := Message(UserRole, userMessage, true, None, None, now);
      var stored := Respond(db, conversation, userMessage, userId, llm, dispatch, now, later).conversation.value;
      var c := llm(WindowFor(conversation, userMessage));
      if c.Some? {
        ReplyAppends(db, msgs, request, c.value, dispatch, later);
      }
      assert |msgs| < |stored| <= |msgs| + 2;
      assert stored[..|msgs| + 1] == msgs + [request];
      assert stored[..|msgs|] == msgs by {
        assert stored[..|msgs|] == stored[..|msgs| + 1][..|msgs|];
      }
      assert stored[|msgs|].createdAt == now by {
        assert stored[|msgs|] == stored[..|msgs| + 1][|msgs|];
      }
      TimeOrderExtend(msgs, stored, now, later);
    }
  }

  /** Rows appended after rows no newer than `now`, the first at `now` and
      the second at `later`, keep the time order. */
  lemma TimeOrderExtend(msgs: seq<Message>, stored: seq<Message>, now: int, later: int)
    requires InTimeOrder(msgs)
    requires forall m :: m in msgs ==> m.createdAt <= now
    requires now <= later
    requires |msgs| < |stored| <= |msgs| + 2 && stored[..|msgs|] == msgs
    requires stored[|msgs|].createdAt == now
    requires |stored| == |msgs| + 2 ==> stored[|msgs| + 1].createdAt == later
    ensures InTimeOrder(stored)
  {
    forall i, j | 0 <= i < j < |stored| ensures stored[i].createdAt <= stored[j].createdAt {
      if i < |msgs| {
        assert stored[i] == msgs[i] && msgs[i] in msgs;
        if j < |msgs| {
          assert stored[j] == msgs[j];
        }
      }
    }
  }

  /** The agent service: the store its tools change and each user's
      conversation. */
  class LlmAgent {
    const store: Store
    var conversations: map<UserId, seq<Message>>

    ghost predicate Valid()
      reads this, store
    {
      && store.Valid()
      && forall u :: u in conversations ==> InTimeOrder(conversations[u])
    }

    constructor (store: Store)
      requires store.Valid()
      ensures this.store == store && conversations == map[] && Valid()
    {
      this.store := store;
      conversations := map[];
    }

    /** executeToolUse: the switch from a tool's name to its handler. */
    method ExecuteToolUse(toolName: string, input: ToolArgs, userId: UserId) returns (r: Result<ToolResult, Failure>)
      requires store.Valid()
      modifies store
      ensures store.Valid()
      ensures Effect(r, store.Snapshot()) == DispatchEffect(old(store.Snapshot()), toolName, input, userId)
    {
      match ToolNamed(toolName)
      case Some(AddBirthdayTool) => r := store.AddBirthday(input, userId);
      case Some(RemoveBirthdayTool) => r := store.RemoveBirthday(input, userId);
      case Some(EditBirthdayTool) => r := store.EditBirthday(input, userId);
      case Some(UnsubscribeTool) => r := store.Unsubscribe(userId);
      case Some(ChangeTimezoneTool) => r := store.ChangeTimezone(input, userId);
      case Some(EditCadenceTool) => r := store.EditCadence(input, userId);
      case Some(IrrelevantTool) => r := Err(NotAFunction(IrrelevantName));
      case Some(StopSendingTool) => r := store.StopSending(userId);
      case Some(StartSendingTool) => r := store.StartSending(userId);
      case None => r := Ok(ToolResult(UnknownTool));
    }

    /** processUserMessage, with the model as an oracle: the user's row is
        created at `now`, the assistant's row at `later`. */
    method ProcessUserMessage(userMessage: string, userId: UserId, llm: Llm, now: int, later: int)
      returns (r: Result<string, Failure>)
      requires Valid()
      requires userId in conversations ==> forall m :: m in conversations[userId] ==> m.createdAt <= now
      requires now <= later
      modifies this, store
      ensures Valid()
      ensures var x := Respond(old(store.Snapshot()),
                               if userId in old(conversations) then Some(old(conversations)[userId]) else None,
                               userMessage, userId, llm, DispatchFor(old(store.Snapshot()), userId), now, later);
        && r == x.reply
        && store.Snapshot() == x.db
        && conversations == (if x.conversation.Some? then old(conversations)[userId := x.conversation.value]
                             else old(conversations))
    {
      ghost var db := store.Snapshot();
      ghost var conversation := if userId in conversations then Some(conversations[userId]) else None;
      var msgs: seq<Message> := [];
      if userId in conversations {
        msgs := conversations[userId];
      } else if !HasUser(store.users, userId) {
        return Err(RecordNotFound(userId));
      }
      RespondKeepsTimeOrder(db, conversation, userMessage, userId, llm, DispatchFor(db, userId), now, later);
      var contextMessages := BuildContextWindow(Reverse(Eligible(msgs)), userMessage);
      var request := Message(UserRole, userMessage, true, None, None, now);
      var response := llm(contextMessages);
      if response.None? {
        conversations := conversations[userId := msgs + [request]];
        return Err(CompletionFailed);
      }
      r := Answer(msgs, request, response.value, userId, later);
    }

    /** The part of processUserMessage after the model answered: the rows
        it stores after `msgs`, the tool it runs and the reply. */
    method Answer(msgs: seq<Message>, request: Message, response: Completion, userId: UserId, replyAt: int)
      returns (r: Result<string, Failure>)
      requires store.Valid()
      modifies this, store
      ensures store.Valid()
      ensures var x := Reply(old(store.Snapshot()), msgs, request, response, DispatchFor(old(store.Snapshot()), userId), replyAt);
        && r == x.reply
        && store.Snapshot() == x.db
        && x.conversation.Some?
        && conversations == old(conversations)[userId := x.conversation.value]
    {
      ghost var db := store.Snapshot();
      var log := msgs + [request];
      var content := StoredContent(response);
      if content.None? {
        conversations := conversations[userId := log];
        return Err(MissingContent);
      }
      var reply := Message(AssistantRole, content.value, false, None, None, replyAt);
      log := log + [reply];
      assert log == msgs + [request, reply];
      if response.finishReason == ToolCallsReason {
        if response.toolCalls == [] {
          conversations := conversations[userId := log];
          return Err(MissingToolCall);
        }
        var call := response.toolCalls[0];
        var result := ExecuteToolUse(call.name, Undecoded, userId);
        assert Effect(result, store.Snapshot()) == DispatchFor(db, userId)(call.name, Undecoded);
        if result.Err? {
          conversations := conversations[userId := log];
          return Err(result.error);
        }
        log := log[|log| - 1 := Recorded(reply, call, result.value)];
        assert log == msgs + [request, Recorded(reply, call, result.value)];
        conversations := conversations[userId := log];
        return Ok(ToolResultJson(result.value.output));
      }
      conversations := conversations[userId := log];
      if content.value != "" {
        return Ok(content.value);
      }
      return Ok(UnexpectedFormat + response.finishReason);
    }
  }
}
