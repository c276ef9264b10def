/** chatstate/dispatcher.py: the ChatContextDispatcher, which hands each
    update along a chain of responsibility (message, callback query, inline
    query processors), gets or creates the chat context of the update's chat
    through the context manager of chatstate/context.py, looks inline queries
    up by prefix, and fans events, stops and idle eviction out over the
    stored contexts. */
module Dispatcher {
  import opened Base
  import opened Dicts
  import opened ChatTypes
  import opened Telegram
  import opened Effects
  import opened Reflection
  import Context
  import State

  // ----- Chat data -----

  /** What `_extract_chat_data` returns: chat id, kind, user-or-group name,
      first and last name. */
  datatype ChatData = ChatData(chatId: int, chatType: int, userOrGroup: Option<string>,
                               firstName: Option<string>, lastName: Option<string>)

  /** `_extract_chat_data(message)`: the kind is `getattr(CHAT_TYPE_NAME,
      chat.type)` (AttributeError for an unknown name); a private chat is
      named by its username, any other by its title. */
  function ExtractChatData(msg: Message): (r: Result<ChatData>)
    ensures r.Err? <==> msg.chat.kind !in {"private", "group", "channel", "supergroup"}
    ensures r.Err? ==> r.error == AttributeError
    ensures r.Ok? ==>
      && r.value.chatId == msg.chat.id && IsChatType(r.value.chatType)
      && r.value.chatType != ANY && r.value.chatType != NONE
      && r.value.firstName == msg.chat.firstName && r.value.lastName == msg.chat.lastName
  {
    NameTable(msg.chat.kind);
    NameNeverWildcard(msg.chat.kind);
    match KindOfName(msg.chat.kind)
    case None => Err(AttributeError)
    case Some(kind) =>
      Ok(ChatData(msg.chat.id, kind, if kind == PRIVATE then msg.chat.username else msg.chat.title,
                  msg.chat.firstName, msg.chat.lastName))
  }

  /** A private chat is named by its username and every other kind by its
      title; id, kind and name agree with `_extract_chat_data` of
      chatstate/state.py read as intended. */
  lemma ChatDataNames(msg: Message)
    ensures msg.chat.kind == "private" ==> ExtractChatData(msg).Ok? && ExtractChatData(msg).value.userOrGroup == msg.chat.username
    ensures msg.chat.kind in {"group", "channel", "supergroup"} ==>
      ExtractChatData(msg).Ok? && ExtractChatData(msg).value.userOrGroup == msg.chat.title
    ensures ExtractChatData(msg).Ok? <==> State.ExtractChatData(msg).Ok?
    ensures ExtractChatData(msg).Ok? ==>
      var d := ExtractChatData(msg).value;
      State.ExtractChatData(msg) == Ok(State.ChatData(d.chatId, d.chatType, d.userOrGroup))
  {
    NameTable(msg.chat.kind);
  }

  // ----- The processor chain -----

  /** The three update processors. */
  datatype Processor = MessageProcessor | CallbackQueryProcessor | InlineQueryProcessor

  /** The chain the dispatcher builds, in order. */
  const CHAIN: seq<Processor> := [MessageProcessor, CallbackQueryProcessor, InlineQueryProcessor]

  /** `responsible_for(update)`: the update carries the processor's part. */
  predicate ResponsibleFor(p: Processor, update: Update) {
    match p
    case MessageProcessor => update.message.Some?
    case CallbackQueryProcessor => update.callbackQuery.Some?
    case InlineQueryProcessor => update.inlineQuery.Some?
  }

  /** What `process` returns when it returns: True for messages, False for
      callback and inline queries. */
  predicate Continues(p: Processor) {
    p.MessageProcessor?
  }

  /** The processors `ProcessorChain.process` runs, in order: each
      responsible one runs, and one that returns falsy ends the chain. */
  function Visited(procs: seq<Processor>, update: Update): (r: seq<Processor>)
    ensures |r| <= |procs|
    ensures forall p :: p in r ==> p in procs && ResponsibleFor(p, update)
  {
    if procs == [] then []
    else if ResponsibleFor(procs[0], update) then
      [procs[0]] + (if Continues(procs[0]) then Visited(procs[1..], update) else [])
    else Visited(procs[1..], update)
  }

  /** The responsible processors of `procs`, in order. */
  function Responsible(procs: seq<Processor>, update: Update): (r: seq<Processor>)
    ensures |r| <= |procs|
  {
    if procs == [] then []
    else (if ResponsibleFor(procs[0], update) then [procs[0]] else []) + Responsible(procs[1..], update)
  }

  /** `procs[k]` is responsible and ends the chain. */
  predicate Stops(procs: seq<Processor>, update: Update, k: nat)
    requires k < |procs|
  {
    ResponsibleFor(procs[k], update) && !Continues(procs[k])
  }

  /** When no responsible processor returns falsy, the chain runs every
      responsible processor, in order. */
  lemma {:induction false} VisitedAllResponsible(procs: seq<Processor>, update: Update)
    requires forall j :: 0 <= j < |procs| ==> !Stops(procs, update, j)
    ensures Visited(procs, update) == Responsible(procs, update)
  {
    if procs != [] {
      var rest := procs[1..];
      forall j | 0 <= j < |rest|
        ensures !Stops(rest, update, j)
      {
        assert rest[j] == procs[j + 1] && !Stops(procs, update, j + 1);
      }
      VisitedAllResponsible(rest, update);
      assert !Stops(procs, update, 0);
    }
  }

  /** The chain runs the responsible processors before the first one that
      returns falsy, then that one, and none after it. */
  lemma {:induction false} VisitedUntilStop(procs: seq<Processor>, update: Update, k: nat)
    requires k < |procs| && Stops(procs, update, k)
    requires forall j :: 0 <= j < k ==> !Stops(procs, update, j)
    ensures Visited(procs, update) == Responsible(procs[..k], update) + [procs[k]]
  {
    if k == 0 {
      assert procs[..0] == [];
    } else {
      var rest := procs[1..];
      var head := if ResponsibleFor(procs[0], update) then [procs[0]] else [];
      forall j | 0 <= j < k - 1
        ensures !Stops(rest, update, j)
      {
        assert rest[j] == procs[j + 1] && !Stops(procs, update, j + 1);
      }
      assert rest[k - 1] == procs[k];
      VisitedUntilStop(rest, update, k - 1);
      assert !Stops(procs, update, 0);
      assert Visited(procs, update) == head + Visited(rest, update);
      TailOfPrefix(procs, k);
      assert Responsible(procs[..k], update) == head + Responsible(rest[..k - 1], update);
      AppendAssoc(head, Responsible(rest[..k - 1], update), [procs[k]]);
    }
  }

  /** The chain from position `i` on: `procs[i]` runs when it is
      responsible, and the rest runs unless it stopped the chain. */
  lemma VisitedFrom(procs: seq<Processor>, update: Update, i: nat)
    requires i < |procs|
    ensures Visited(procs[i..], update) ==
      if ResponsibleFor(procs[i], update) then
        [procs[i]] + (if Continues(procs[i]) then Visited(procs[i + 1..], update) else [])
      else Visited(procs[i + 1..], update)
  {
    assert procs[i..][0] == procs[i] && procs[i..][1..] == procs[i + 1..];
  }

  lemma TailOfPrefix<T>(s: seq<T>, k: nat)
    requires 0 < k <= |s|
    ensures s[..k][1..] == s[1..][..k - 1]
  {
  }

  /** The dispatcher's own chain: an update with a message and a callback
      query reaches both processors, a callback query keeps the inline query
      processor from running, and an inline query alone reaches only its own. */
  lemma ChainOrder(update: Update)
    ensures update.message.Some? && update.callbackQuery.Some? ==>
      Visited(CHAIN, update) == [MessageProcessor, CallbackQueryProcessor]
    ensures update.callbackQuery.Some? ==> InlineQueryProcessor !in Visited(CHAIN, update)
    ensures update.callbackQuery.None? && update.inlineQuery.Some? ==>
      Visited(CHAIN, update) == (if update.message.Some? then [MessageProcessor] else []) + [InlineQueryProcessor]
    ensures update.message.None? && update.callbackQuery.None? && update.inlineQuery.None? ==> Visited(CHAIN, update) == []
  {
    var c1, c2 := CHAIN[1..], CHAIN[2..];
    assert c1 == [CallbackQueryProcessor, InlineQueryProcessor] && c2 == [InlineQueryProcessor] && c2[1..] == [];
    assert Visited(c2, update) == (if update.inlineQuery.Some? then [InlineQueryProcessor] else []);
  }

  // ----- Inline queries -----

  /** An inline-query function: its handler and the query strings it
      declares (None when it carries no inline-query tag). */
  datatype InlineFunction = InlineFunction(handler: HandlerId, queries: Option<set<string>>)

  function LowerChar(c: char): char {
    if 'A' <= c <= 'Z' then (c as int + 32) as char else c
  }

  /** `s.lower()` on ASCII letters. */
  function Lower(s: string): (r: string)
    ensures |r| == |s| && forall i :: 0 <= i < |s| ==> r[i] == LowerChar(s[i])
  {
    seq(|s|, i requires 0 <= i < |s| => LowerChar(s[i]))
  }

  /** Lowering twice changes nothing, so the second `lower()` of the lookup
      has no effect. */
  lemma LowerIdempotent(s: string)
    ensures Lower(Lower(s)) == Lower(s)
  {
    assert forall i :: 0 <= i < |s| ==> LowerChar(LowerChar(s[i])) == LowerChar(s[i]);
  }

  /** `key.startswith(prefix)` */
  predicate StartsWith(key: string, prefix: string) {
    |prefix| <= |key| && key[..|prefix|] == prefix
  }

  /** The position of the first key that starts with `prefix`. */
  function FirstMatch(keys: seq<string>, prefix: string): (r: Option<nat>)
    ensures r.None? <==> forall i :: 0 <= i < |keys| ==> !StartsWith(keys[i], prefix)
    ensures r.Some? ==>
      && r.value < |keys| && StartsWith(keys[r.value], prefix)
      && forall i :: 0 <= i < r.value ==> !StartsWith(keys[i], prefix)
  {
    if keys == [] then None
    else if StartsWith(keys[0], prefix) then Some(0)
    else
      var r := FirstMatch(keys[1..], prefix);
      assert forall i :: 0 < i < |keys| ==> keys[1..][i - 1] == keys[i];
      if r.Some? then Some(r.value + 1) else None
  }

  /** The handler the inline query processor picks for `query`: the one
      registered under the first key, in insertion order, that starts with
      the lowercased query. */
  function InlineHandler(reg: Dict<string, HandlerId>, query: string): Option<HandlerId> {
    match FirstMatch(reg.order, Lower(query))
    case None => None
    case Some(i) => Some(reg.items[reg.order[i]])
  }

  /** `register_inlinequery_handler` over the declared queries in `order`:
      `reg[query] = function_` for each. */
  function RegisterQueries(reg: Dict<string, HandlerId>, h: HandlerId, order: seq<string>): Dict<string, HandlerId> {
    PutEach(reg, order, h)
  }

  /** Every declared query maps to the function, re-registering a query
      overwrites its handler, every other query keeps its handler, and a
      registered query keeps its place in the lookup order. */
  lemma RegisterQueriesMaps(reg: Dict<string, HandlerId>, h: HandlerId, order: seq<string>)
    ensures var r := RegisterQueries(reg, h, order);
      && (forall q :: q in order ==> q in r.items && r.items[q] == h)
      && (forall q :: q !in order ==> (q in r.items <==> q in reg.items) && (q in reg.items ==> r.items[q] == reg.items[q]))
      && reg.order <= r.order
  {
    PutEachMaps(reg, order, h);
  }

  // ----- Tasks -----

  /** A task handed to the worker pool: the bound method and its arguments. */
  datatype DispatchTask =
    | MessageTask(ctx: Context.ChatContext, update: Update)
    | CallbackQueryTask(ctx: Context.ChatContext, update: Update)
    | InlineTask(handler: HandlerId, update: Update)
    | OnEventTask(ctx: Context.ChatContext, event: string, data: string)
    | OnStopTask(ctx: Context.ChatContext)

  function TaskFor(path: State.Path, c: Context.ChatContext, update: Update): DispatchTask {
    match path
    case MessagePath => MessageTask(c, update)
    case CallbackQueryPath => CallbackQueryTask(c, update)
  }

  /** `registry[key]` on a table value: the stored context, or None (null). */
  function StoredAt(contexts: Dict<int, Context.ChatContext?>, key: int): Context.ChatContext? {
    if key in contexts.items then contexts.items[key] else null
  }

  /** What the get-or-create of a message or callback-query processor does,
      from the context table `before` and task log `tasksBefore` to `after`
      and `tasksAfter`: an unknown chat-type name raises AttributeError and
      changes nothing; a stored context has the path's handling queued; else
      the factory stores a new context, which gets the handling, or None
      for a kind without a class. */
  ghost predicate DeliverEffect(path: State.Path, msg: Message, update: Update, classReg: map<TagValue, Context.HandlerClass>,
                                before: Dict<int, Context.ChatContext?>, tasksBefore: seq<DispatchTask>,
                                after: Dict<int, Context.ChatContext?>, tasksAfter: seq<DispatchTask>, outcome: Outcome)
  {
    var data := ExtractChatData(msg);
    && (data.Err? ==> outcome == Raised(AttributeError) && after == before && tasksAfter == tasksBefore)
    && (data.Ok? && StoredAt(before, data.value.chatId) != null ==>
          && outcome == Done && after == before
          && tasksAfter == tasksBefore + [TaskFor(path, StoredAt(before, data.value.chatId), update)])
    && (data.Ok? && StoredAt(before, data.value.chatId) == null ==>
          var cls := Context.ResolveClass(classReg, data.value.chatType);
          && cls.Ok?
          && (cls.value.None? ==>
                outcome == Done && after == Put(before, data.value.chatId, null) && tasksAfter == tasksBefore)
          && (cls.value.Some? ==>
                && outcome == Done
                && data.value.chatId in after.items
                && var c := after.items[data.value.chatId];
                && c != null
                && c.chatType == data.value.chatType && c.userOrGroup == data.value.userOrGroup
                && c.handlers == cls.value.value.handlers
                && after == Put(before, data.value.chatId, c)
                && tasksAfter == tasksBefore + [TaskFor(path, c, update)]))
  }

  /** What `process` of processor `p` does with an update it is responsible
      for: the message and callback-query processors deliver to the chat of
      their message; the inline query processor queues the handler its
      lookup picks, if any, and touches no context. */
  ghost predicate ProcessEffect(p: Processor, update: Update, classReg: map<TagValue, Context.HandlerClass>,
                                inlineReg: Dict<string, HandlerId>,
                                before: Dict<int, Context.ChatContext?>, tasksBefore: seq<DispatchTask>,
                                after: Dict<int, Context.ChatContext?>, tasksAfter: seq<DispatchTask>, outcome: Outcome)
  {
    match p
    case MessageProcessor =>
      update.message.Some? &&
      DeliverEffect(State.MessagePath, update.message.value, update, classReg, before, tasksBefore, after, tasksAfter, outcome)
    case CallbackQueryProcessor =>
      update.callbackQuery.Some? &&
      CallbackEffect(update.callbackQuery.value, update, classReg, before, tasksBefore, after, tasksAfter, outcome)
    case InlineQueryProcessor =>
      && update.inlineQuery.Some?
      && var h := InlineHandler(inlineReg, update.inlineQuery.value.query);
      && outcome == Done && after == before
      && tasksAfter == tasksBefore + (if h.Some? then [InlineTask(h.value, update)] else [])
  }

  /** The callback-query processor on query `cq`: a query without a message
      raises AttributeError where `_extract_chat_data` reads its chat, and
      changes nothing; otherwise the query is delivered to its message's chat. */
  ghost predicate CallbackEffect(cq: CallbackQuery, update: Update, classReg: map<TagValue, Context.HandlerClass>,
                                 before: Dict<int, Context.ChatContext?>, tasksBefore: seq<DispatchTask>,
                                 after: Dict<int, Context.ChatContext?>, tasksAfter: seq<DispatchTask>, outcome: Outcome)
  {
    match cq.message
    case None => outcome == Raised(AttributeError) && after == before && tasksAfter == tasksBefore
    case Some(m) => DeliverEffect(State.CallbackQueryPath, m, update, classReg, before, tasksBefore, after, tasksAfter, outcome)
  }

  /** The context table, task log and outcome one processor leaves. */
  datatype Step = Step(contexts: Dict<int, Context.ChatContext?>, tasks: seq<DispatchTask>, outcome: Outcome)

  /** The state the `i`-th processor of a run starts from. */
  function StepBefore(steps: seq<Step>, i: nat, before: Dict<int, Context.ChatContext?>, tasksBefore: seq<DispatchTask>): Step
    requires i <= |steps|
  {
    if i == 0 then Step(before, tasksBefore, Done) else steps[i - 1]
  }

  /** The processors `ran` ran in turn, each from the state the one before it
      left (`steps`): each had its own effect, only the last may have raised,
      and the last one's state and outcome are the chain's. */
  ghost predicate ChainRun(ran: seq<Processor>, steps: seq<Step>, update: Update,
                           classReg: map<TagValue, Context.HandlerClass>, inlineReg: Dict<string, HandlerId>,
                           before: Dict<int, Context.ChatContext?>, tasksBefore: seq<DispatchTask>,
                           after: Dict<int, Context.ChatContext?>, tasksAfter: seq<DispatchTask>, outcome: Outcome)
    decreases |ran|
  {
    && |steps| == |ran|
    && if ran == [] then after == before && tasksAfter == tasksBefore && outcome == Done
       else
         var n := |ran| - 1;
         var prev := StepBefore(steps, n, before, tasksBefore);
         && ChainRun(ran[..n], steps[..n], update, classReg, inlineReg, before, tasksBefore, prev.contexts, prev.tasks, Done)
         && ProcessEffect(ran[n], update, classReg, inlineReg, prev.contexts, prev.tasks,
                          steps[n].contexts, steps[n].tasks, steps[n].outcome)
         && steps[n] == Step(after, tasksAfter, outcome)
  }

  /** The last step of a run is the state the run ends in. */
  lemma ChainRunLast(ran: seq<Processor>, steps: seq<Step>, update: Update,
                     classReg: map<TagValue, Context.HandlerClass>, inlineReg: Dict<string, HandlerId>,
                     before: Dict<int, Context.ChatContext?>, tasksBefore: seq<DispatchTask>,
                     after: Dict<int, Context.ChatContext?>, tasksAfter: seq<DispatchTask>, outcome: Outcome)
    requires ChainRun(ran, steps, update, classReg, inlineReg, before, tasksBefore, after, tasksAfter, outcome)
    ensures StepBefore(steps, |steps|, before, tasksBefore) == Step(after, tasksAfter, outcome)
  {
  }

  /** A run that has not raised, followed by one more processor with its
      effect, is a run. */
  lemma ChainRunStep(ran: seq<Processor>, steps: seq<Step>, p: Processor, last: Step, update: Update,
                     classReg: map<TagValue, Context.HandlerClass>, inlineReg: Dict<string, HandlerId>,
                     before: Dict<int, Context.ChatContext?>, tasksBefore: seq<DispatchTask>)
    requires var s := StepBefore(steps, |steps|, before, tasksBefore);
      && ChainRun(ran, steps, update, classReg, inlineReg, before, tasksBefore, s.contexts, s.tasks, Done)
      && ProcessEffect(p, update, classReg, inlineReg, s.contexts, s.tasks, last.contexts, last.tasks, last.outcome)
    ensures ChainRun(ran + [p], steps + [last], update, classReg, inlineReg, before, tasksBefore,
                     last.contexts, last.tasks, last.outcome)
  {
    var ran', steps' := ran + [p], steps + [last];
    assert ran'[..|ran|] == ran && steps'[..|steps|] == steps;
    assert StepBefore(steps', |ran|, before, tasksBefore) == StepBefore(steps, |steps|, before, tasksBefore);
  }

  /** A complete run of the dispatcher's chain, by the shape of the update:
      a message alone is delivered to its chat; a callback query is
      delivered to the chat of its message (or raises AttributeError when
      it carries none), after the update's own message when there is one,
      and no inline handler runs; an inline query
      queues the handler its lookup picks, if any, after the update's own
      message when there is one. */
  lemma ChainEffect(ran: seq<Processor>, steps: seq<Step>, update: Update,
                    classReg: map<TagValue, Context.HandlerClass>, inlineReg: Dict<string, HandlerId>,
                    before: Dict<int, Context.ChatContext?>, tasksBefore: seq<DispatchTask>,
                    after: Dict<int, Context.ChatContext?>, tasksAfter: seq<DispatchTask>, outcome: Outcome)
    requires ran == Visited(CHAIN, update)
    requires ChainRun(ran, steps, update, classReg, inlineReg, before, tasksBefore, after, tasksAfter, outcome)
    ensures update.message.Some? && update.callbackQuery.None? && update.inlineQuery.None? ==>
      DeliverEffect(State.MessagePath, update.message.value, update, classReg, before, tasksBefore, after, tasksAfter, outcome)
    ensures update.message.None? && update.callbackQuery.Some? ==>
      CallbackEffect(update.callbackQuery.value, update, classReg,
                    before, tasksBefore, after, tasksAfter, outcome)
    ensures update.message.Some? && update.callbackQuery.Some? ==>
      && |steps| == 2 && steps[0].outcome == Done
      && DeliverEffect(State.MessagePath, update.message.value, update, classReg,
                       before, tasksBefore, steps[0].contexts, steps[0].tasks, Done)
      && CallbackEffect(update.callbackQuery.value, update, classReg,
                       steps[0].contexts, steps[0].tasks, after, tasksAfter, outcome)
    ensures update.message.None? && update.callbackQuery.None? && update.inlineQuery.Some? ==>
      var h := InlineHandler(inlineReg, update.inlineQuery.value.query);
      outcome == Done && after == before && tasksAfter == tasksBefore + (if h.Some? then [InlineTask(h.value, update)] else [])
    ensures update.message.Some? && update.callbackQuery.None? && update.inlineQuery.Some? ==>
      var h := InlineHandler(inlineReg, update.inlineQuery.value.query);
      && |steps| == 2 && steps[0].outcome == Done
      && DeliverEffect(State.MessagePath, update.message.value, update, classReg,
                       before, tasksBefore, steps[0].contexts, steps[0].tasks, Done)
      && outcome == Done && after == steps[0].contexts
      && tasksAfter == steps[0].tasks + (if h.Some? then [InlineTask(h.value, update)] else [])
    ensures update.message.None? && update.callbackQuery.None? && update.inlineQuery.None? ==>
      outcome == Done && after == before && tasksAfter == tasksBefore
  {
    ChainOrder(update);
    if ran != [] {
      var n := |ran| - 1;
      assert ran[..n] == [] || ran[..n] == [MessageProcessor] by {
        if update.message.Some? && update.callbackQuery.Some? {
          assert ran[..n] == [MessageProcessor];
        } else if update.message.Some? && update.inlineQuery.Some? && update.callbackQuery.None? {
          assert ran[..n] == [MessageProcessor];
        }
      }
      if n == 1 {
        assert steps[..n][..0] == [] && ran[..n][..0] == [];
      }
    }
  }

  /** A callback query from a message sent in inline mode carries no
      message: the callback-query processor raises AttributeError before it
      reaches any context, and the update leaves the table and the tasks as
      they were. */
  lemma MessagelessCallbackRaises(ran: seq<Processor>, steps: seq<Step>, update: Update,
                                  classReg: map<TagValue, Context.HandlerClass>, inlineReg: Dict<string, HandlerId>,
                                  before: Dict<int, Context.ChatContext?>, tasksBefore: seq<DispatchTask>,
                                  after: Dict<int, Context.ChatContext?>, tasksAfter: seq<DispatchTask>, outcome: Outcome)
    requires ran == Visited(CHAIN, update)
    requires ChainRun(ran, steps, update, classReg, inlineReg, before, tasksBefore, after, tasksAfter, outcome)
    requires update.message.None? && update.callbackQuery.Some? && update.callbackQuery.value.message.None?
    ensures outcome == Raised(AttributeError) && after == before && tasksAfter == tasksBefore
  {
    ChainEffect(ran, steps, update, classReg, inlineReg, before, tasksBefore, after, tasksAfter, outcome);
  }

  /** The stored values up to the first stored None, where reading a method
      of None raises AttributeError. */
  function Live(vals: seq<Context.ChatContext?>): (r: seq<Context.ChatContext>)
    ensures |r| <= |vals|
    ensures forall i :: 0 <= i < |r| ==> r[i] == vals[i]
    ensures |r| < |vals| ==> vals[|r|] == null
  {
    if vals == [] || vals[0] == null then []
    else
      var rest := Live(vals[1..]);
      [vals[0]] + rest
  }

  /** `broadcast_event`: one `on_event` task per context. */
  function EventTasks(cs: seq<Context.ChatContext>, event: string, data: string): (r: seq<DispatchTask>)
    ensures |r| == |cs| && forall i :: 0 <= i < |cs| ==> r[i] == OnEventTask(cs[i], event, data)
  {
    seq(|cs|, i requires 0 <= i < |cs| => OnEventTask(cs[i], event, data))
  }

  /** `stop`: one `on_stop` task per context. */
  function StopTasks(cs: seq<Context.ChatContext>): (r: seq<DispatchTask>)
    ensures |r| == |cs| && forall i :: 0 <= i < |cs| ==> r[i] == OnStopTask(cs[i])
  {
    seq(|cs|, i requires 0 <= i < |cs| => OnStopTask(cs[i]))
  }

  lemma TasksStep(cs: seq<Context.ChatContext>, i: nat, event: string, data: string)
    requires i < |cs|
    ensures EventTasks(cs[..i + 1], event, data) == EventTasks(cs[..i], event, data) + [OnEventTask(cs[i], event, data)]
    ensures StopTasks(cs[..i + 1]) == StopTasks(cs[..i]) + [OnStopTask(cs[i])]
  {
  }

  /** The chat ids of contexts. */
  function ChatIds(cs: seq<Context.ChatContext>): (r: seq<int>)
    ensures |r| == |cs| && forall i :: 0 <= i < |cs| ==> r[i] == cs[i].chatId
  {
    seq(|cs|, i requires 0 <= i < |cs| => cs[i].chatId)
  }

  /** Keys at strictly increasing positions of a table are distinct keys of it. */
  lemma KeysAtIncreasing<V>(d: Dict<int, V>, idx: seq<nat>)
    requires forall j :: 0 <= j < |idx| ==> idx[j] < |d.order|
    requires forall j, k :: 0 <= j < k < |idx| ==> idx[j] < idx[k]
    ensures forall j :: 0 <= j < |idx| ==> d.order[idx[j]] in d.items
    ensures forall j, k :: 0 <= j < k < |idx| ==> d.order[idx[j]] != d.order[idx[k]]
  {
    forall j | 0 <= j < |idx|
      ensures d.order[idx[j]] in d.items
    {
      assert d.order[idx[j]] in d.order;
    }
  }

  /** The contexts `idle()` returns sit at strictly increasing positions of
      a table that files every context under its own chat id, so their chat
      ids are distinct keys of it and deleting them one by one succeeds and
      removes exactly them. */
  lemma IdleContextsRemovable(d: Dict<int, Context.ChatContext?>, vals: seq<Context.ChatContext?>, idx: seq<nat>,
                              cs: seq<Context.ChatContext>)
    requires vals == Values(d)
    requires forall k :: k in d.items && d.items[k] != null ==> d.items[k].chatId == k
    requires forall j :: 0 <= j < |idx| ==> idx[j] < |vals|
    requires forall j, k :: 0 <= j < k < |idx| ==> idx[j] < idx[k]
    requires |cs| == |idx| && forall j :: 0 <= j < |idx| ==> cs[j] == vals[idx[j]]
    ensures DeleteEach(d, ChatIds(cs)).1 == Done
    ensures DeleteEach(d, ChatIds(cs)).0.items == d.items - set k | k in ChatIds(cs)
  {
    var ids := ChatIds(cs);
    KeysAtIncreasing(d, idx);
    forall j | 0 <= j < |idx|
      ensures ids[j] == d.order[idx[j]]
    {
      var k := d.order[idx[j]];
      assert k in d.items && vals[idx[j]] == d.items[k];
    }
    assert forall k :: k in ids ==> k in d.items;
    DeleteEachPresent(d, ids);
  }

  // ----- The dispatcher -----

  class ChatContextDispatcher {
    const bot: Bot
    const journal: Journal
    const pool: Pool<DispatchTask>
    const manager: Context.ChatContextManager
    const processors: seq<Processor>
    var me: Option<BotIdentity>
    var inlineReg: Dict<string, HandlerId>

    /** The context registry keeps its own invariant and shares this
        dispatcher's journal. */
    ghost predicate Valid()
      reads this, manager, manager.registry
    {
      manager.registry.Valid() && manager.registry.journal == journal
    }

    /** `ChatContextDispatcher(bot)` with a context manager whose contexts
        time out after `idleTimeout` seconds. */
    constructor (bot: Bot, journal: Journal, idleTimeout: int)
      ensures this.bot == bot && this.journal == journal && me == None && inlineReg == Empty()
      ensures processors == CHAIN
      ensures fresh(pool) && pool.tasks == [] && !pool.running
      ensures fresh(manager) && fresh(manager.registry) && fresh(manager.classRegistry)
      ensures manager.registry.contexts == Empty() && manager.classRegistry.chatTypeReg == map[]
      ensures Valid()
    {
      this.bot := bot;
      this.journal := journal;
      pool := new Pool<DispatchTask>();
      manager := new Context.ChatContextManager(idleTimeout, journal);
      processors := CHAIN;
      me := None;
      inlineReg := Empty();
    }

    /** `register_inlinequery_handler(function_)`, its queries enumerated in
        `order`. */
    method RegisterInlineQueryHandler(f: InlineFunction, order: seq<string>) returns (outcome: Outcome)
      requires f.queries.Some? ==> Distinct(order) && forall q :: q in order <==> q in f.queries.value
      modifies this`inlineReg
      ensures f.queries.None? ==> outcome == Raised(AssertionError) && inlineReg == old(inlineReg)
      ensures f.queries.Some? ==> outcome == Done && inlineReg == RegisterQueries(old(inlineReg), f.handler, order)
    {
      if f.queries.None? {
        return Raised(AssertionError);
      }
      var i := 0;
      while i < |order|
        invariant 0 <= i <= |order|
        invariant inlineReg == RegisterQueries(old(inlineReg), f.handler, order[..i])
      {
        assert order[..i + 1][..i] == order[..i];
        inlineReg := Put(inlineReg, order[i], f.handler);
        i := i + 1;
      }
      assert order[..i] == order;
      outcome := Done;
    }

    /** The lookup loop of `InlineQueryProcessor.process` for `query`. */
    method LookupInline(query: string) returns (handler: Option<HandlerId>)
      ensures handler == InlineHandler(inlineReg, query)
    {
      var lquery := Lower(query);
      LowerIdempotent(query);
      var keys := inlineReg.order;
      handler := None;
      var i := 0;
      while i < |keys|
        invariant 0 <= i <= |keys|
        invariant forall j :: 0 <= j < i ==> !StartsWith(keys[j], lquery)
      {
        if StartsWith(keys[i], Lower(lquery)) {
          handler := Some(inlineReg.items[keys[i]]);
          return;
        }
        i := i + 1;
      }
    }

    /** The get-or-create of `MessageProcessor.process` (MessagePath) and
        `CallbackQueryProcessor.process` (CallbackQueryPath) for the message
        `msg` whose chat they read, the double-check under LOCK taken as one
        step: a stored context has its handling queued; otherwise the manager builds
        and stores one (None for a kind without a class) and the new context
        gets exactly one task. */
    method Deliver(path: State.Path, msg: Message, update: Update, now: int) returns (outcome: Outcome)
      requires Valid() && me.Some?
      modifies manager.registry, pool
      ensures Valid() && pool.running == old(pool.running)
      ensures DeliverEffect(path, msg, update, manager.classRegistry.chatTypeReg,
                            old(manager.registry.contexts), old(pool.tasks), manager.registry.contexts, pool.tasks, outcome)
      ensures forall k :: (k in manager.registry.contexts.items && manager.registry.contexts.items[k] != null
                           && StoredAt(old(manager.registry.contexts), k) == null) ==> fresh(manager.registry.contexts.items[k])
    {
      var data := ExtractChatData(msg);
      if data.Err? {
        return Raised(data.error);
      }
      var d := data.value;
      var ctx := manager.Get(d.chatId);
      if ctx == null {
        var made := manager.NewChatContext(d.chatId, d.chatType, d.userOrGroup, me.value, bot.identity.id, now);
        assert made.Ok?;
        ctx := made.value;
      }
      if ctx != null {
        pool.Notify(TaskFor(path, ctx, update));
      }
      outcome := Done;
    }

    /** `process(exc, update)` of processor `p`, which the chain calls only
        when `p` is responsible for the update. */
    method Process(p: Processor, update: Update, now: int) returns (cont: bool, outcome: Outcome)
      requires Valid() && me.Some? && ResponsibleFor(p, update)
      modifies manager.registry, pool
      ensures Valid() && pool.running == old(pool.running)
      ensures cont == Continues(p)
      ensures ProcessEffect(p, update, manager.classRegistry.chatTypeReg, inlineReg,
                            old(manager.registry.contexts), old(pool.tasks), manager.registry.contexts, pool.tasks, outcome)
    {
      match p
      case MessageProcessor =>
        outcome := Deliver(State.MessagePath, update.message.value, update, now);
        cont := true;
      case CallbackQueryProcessor =>
        var cq := update.callbackQuery.value;
        if cq.message.None? {
          outcome := Raised(AttributeError);
        } else {
          outcome := Deliver(State.CallbackQueryPath, cq.message.value, update, now);
        }
        cont := false;
      case InlineQueryProcessor =>
        var handler := LookupInline(update.inlineQuery.value.query);
        if handler.Some? {
          pool.Notify(InlineTask(handler.value, update));
        }
        cont := false;
        outcome := Done;
    }

    /** Processor `i` of the chain, responsible for the update, after a run
        `ran` that has not raised: the run grows by it and the step it took,
        and the chain goes on past it only when it returns True. */
    method ProcessNext(i: nat, update: Update, now: int, ran: seq<Processor>, ghost steps: seq<Step>,
                       ghost before: Dict<int, Context.ChatContext?>, ghost tasksBefore: seq<DispatchTask>)
      returns (cont: bool, outcome: Outcome, ran': seq<Processor>, ghost steps': seq<Step>)
      requires Valid() && me.Some? && i < |processors| && ResponsibleFor(processors[i], update)
      requires Visited(processors, update) == ran + Visited(processors[i..], update)
      requires ChainRun(ran, steps, update, manager.classRegistry.chatTypeReg, inlineReg, before, tasksBefore,
                        manager.registry.contexts, pool.tasks, Done)
      modifies manager.registry, pool
      ensures Valid() && pool.running == old(pool.running)
      ensures cont == Continues(processors[i]) && ran' == ran + [processors[i]]
      ensures ran' <= Visited(processors, update)
      ensures cont ==> Visited(processors, update) == ran' + Visited(processors[i + 1..], update)
      ensures !cont ==> Visited(processors, update) == ran'
      ensures ChainRun(ran', steps', update, manager.classRegistry.chatTypeReg, inlineReg, before, tasksBefore,
                       manager.registry.contexts, pool.tasks, outcome)
    {
      var p := processors[i];
      VisitedFrom(processors, update, i);
      ghost var reg := manager.classRegistry.chatTypeReg;
      ChainRunLast(ran, steps, update, reg, inlineReg, before, tasksBefore, manager.registry.contexts, pool.tasks, Done);
      cont, outcome := Process(p, update, now);
      ran', steps' := ran + [p], steps + [Step(manager.registry.contexts, pool.tasks, outcome)];
      ChainRunStep(ran, steps, p, steps'[|steps|], update, reg, inlineReg, before, tasksBefore);
      AppendAssoc(ran, [p], if cont then Visited(processors[i + 1..], update) else []);
    }

    /** `ProcessorChain.process(exc, update)` once `exc` has passed its
        assertion: `ran` lists the processors whose `process` ran, in order;
        an exception ends the chain at the processor that raised it. */
    method ProcessChain(update: Update, now: int) returns (ran: seq<Processor>, outcome: Outcome, ghost steps: seq<Step>)
      requires Valid() && me.Some?
      modifies manager.registry, pool
      ensures Valid() && pool.running == old(pool.running)
      ensures ran <= Visited(processors, update)
      ensures outcome == Done ==> ran == Visited(processors, update)
      ensures outcome != Done ==> ran != []
      ensures ChainRun(ran, steps, update, manager.classRegistry.chatTypeReg, inlineReg,
                       old(manager.registry.contexts), old(pool.tasks), manager.registry.contexts, pool.tasks, outcome)
    {
      ghost var contexts0, tasks0 := manager.registry.contexts, pool.tasks;
      ghost var cur, curTasks := contexts0, tasks0;
      ran, steps := [], [];
      var i := 0;
      while i < |processors|
        invariant 0 <= i <= |processors|
        invariant Valid() && pool.running == old(pool.running)
        invariant manager.registry.contexts == cur && pool.tasks == curTasks
        invariant ran <= Visited(processors, update)
        invariant Visited(processors, update) == ran + Visited(processors[i..], update)
        invariant ChainRun(ran, steps, update, manager.classRegistry.chatTypeReg, inlineReg, contexts0, tasks0, cur, curTasks, Done)
      {
        if ResponsibleFor(processors[i], update) {
          var cont, o;
          cont, o, ran, steps := ProcessNext(i, update, now, ran, steps, contexts0, tasks0);
          cur, curTasks := manager.registry.contexts, pool.tasks;
          if o != Done || !cont {
            return ran, o, steps;
          }
        } else {
          VisitedFrom(processors, update, i);
        }
        i := i + 1;
      }
      assert processors[i..] == [];
      outcome := Done;
    }

    /** `dispatch_update(update)` at time `now`, where `exc` says whether the
        dispatch execution context entered as something truthy: the bot
        identity is fetched only while unknown, and the chain asserts `exc`
        before it runs. */
    method DispatchUpdate(update: Update, exc: bool, now: int) returns (ran: seq<Processor>, outcome: Outcome, ghost steps: seq<Step>)
      requires Valid() && processors == CHAIN
      modifies this`me, bot, manager.registry, pool
      ensures Valid() && pool.running == old(pool.running)
      ensures me == (if old(me).Some? then old(me) else Some(bot.identity))
      ensures bot.calls == old(bot.calls) + (if old(me).None? then [GetMe] else [])
      ensures !exc ==>
        && outcome == Raised(AssertionError) && ran == []
        && pool.tasks == old(pool.tasks) && manager.registry.contexts == old(manager.registry.contexts)
      ensures exc && outcome == Done ==> ran == Visited(CHAIN, update)
      ensures exc ==> ran <= Visited(CHAIN, update)
      ensures exc ==> ChainRun(ran, steps, update, manager.classRegistry.chatTypeReg, inlineReg,
                               old(manager.registry.contexts), old(pool.tasks), manager.registry.contexts, pool.tasks, outcome)
    {
      if me.None? {
        var identity := bot.GetMe();
        me := Some(identity);
      }
      if !exc {
        return [], Raised(AssertionError), [];
      }
      ran, outcome, steps := ProcessChain(update, now);
    }

    /** The removal loop of `idle_check`: `manager.remove_chat_context(ctx)`
        for each context in turn, collecting it, until a removal raises. */
    method RemoveEach(cs: seq<Context.ChatContext>) returns (removed: seq<Context.ChatContext>, outcome: Outcome)
      modifies manager.registry
      ensures (manager.registry.contexts, outcome) == DeleteEach(old(manager.registry.contexts), ChatIds(cs))
      ensures outcome == Done ==> removed == cs
      ensures old(Valid()) ==> Valid()
    {
      ghost var ids := ChatIds(cs);
      ghost var start := manager.registry.contexts;
      removed := [];
      var i := 0;
      while i < |cs|
        invariant 0 <= i <= |cs|
        invariant removed == cs[..i]
        invariant DeleteEach(start, ids[..i]) == (manager.registry.contexts, Done)
        invariant old(Valid()) ==> Valid()
      {
        assert ids[i] == cs[i].chatId;
        DeleteEachStep(start, ids, i);
        var o := manager.RemoveChatContext(cs[i]);
        if o != Done {
          DeleteEachFailureSticks(start, ids, i + 1);
          return removed, o;
        }
        PrefixGrows(cs, i);
        removed := removed + [cs[i]];
        i := i + 1;
      }
      assert ids[..i] == ids && removed == cs;
      outcome := Done;
    }

    /** `idle_check()` at time `now`, where `answer(chat_id)` is what that
        chat's idle handler returns: the journal gains the `on_idle` calls
        `manager.idle()` makes, up to a stored None when there is one, and
        the contexts it selects are removed and returned in that order. */
    method IdleCheck(now: int, answer: int -> bool) returns (r: Result<seq<Context.ChatContext>>)
      requires Valid()
      modifies manager.registry, journal
      ensures Valid()
      ensures var vals := old(Values(manager.registry.contexts));
        var snaps := old(Context.SnapshotsOf(vals));
        var n := Context.FirstNull(snaps);
        && (r.Ok? <==> n == |vals|)
        && (r.Err? ==> r.error == AttributeError && manager.registry.contexts == old(manager.registry.contexts)
                       && journal.calls == old(journal.calls) + Context.IdleCalls(snaps, n, now, manager.registry.idleTimeout))
        && (r.Ok? ==>
              var idx := Context.IdleIndices(snaps, |snaps|, now, manager.registry.idleTimeout, answer);
              && journal.calls == old(journal.calls) + Context.IdleCalls(snaps, |snaps|, now, manager.registry.idleTimeout)
              && |r.value| == |idx|
              && (forall j :: 0 <= j < |idx| ==> idx[j] < |vals| && r.value[j] == vals[idx[j]])
              && (manager.registry.contexts, Done) == DeleteEach(old(manager.registry.contexts), ChatIds(r.value))
              && manager.registry.contexts.items == old(manager.registry.contexts.items) - set k | k in ChatIds(r.value))
    {
      ghost var before := manager.registry.contexts;
      ghost var vals := Values(before);
      ghost var snaps := Context.SnapshotsOf(vals);
      var idle := manager.Idle(now, answer);
      if idle.Err? {
        return idle;
      }
      Context.IdleSelectsExactly(snaps, |snaps|, now, manager.registry.idleTimeout, answer);
      IdleContextsRemovable(before, vals, Context.IdleIndices(snaps, |snaps|, now, manager.registry.idleTimeout, answer), idle.value);
      var removed, o := RemoveEach(idle.value);
      assert o == Done;
      r := Ok(removed);
    }

    /** `broadcast_event(event, data)`: one `on_event` task per stored
        context, in insertion order; a stored None raises AttributeError
        when it is reached. */
    method BroadcastEvent(event: string, data: string) returns (outcome: Outcome)
      modifies pool
      ensures var live := Live(manager.All());
        && pool.tasks == old(pool.tasks) + EventTasks(live, event, data)
        && (outcome == Done <==> |live| == |manager.All()|)
        && (outcome != Done ==> outcome == Raised(AttributeError))
        && pool.running == old(pool.running)
    {
      var vals := manager.All();
      var live := Live(vals);
      var i := 0;
      while i < |vals|
        invariant 0 <= i <= |live|
        invariant pool.tasks == old(pool.tasks) + EventTasks(live[..i], event, data)
        invariant pool.running == old(pool.running)
      {
        if vals[i] == null {
          assert |live| == i;
          assert live[..i] == live;
          return Raised(AttributeError);
        }
        assert i < |live|;
        pool.Notify(OnEventTask(vals[i], event, data));
        TasksStep(live, i, event, data);
        AppendAssoc(old(pool.tasks), EventTasks(live[..i], event, data), [OnEventTask(live[i], event, data)]);
        i := i + 1;
      }
      assert live[..i] == live;
      outcome := Done;
    }

    /** `remove_chat_context(ctx)` */
    method RemoveChatContext(ctx: Context.ChatContext) returns (outcome: Outcome)
      modifies manager.registry
      ensures (manager.registry.contexts, outcome) == DeleteTimes(old(manager.registry.contexts), ctx.chatId, 1)
      ensures old(Valid()) ==> Valid()
    {
      outcome := manager.RemoveChatContext(ctx);
    }

    /** `start()` */
    method Start()
      modifies pool
      ensures pool.running && pool.tasks == old(pool.tasks)
    {
      pool.Start();
    }

    /** `stop()`: one `on_stop` task per stored context, then the pool stops;
        a stored None raises AttributeError first, and the pool keeps running. */
    method Stop() returns (outcome: Outcome)
      modifies pool
      ensures var live := Live(manager.All());
        && pool.tasks == old(pool.tasks) + StopTasks(live)
        && (outcome == Done <==> |live| == |manager.All()|)
        && (outcome != Done ==> outcome == Raised(AttributeError) && pool.running == old(pool.running))
        && (outcome == Done ==> !pool.running)
    {
      var vals := manager.All();
      var live := Live(vals);
      var i := 0;
      while i < |vals|
        invariant 0 <= i <= |live|
        invariant pool.tasks == old(pool.tasks) + StopTasks(live[..i])
        invariant pool.running == old(pool.running)
      {
        if vals[i] == null {
          assert |live| == i;
          assert live[..i] == live;
          return Raised(AttributeError);
        }
        assert i < |live|;
        pool.Notify(OnStopTask(vals[i]));
        TasksStep(live, i, "", "");
        AppendAssoc(old(pool.tasks), StopTasks(live[..i]), [OnStopTask(live[i])]);
        i := i + 1;
      }
      assert live[..i] == live;
      pool.Stop();
      outcome := Done;
    }
  }
}
