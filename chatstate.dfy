/** chatstate/chatstate.py: the earlier revision of the per-chat session
    ChatState and its ChatStateDispatcher. Compared with chatstate/state.py it
    has no bot identity, matches a command entity by its raw text (no
    '@recipient' addressing), keys chats by kind through the CHAT_TYPE dict,
    and tracks no user or group name. */
module Chatstate {
  import opened Base
  import opened Dicts
  import opened ChatTypes
  import opened Telegram
  import opened Effects
  import opened Reflection
  import opened Registry
  import opened Sessions
  import Context
  import State

  // ----- Commands -----

  /** One entity of `handle_message`: a bot_command queues every handler
      registered under its exact text, and the text '/stop' also removes the
      state. */
  function ScanEntity(commands: map<TagValue, seq<HandlerId>>, text: string, e: MessageEntity): (r: Context.Scan)
    ensures e.kind != BOT_COMMAND ==> r == Context.Scan([], 0)
    ensures r.stops <= 1
    ensures r.stops == 1 <==> e.kind == BOT_COMMAND && EntityText(text, e) == "/stop"
    ensures r.handlers != [] ==>
      e.kind == BOT_COMMAND && Name(EntityText(text, e)) in commands && r.handlers == commands[Name(EntityText(text, e))]
  {
    if e.kind != BOT_COMMAND then Context.Scan([], 0)
    else
      var command := EntityText(text, e);
      Context.Scan(Listed(commands, Name(command)), if command == "/stop" then 1 else 0)
  }

  /** The entities of a message, in order. */
  function ScanEntities(commands: map<TagValue, seq<HandlerId>>, text: string, es: seq<MessageEntity>): Context.Scan {
    if es == [] then Context.Scan([], 0)
    else
      var s := ScanEntities(commands, text, es[..|es| - 1]);
      var t := ScanEntity(commands, text, es[|es| - 1]);
      Context.Scan(s.handlers + t.handlers, s.stops + t.stops)
  }

  /** One more entity of the scan. */
  lemma ScanEntitiesStep(commands: map<TagValue, seq<HandlerId>>, text: string, es: seq<MessageEntity>, i: nat)
    requires i < |es|
    ensures var before := ScanEntities(commands, text, es[..i]);
      var step := ScanEntity(commands, text, es[i]);
      ScanEntities(commands, text, es[..i + 1]) == Context.Scan(before.handlers + step.handlers, before.stops + step.stops)
  {
    assert es[..i + 1][..i] == es[..i];
  }

  lemma {:induction false} ScanStopsGrow(commands: map<TagValue, seq<HandlerId>>, text: string, es: seq<MessageEntity>, i: nat)
    requires i <= |es|
    ensures ScanEntities(commands, text, es[..i]).stops <= ScanEntities(commands, text, es).stops
  {
    if i < |es| {
      assert es[..|es| - 1][..i] == es[..i];
      ScanStopsGrow(commands, text, es[..|es| - 1], i);
    } else {
      assert es[..i] == es;
    }
  }

  /** A command written '/cmd@botname' is looked up under that whole text: it
      runs no handler registered under a plain name, and '/stop@botname' does
      not remove the state. */
  lemma AddressedCommandUnmatched(commands: map<TagValue, seq<HandlerId>>, text: string, e: MessageEntity)
    requires forall k :: k in commands && k.Name? ==> '@' !in k.name
    requires '@' in EntityText(text, e)
    ensures ScanEntity(commands, text, e) == Context.Scan([], 0)
  {
    var command := EntityText(text, e);
    if e.kind == BOT_COMMAND {
      assert Name(command) !in commands;
      assert '@' !in "/stop";
    }
  }

  /** In a private chat and with no '@' in any entity, this revision and the
      addressing of chatstate/state.py queue the same handlers and remove the
      state the same number of times. */
  lemma {:induction false} PrivateScanAgrees(me: BotIdentity, commands: map<TagValue, seq<HandlerId>>, text: string, es: seq<MessageEntity>)
    requires forall i :: 0 <= i < |es| ==> '@' !in EntityText(text, es[i])
    ensures ScanEntities(commands, text, es) == State.ScanEntities(PRIVATE, me, commands, text, es)
  {
    if es != [] {
      var p, e := es[..|es| - 1], es[|es| - 1];
      PrivateScanAgrees(me, commands, text, p);
      Context.AddressingRule(PRIVATE, me, EntityText(text, e));
    }
  }

  /** Outside private chats the two revisions part ways: a bare '/cmd' in a
      group runs the handlers of '/cmd' here, and none in chatstate/state.py. */
  lemma GroupBareCommandDiffers(me: BotIdentity, commands: map<TagValue, seq<HandlerId>>, text: string, e: MessageEntity)
    requires e.kind == BOT_COMMAND && '@' !in EntityText(text, e)
    ensures ScanEntity(commands, text, e).handlers == Listed(commands, Name(EntityText(text, e)))
    ensures State.ScanEntity(GROUP, me, commands, text, e) == Context.Scan([], 0)
  {
    Context.AddressingRule(GROUP, me, EntityText(text, e));
  }

  /** The plan of `handle_message`: every message handler, then the command
      handlers in entity order, then the new-member handlers, then the
      left-member handlers unless the bot itself left, which removes the
      state instead. */
  function PlanOf(h: HandlerLists, botId: int, msg: Message): (r: State.Plan)
    ensures |h.messages| <= |r.handlers| && r.handlers[..|h.messages|] == h.messages
    ensures msg.newChatMember.Some? && (msg.leftChatMember.None? || Context.BotLeft(msg, botId)) ==>
      |h.newChatMembers| <= |r.handlers| && r.handlers[|r.handlers| - |h.newChatMembers|..] == h.newChatMembers
    ensures msg.leftChatMember.Some? && !Context.BotLeft(msg, botId) ==>
      |h.leftChatMembers| <= |r.handlers| && r.handlers[|r.handlers| - |h.leftChatMembers|..] == h.leftChatMembers
    ensures Context.BotLeft(msg, botId) ==> r.removals >= 1
  {
    var scan := ScanEntities(h.commands, msg.text, msg.entities);
    var joined := if msg.newChatMember.Some? then h.newChatMembers else [];
    var left := if msg.leftChatMember.Some? && !Context.BotLeft(msg, botId) then h.leftChatMembers else [];
    assert (h.messages + scan.handlers + joined + left)[..|h.messages|] == h.messages;
    EndsWith(h.messages + scan.handlers + joined, left);
    EndsWith(h.messages + scan.handlers, joined);
    State.Plan(scan.stops + (if Context.BotLeft(msg, botId) then 1 else 0), h.messages + scan.handlers + joined + left)
  }

  /** The handler list split into its parts: message handlers first, the
      command handlers right after them, the new-member handlers next when
      someone joined, the left-member handlers last when someone else left,
      and none of them when the bot itself left. */
  lemma PlanOrder(h: HandlerLists, botId: int, msg: Message)
    ensures var scan := ScanEntities(h.commands, msg.text, msg.entities);
      var joined := if msg.newChatMember.Some? then h.newChatMembers else [];
      var r := PlanOf(h, botId, msg);
      var m := |h.messages|;
      && m + |scan.handlers| <= |r.handlers|
      && r.handlers[m..m + |scan.handlers|] == scan.handlers
      && (Context.BotLeft(msg, botId) ==> r.handlers == h.messages + scan.handlers + joined)
      && (msg.leftChatMember.Some? && !Context.BotLeft(msg, botId) ==>
            r.handlers == h.messages + scan.handlers + joined + h.leftChatMembers)
      && (msg.newChatMember.None? && msg.leftChatMember.None? ==> r.handlers == h.messages + scan.handlers)
      && (msg.newChatMember.Some? && msg.leftChatMember.None? ==>
            r.handlers == h.messages + scan.handlers + h.newChatMembers)
      && r.removals == scan.stops + (if Context.BotLeft(msg, botId) then 1 else 0)
  {
    var scan := ScanEntities(h.commands, msg.text, msg.entities);
    var joined := if msg.newChatMember.Some? then h.newChatMembers else [];
    var left := if msg.leftChatMember.Some? && !Context.BotLeft(msg, botId) then h.leftChatMembers else [];
    ConcatParts(h.messages, scan.handlers, joined, left);
  }

  // ----- Chat data -----

  /** The CHAT_TYPE dict of this revision: platform chat-type name to kind. */
  const CHAT_TYPE: map<string, int> :=
    map["private" := PRIVATE, "group" := GROUP, "channel" := CHANNEL, "supergroup" := SUPERGROUP]

  /** The dict knows exactly the names that CHAT_TYPE_NAME of the package
      root knows, and gives them the same kinds. */
  lemma ChatTypeDictAgrees(name: string)
    ensures name in CHAT_TYPE <==> KindOfName(name).Some?
    ensures name in CHAT_TYPE ==> KindOfName(name) == Some(CHAT_TYPE[name])
  {
    NameTable(name);
    NamesDiffer();
    if name == "private" {
      assert CHAT_TYPE[name] == PRIVATE;
    } else if name == "group" {
      assert CHAT_TYPE[name] == GROUP;
    } else if name == "channel" {
      assert CHAT_TYPE[name] == CHANNEL;
    } else if name == "supergroup" {
      assert CHAT_TYPE[name] == SUPERGROUP;
    } else {
      assert name !in CHAT_TYPE;
    }
  }

  /** The chat id and kind the two dispatch paths read off a message. */
  datatype ChatKey = ChatKey(chatId: int, chatType: int)

  /** `chat.id, CHAT_TYPE[chat.type]`: KeyError for a chat-type name the
      dict does not know. */
  function ExtractChatKey(msg: Message): (r: Result<ChatKey>)
    ensures r.Err? <==> msg.chat.kind !in {"private", "group", "channel", "supergroup"}
    ensures r.Err? ==> r.error == KeyError
    ensures r.Ok? ==> r.value.chatId == msg.chat.id && r.value.chatType != ANY && KindOfName(msg.chat.kind) == Some(r.value.chatType)
  {
    ChatTypeDictAgrees(msg.chat.kind);
    if msg.chat.kind in CHAT_TYPE then Ok(ChatKey(msg.chat.id, CHAT_TYPE[msg.chat.kind])) else Err(KeyError)
  }

  // ----- Routing -----

  /** What the dispatcher finds for the chat of an update. */
  datatype Route =
    | Unreadable(error: Exception)
    | Existing(state: ChatState)
    | Create(key: ChatKey, cls: State.StateClass)
    | Unhandled

  /** `chat_state = self._states.get(chat_id)`, then the class lookup of
      `_make_chat_state` when there is none. */
  function RouteOf(key: Result<ChatKey>, states: Dict<int, ChatState>, reg: map<TagValue, State.StateClass>): (r: Route)
    ensures r.Existing? <==> key.Ok? && key.value.chatId in states.items
    ensures r.Existing? ==> r.state == states.items[key.value.chatId]
    ensures r.Create? ==> key.Ok? && r.key == key.value && Fallback(reg, key.value.chatType) == Some(r.cls)
    ensures r.Unhandled? <==> key.Ok? && key.value.chatId !in states.items && Fallback(reg, key.value.chatType).None?
  {
    if key.Err? then Unreadable(key.error)
    else if key.value.chatId in states.items then Existing(states.items[key.value.chatId])
    else match Fallback(reg, key.value.chatType)
      case Some(cls) => Create(key.value, cls)
      case None => Unhandled
  }

  /** A task handed to the worker pool: the bound method and its argument. */
  datatype Task =
    | ActivateTask(state: ChatState)
    | MessageTask(state: ChatState, update: Update)
    | CallbackQueryTask(state: ChatState, update: Update)
    | EventTask(state: ChatState, event: Event)

  function TaskFor(path: State.Path, s: ChatState, update: Update): Task {
    match path
    case MessagePath => MessageTask(s, update)
    case CallbackQueryPath => CallbackQueryTask(s, update)
  }

  /** What one dispatch path does, from the table `before` and the queue
      of pool tasks `tasksBefore` to `after` and `tasksAfter`: an unreadable chat raises
      and changes nothing; a live state has the path's handling queued; a
      chat with a class gets a new state, an activation and the path's
      handling, unless `extract_handlers` fails its assertion; a chat with
      no class changes nothing. */
  ghost predicate PathEffect(path: State.Path, msg: Message, update: Update, reg: map<TagValue, State.StateClass>,
                             before: Dict<int, ChatState>, tasksBefore: seq<Task>,
                             after: Dict<int, ChatState>, tasksAfter: seq<Task>, outcome: Outcome)
  {
    var route := RouteOf(ExtractChatKey(msg), before, reg);
    && (route.Unreadable? ==> outcome == Raised(route.error) && after == before && tasksAfter == tasksBefore)
    && (route.Existing? ==>
          outcome == Done && after == before && tasksAfter == tasksBefore + [TaskFor(path, route.state, update)])
    && (route.Unhandled? ==> outcome == Done && after == before && tasksAfter == tasksBefore)
    && (route.Create? && ExtractSpec(route.key.chatType, Methods(route.cls.attributes)).None? ==>
          outcome == Raised(AssertionError) && after == before && tasksAfter == tasksBefore)
    && (route.Create? && ExtractSpec(route.key.chatType, Methods(route.cls.attributes)).Some? ==>
          && outcome == Done
          && route.key.chatId in after.items
          && var s := after.items[route.key.chatId];
          && s.chatId == route.key.chatId
          && s.handlers == ExtractSpec(route.key.chatType, Methods(route.cls.attributes)).value
          && after == Put(before, route.key.chatId, s)
          && tasksAfter == tasksBefore + [ActivateTask(s), TaskFor(path, s, update)])
  }

  /** What `dispatch_update` does with the two paths, through the table and
      task log `mid` and `midTasks` the message path leaves and its outcome
      `first`: the message path runs when the update has a message; an
      exception there ends the call; otherwise the callback-query path runs
      on what the message path left, when the update has a callback query. */
  ghost predicate PathsEffect(update: Update, reg: map<TagValue, State.StateClass>,
                              before: Dict<int, ChatState>, tasksBefore: seq<Task>,
                              mid: Dict<int, ChatState>, midTasks: seq<Task>, first: Outcome,
                              after: Dict<int, ChatState>, tasksAfter: seq<Task>, outcome: Outcome)
  {
    && (update.message.None? ==> first == Done && mid == before && midTasks == tasksBefore)
    && (update.message.Some? ==>
          PathEffect(State.MessagePath, update.message.value, update, reg, before, tasksBefore, mid, midTasks, first))
    && (first != Done || update.callbackQuery.None? ==>
          outcome == first && after == mid && tasksAfter == midTasks)
    && (first == Done && update.callbackQuery.Some? ==>
          CallbackPathEffect(update.callbackQuery.value, update, reg, mid, midTasks, after, tasksAfter, outcome))
  }

  /** The callback-query path: a query without a message raises
      AttributeError where its chat is read, and changes nothing; otherwise
      the path runs on the query's message. */
  ghost predicate CallbackPathEffect(cq: CallbackQuery, update: Update, reg: map<TagValue, State.StateClass>,
                                     before: Dict<int, ChatState>, tasksBefore: seq<Task>,
                                     after: Dict<int, ChatState>, tasksAfter: seq<Task>, outcome: Outcome)
  {
    match cq.message
    case None => outcome == Raised(AttributeError) && after == before && tasksAfter == tasksBefore
    case Some(m) => PathEffect(State.CallbackQueryPath, m, update, reg, before, tasksBefore, after, tasksAfter, outcome)
  }

  /** The warning `_dispatch_callback_query` logs for an unhandled chat, as
      written: it reads `update.message.chat.type`, an AttributeError for the
      usual callback-query update, which carries no message of its own. */
  function UnhandledWarningAsWritten(path: State.Path, update: Update): (r: Outcome)
    ensures r != Done <==> path.CallbackQueryPath? && update.message.None?
  {
    if path.CallbackQueryPath? && update.message.None? then Raised(AttributeError) else Done
  }

  /** A callback query from a chat no class handles, in an update without a
      message of its own: as written the warning raises AttributeError. */
  lemma UnhandledCallbackQueryRaises(cq: CallbackQuery)
    ensures var update := Update(None, Some(cq), None);
      UnhandledWarningAsWritten(State.CallbackQueryPath, update) == Raised(AttributeError)
  {
  }

  /** `broadcast_event`: one `handle_event` task per live state, in table order. */
  function EventTasks(vals: seq<ChatState>, event: Event): (r: seq<Task>)
    ensures |r| == |vals| && forall i :: 0 <= i < |vals| ==> r[i] == EventTask(vals[i], event)
  {
    seq(|vals|, i requires 0 <= i < |vals| => EventTask(vals[i], event))
  }

  function SessionOf(s: ChatState): Session
    reads s
  {
    Session(s.chatId, s.lastActive, s.handlers.deactivate)
  }

  function SessionsOf(vals: seq<ChatState>): (r: seq<Session>)
    reads vals
    ensures |r| == |vals| && forall i :: 0 <= i < |vals| ==> r[i] == SessionOf(vals[i])
  {
    seq(|vals|, i reads vals requires 0 <= i < |vals| => SessionOf(vals[i]))
  }

  // ----- The session object -----

  /** A chat session: the chat it serves, the handler lists extracted from
      its handler object, and when it was last active (integer seconds). */
  class ChatState {
    const chatId: int
    const chatType: int
    const bot: Bot
    const handlers: HandlerLists
    const dispatcher: ChatStateDispatcher
    const journal: Journal
    var lastActive: int

    /** `ChatState(dispatcher, chat_id, chat_type, instance)` once
        `_register_handlers` has extracted `handlers` from the instance. */
    constructor (dispatcher: ChatStateDispatcher, chatId: int, chatType: int, handlers: HandlerLists, now: int)
      ensures this.dispatcher == dispatcher && this.chatId == chatId && this.chatType == chatType
      ensures this.handlers == handlers && bot == dispatcher.bot && journal == dispatcher.journal
      ensures lastActive == now
    {
      this.dispatcher := dispatcher;
      this.chatId := chatId;
      this.chatType := chatType;
      this.bot := dispatcher.bot;
      this.handlers := handlers;
      this.journal := dispatcher.journal;
      lastActive := now;
    }

    /** One pass of the entity loop of `handle_message` over entity `e` of
        the message text: a '/stop' command deletes this state (`del`), and
        a command with registered handlers extends the queue with them. */
    method ScanCommand(text: string, e: MessageEntity) returns (queued: seq<HandlerId>, outcome: Outcome)
      modifies dispatcher`states
      ensures var step := ScanEntity(handlers.commands, text, e);
        && (dispatcher.states, outcome) == DeleteTimes(old(dispatcher.states), chatId, step.stops)
        && (outcome == Done ==> queued == step.handlers)
    {
      queued := [];
      outcome := Done;
      if e.kind == BOT_COMMAND {
        var command := EntityText(text, e);
        if command == "/stop" {
          outcome := dispatcher.RemoveChatState(this);
          if outcome != Done {
            return;
          }
        }
        if Name(command) in handlers.commands && handlers.commands[Name(command)] != [] {
          queued := handlers.commands[Name(command)];
        }
      }
    }

    /** The entity loop of `handle_message`: the command handlers it queues,
        and the `del` of the state that each '/stop' performs (a second one
        raises KeyError). */
    method ScanCommands(msg: Message) returns (queued: seq<HandlerId>, outcome: Outcome)
      modifies dispatcher`states
      ensures var scan := ScanEntities(handlers.commands, msg.text, msg.entities);
        && (dispatcher.states, outcome) == DeleteTimes(old(dispatcher.states), chatId, scan.stops)
        && (outcome == Done ==> queued == scan.handlers)
    {
      queued := [];
      ghost var start := dispatcher.states;
      ghost var stops: nat := 0;
      var i := 0;
      while i < |msg.entities|
        invariant 0 <= i <= |msg.entities|
        invariant ScanEntities(handlers.commands, msg.text, msg.entities[..i]) == Context.Scan(queued, stops)
        invariant DeleteTimes(start, chatId, stops) == (dispatcher.states, Done)
      {
        ghost var step := ScanEntity(handlers.commands, msg.text, msg.entities[i]);
        ScanEntitiesStep(handlers.commands, msg.text, msg.entities, i);
        if step.stops == 1 {
          DeleteTimesStep(start, chatId, stops);
        }
        var more, o := ScanCommand(msg.text, msg.entities[i]);
        stops := stops + step.stops;
        if o != Done {
          ScanStopsGrow(handlers.commands, msg.text, msg.entities, i + 1);
          assert msg.entities[..|msg.entities|] == msg.entities;
          DeleteTimesSettles(start, chatId, stops, ScanEntities(handlers.commands, msg.text, msg.entities).stops);
          return queued, o;
        }
        queued := queued + more;
        i := i + 1;
      }
      assert msg.entities[..i] == msg.entities;
      outcome := Done;
    }

    /** `for handler in handlers: handler(self, ...)` */
    method CallEach(hs: seq<HandlerId>)
      modifies journal
      ensures journal.calls == old(journal.calls) + CallsOf(chatId, hs)
    {
      var i := 0;
      while i < |hs|
        invariant 0 <= i <= |hs|
        invariant journal.calls == old(journal.calls) + CallsOf(chatId, hs[..i])
      {
        journal.Record(chatId, hs[i]);
        assert CallsOf(chatId, hs[..i + 1]) == CallsOf(chatId, hs[..i]) + [Call(chatId, hs[i])];
        i := i + 1;
      }
      assert hs[..i] == hs;
    }

    /** `handle_message(update)` for the update's message `msg`, at time
        `now`: every removal is a `del` on the dispatcher's table, and a
        raised exception ends the call before any handler runs. */
    method HandleMessage(msg: Message, now: int) returns (outcome: Outcome)
      modifies this`lastActive, dispatcher`states, journal
      ensures lastActive == now
      ensures var plan := PlanOf(handlers, bot.identity.id, msg);
        var (after, removed) := DeleteTimes(old(dispatcher.states), chatId, plan.removals);
        && dispatcher.states == after
        && outcome == removed
        && journal.calls == old(journal.calls) + (if removed == Done then CallsOf(chatId, plan.handlers) else [])
    {
      lastActive := now;
      ghost var start := dispatcher.states;
      ghost var scan := ScanEntities(handlers.commands, msg.text, msg.entities);
      ghost var plan := PlanOf(handlers, bot.identity.id, msg);
      var list := handlers.messages;
      var commands, o := ScanCommands(msg);
      if o != Done {
        DeleteTimesSettles(start, chatId, scan.stops, plan.removals);
        return o;
      }
      list := list + commands;
      if msg.newChatMember.Some? {
        list := list + handlers.newChatMembers;
      }
      if msg.leftChatMember.Some? {
        if msg.leftChatMember.value.id == bot.identity.id {
          DeleteTimesStep(start, chatId, scan.stops);
          o := dispatcher.RemoveChatState(this);
          if o != Done {
            return o;
          }
        } else {
          list := list + handlers.leftChatMembers;
        }
      }
      assert list == plan.handlers;
      CallEach(list);
      outcome := Done;
    }

    /** `handle_callback_query(update)` for the update's callback query `cq`:
        refreshes `last_active`, calls the callback-query handler when one is
        bound (`reply` is what it returns), and answers the query exactly
        once, with that reply or None. */
    method HandleCallbackQuery(cq: CallbackQuery, reply: Option<string>, now: int)
      modifies this`lastActive, journal, bot
      ensures lastActive == now
      ensures journal.calls == old(journal.calls) + CallsOf(chatId, Context.Present(handlers.callbackQuery))
      ensures bot.calls == old(bot.calls)
        + [AnswerCallbackQuery(cq.id, if handlers.callbackQuery.Some? then reply else None)]
    {
      lastActive := now;
      var result := None;
      if handlers.callbackQuery.Some? {
        journal.Record(chatId, handlers.callbackQuery.value);
        result := reply;
      }
      bot.AnswerCallbackQuery(cq.id, result);
    }

    /** `handle_inline_callback_query(update)` */
    method HandleInlineCallbackQuery(now: int)
      modifies this`lastActive
      ensures lastActive == now
    {
      lastActive := now;
    }

    /** `on_activate()` */
    method OnActivate(now: int)
      modifies this`lastActive, journal
      ensures lastActive == now
      ensures journal.calls == old(journal.calls) + CallsOf(chatId, Context.Present(handlers.activate))
    {
      lastActive := now;
      if handlers.activate.Some? {
        journal.Record(chatId, handlers.activate.value);
      }
    }

    /** `on_deactivate()` */
    method OnDeactivate(now: int)
      modifies this`lastActive, journal
      ensures lastActive == now
      ensures journal.calls == old(journal.calls) + CallsOf(chatId, Context.Present(handlers.deactivate))
    {
      lastActive := now;
      if handlers.deactivate.Some? {
        journal.Record(chatId, handlers.deactivate.value);
      }
    }

    /** `handle_event(event)`: the subscribers of the event's name, in order;
        KeyError for an event without a name. */
    method HandleEvent(event: Event) returns (outcome: Outcome)
      modifies journal
      ensures var hs := EventHandlers(handlers.events, event);
        && (hs.Err? ==> outcome == Raised(KeyError) && journal.calls == old(journal.calls))
        && (hs.Ok? ==> outcome == Done && journal.calls == old(journal.calls) + CallsOf(chatId, hs.value))
    {
      if "name" !in event {
        return Raised(KeyError);
      }
      var hs := Listed(handlers.events, Name(event["name"]));
      CallEach(hs);
      outcome := Done;
    }

    /** `broadcast_event(event)`, delegated to the dispatcher. */
    method BroadcastEvent(event: Event)
      modifies dispatcher.pool
      ensures dispatcher.pool.tasks == old(dispatcher.pool.tasks) + EventTasks(Values(dispatcher.states), event)
      ensures dispatcher.pool.running == old(dispatcher.pool.running)
    {
      dispatcher.BroadcastEvent(event);
    }
  }

  // ----- The dispatcher -----

  class ChatStateDispatcher {
    const bot: Bot
    const journal: Journal
    const pool: Pool<Task>
    const maxIdleMinutes: int
    var chatTypeReg: map<TagValue, State.StateClass>
    var states: Dict<int, ChatState>

    /** Every live state is filed under its own chat id and belongs to this
        dispatcher, its bot and its journal. */
    ghost predicate Valid()
      reads this
    {
      forall k :: k in states.items ==>
        && states.items[k].chatId == k
        && states.items[k].dispatcher == this
        && states.items[k].journal == journal
        && states.items[k].bot == bot
    }

    /** `ChatStateDispatcher(bot, max_idle_minutes=48)`; the kinds it pre-fills
        with empty lists read like absent keys to every `get`. */
    constructor (bot: Bot, journal: Journal, maxIdleMinutes: int)
      ensures this.bot == bot && this.journal == journal && this.maxIdleMinutes == maxIdleMinutes
      ensures fresh(pool) && pool.tasks == [] && !pool.running
      ensures chatTypeReg == map[] && states == Empty()
      ensures Valid()
    {
      this.bot := bot;
      this.journal := journal;
      this.maxIdleMinutes := maxIdleMinutes;
      pool := new Pool<Task>();
      chatTypeReg := map[];
      states := Empty();
    }

    /** `register_class(class_)`, its chat types enumerated in `order`. */
    method RegisterClass(cls: State.StateClass, order: seq<TagValue>) returns (outcome: Outcome)
      requires cls.chatTypes.Some? ==> Distinct(order) && forall v :: v in order <==> v in cls.chatTypes.value
      modifies this`chatTypeReg
      ensures cls.chatTypes.None? ==> outcome == Raised(AssertionError) && chatTypeReg == old(chatTypeReg)
      ensures cls.chatTypes.Some? ==> (chatTypeReg, outcome) == RegisterAll(old(chatTypeReg), cls, order, State.Unchecked)
    {
      if cls.chatTypes.None? {
        return Raised(AssertionError);
      }
      var i := 0;
      while i < |order|
        invariant 0 <= i <= |order|
        invariant RegisterAll(old(chatTypeReg), cls, order[..i], State.Unchecked) == (chatTypeReg, Done)
      {
        var v := order[i];
        assert order[..i + 1][..i] == order[..i];
        if v in chatTypeReg {
          RegisterFailureSticks(old(chatTypeReg), cls, order, State.Unchecked, i + 1);
          return Raised(AssertionError);
        }
        chatTypeReg := chatTypeReg[v := cls];
        i := i + 1;
      }
      assert order[..i] == order;
      outcome := Done;
    }

    /** `remove_chat_state(chat_state)`: `del self._states[chat_state.chat_id]`. */
    method RemoveChatState(s: ChatState) returns (outcome: Outcome)
      modifies this`states
      ensures (states, outcome) == DeleteTimes(old(states), s.chatId, 1)
      ensures old(Valid()) ==> Valid()
    {
      if s.chatId !in states.items {
        return Raised(KeyError);
      }
      states := Remove(states, s.chatId);
      outcome := Done;
    }

    /** `_make_chat_state(chat_id, chat_type)` at time `now`: the class for
        the chat's own kind, else the class for ANY; a new state is stored
        under `chat_id` and one `on_activate` task is scheduled; nothing is
        stored or scheduled when no class resolves or `extract_handlers`
        fails its assertion. */
    method MakeChatState(key: ChatKey, now: int) returns (r: Result<Option<ChatState>>)
      requires Valid()
      modifies this`states, pool
      ensures Valid() && pool.running == old(pool.running)
      ensures var cls := Fallback(chatTypeReg, key.chatType);
        && (cls.None? ==> r == Ok(None) && states == old(states) && pool.tasks == old(pool.tasks))
        && (cls.Some? && ExtractSpec(key.chatType, Methods(cls.value.attributes)).None? ==>
              r == Err(AssertionError) && states == old(states) && pool.tasks == old(pool.tasks))
        && (cls.Some? && ExtractSpec(key.chatType, Methods(cls.value.attributes)).Some? ==>
              && r.Ok? && r.value.Some?
              && var s := r.value.value;
              && fresh(s)
              && s.chatId == key.chatId && s.chatType == key.chatType
              && s.handlers == ExtractSpec(key.chatType, Methods(cls.value.attributes)).value
              && s.lastActive == now
              && states == Put(old(states), key.chatId, s)
              && pool.tasks == old(pool.tasks) + [ActivateTask(s)])
    {
      var hcls := Fallback(chatTypeReg, key.chatType);
      if hcls.None? {
        return Ok(None);
      }
      var hs := ExtractHandlers(key.chatType, hcls.value.attributes);
      if hs.None? {
        return Err(AssertionError);
      }
      var s := new ChatState(this, key.chatId, key.chatType, hs.value, now);
      states := Put(states, key.chatId, s);
      pool.Notify(ActivateTask(s));
      r := Ok(Some(s));
    }

    /** `_dispatch_message` (MessagePath) and `_dispatch_callback_query`
        (CallbackQueryPath) for the message `msg` whose chat they read: a
        live state has its handling queued, else one is made first; an unhandled kind
        schedules nothing and, with the warning as evidently intended, raises
        nothing. */
    method DispatchPath(path: State.Path, msg: Message, update: Update, now: int) returns (outcome: Outcome)
      requires Valid()
      modifies this`states, pool
      ensures Valid() && pool.running == old(pool.running)
      ensures PathEffect(path, msg, update, chatTypeReg, old(states), old(pool.tasks), states, pool.tasks, outcome)
      ensures forall k :: k in states.items && k !in old(states).items ==> fresh(states.items[k])
    {
      var key := ExtractChatKey(msg);
      ghost var route := RouteOf(key, states, chatTypeReg);
      if key.Err? {
        return Raised(key.error);
      }
      var chatState: Option<ChatState> := None;
      if key.value.chatId in states.items {
        chatState := Some(states.items[key.value.chatId]);
        assert route == Existing(chatState.value);
      } else {
        assert route.Create? <==> Fallback(chatTypeReg, key.value.chatType).Some?;
        var made := MakeChatState(key.value, now);
        if made.Err? {
          return Raised(made.error);
        }
        chatState := made.value;
      }
      if chatState.Some? {
        pool.Notify(TaskFor(path, chatState.value, update));
      }
      // An unhandled chat is only logged, with the warning as evidently
      // intended (the as-written one is UnhandledWarningAsWritten).
      outcome := Done;
    }

    /** `dispatch_update(update)` at time `now`: the message path and then
        the callback-query path; an exception on the first ends the call. */
    method DispatchUpdate(update: Update, now: int)
      returns (outcome: Outcome, ghost mid: Dict<int, ChatState>, ghost midTasks: seq<Task>, ghost first: Outcome)
      requires Valid()
      modifies this`states, pool
      ensures Valid() && pool.running == old(pool.running)
      ensures PathsEffect(update, chatTypeReg, old(states), old(pool.tasks), mid, midTasks, first, states, pool.tasks, outcome)
      ensures update.message.None? && update.callbackQuery.None? ==>
        outcome == Done && states == old(states) && pool.tasks == old(pool.tasks)
      ensures update.message.Some? && RouteOf(ExtractChatKey(update.message.value), old(states), chatTypeReg).Unreadable? ==>
        outcome == Raised(RouteOf(ExtractChatKey(update.message.value), old(states), chatTypeReg).error)
        && states == old(states) && pool.tasks == old(pool.tasks)
      ensures update.message.Some? && update.callbackQuery.Some? && update.callbackQuery.value.message.Some? ==>
        var r1 := RouteOf(ExtractChatKey(update.message.value), old(states), chatTypeReg);
        var r2 := RouteOf(ExtractChatKey(update.callbackQuery.value.message.value), old(states), chatTypeReg);
        r1.Existing? && r2.Existing? ==>
          && outcome == Done && states == old(states)
          && pool.tasks == old(pool.tasks) + [MessageTask(r1.state, update), CallbackQueryTask(r2.state, update)]
      ensures update.message.None? && update.callbackQuery.Some? && update.callbackQuery.value.message.None? ==>
        outcome == Raised(AttributeError) && states == old(states) && pool.tasks == old(pool.tasks)
      ensures update.message.None? && update.callbackQuery.Some? && update.callbackQuery.value.message.Some? ==>
        var r2 := RouteOf(ExtractChatKey(update.callbackQuery.value.message.value), old(states), chatTypeReg);
        r2.Existing? ==>
          outcome == Done && states == old(states) && pool.tasks == old(pool.tasks) + [CallbackQueryTask(r2.state, update)]
    {
      outcome := Done;
      if update.message.Some? {
        outcome := DispatchPath(State.MessagePath, update.message.value, update, now);
      }
      first, mid, midTasks := outcome, states, pool.tasks;
      if outcome != Done {
        return;
      }
      if update.callbackQuery.Some? {
        var cq := update.callbackQuery.value;
        if cq.message.None? {
          outcome := Raised(AttributeError);
        } else {
          outcome := DispatchPath(State.CallbackQueryPath, cq.message.value, update, now);
        }
      }
    }

    /** `broadcast_event(event)`: one `handle_event` task per live state. */
    method BroadcastEvent(event: Event)
      modifies pool
      ensures pool.tasks == old(pool.tasks) + EventTasks(Values(states), event)
      ensures pool.running == old(pool.running)
    {
      var vals := Values(states);
      var i := 0;
      while i < |vals|
        invariant 0 <= i <= |vals|
        invariant pool.tasks == old(pool.tasks) + EventTasks(vals[..i], event)
        invariant pool.running == old(pool.running)
      {
        pool.Notify(EventTask(vals[i], event));
        assert EventTasks(vals[..i + 1], event) == EventTasks(vals[..i], event) + [EventTask(vals[i], event)];
        i := i + 1;
      }
      assert vals[..i] == vals;
    }

    /** The first loop of `_clean_idle_states` over the live states `vals`:
        each one idle since before `limit` is deactivated and its chat id
        collected. */
    method DeactivateExpired(vals: seq<ChatState>, limit: int, now: int) returns (ids: seq<int>)
      requires forall i :: 0 <= i < |vals| ==> vals[i].journal == journal
      requires forall i, j :: 0 <= i < j < |vals| ==> vals[i] != vals[j]
      modifies journal, vals
      ensures ids == ExpiredIds(old(SessionsOf(vals)), limit)
      ensures journal.calls == old(journal.calls) + DeactivateCalls(old(SessionsOf(vals)), limit)
      ensures forall i :: 0 <= i < |vals| ==>
        vals[i].lastActive == (if old(vals[i].lastActive) < limit then now else old(vals[i].lastActive))
    {
      ghost var ss := SessionsOf(vals);
      ghost var start := journal.calls;
      ids := [];
      var i: nat := 0;
      while i < |vals|
        invariant i <= |vals|
        invariant ids == ExpiredIds(ss[..i], limit)
        invariant journal.calls == start + DeactivateCalls(ss[..i], limit)
        invariant forall j :: 0 <= j < |vals| ==>
          vals[j].lastActive == (if j < i && ss[j].lastActive < limit then now else ss[j].lastActive)
      {
        var s := vals[i];
        ExpiredStep(ss, i, limit);
        ghost var calls := if ss[i].lastActive < limit && ss[i].deactivate.Some? then [Call(ss[i].chatId, ss[i].deactivate.value)] else [];
        AppendAssoc(start, DeactivateCalls(ss[..i], limit), calls);
        ids := DeactivateOne(s, ss[i], limit, now, ids);
        forall j | 0 <= j < |vals|
          ensures vals[j].lastActive == (if j < i + 1 && ss[j].lastActive < limit then now else ss[j].lastActive)
        {
          if j != i {
            assert vals[j] != s;
          }
        }
        i := i + 1;
        assert ids == ExpiredIds(ss[..i], limit);
        assert journal.calls == start + DeactivateCalls(ss[..i], limit);
      }
      assert ss[..i] == ss;
    }

    /** The body of the first loop of `_clean_idle_states` for the state `s`,
        whose session `c` was read before the loop. */
    method DeactivateOne(s: ChatState, ghost c: Session, limit: int, now: int, ids: seq<int>) returns (more: seq<int>)
      requires s.journal == journal && c == SessionOf(s)
      modifies s`lastActive, journal
      ensures more == ids + (if Expired(c, limit) then [c.chatId] else [])
      ensures journal.calls == old(journal.calls)
        + (if Expired(c, limit) && c.deactivate.Some? then [Call(c.chatId, c.deactivate.value)] else [])
      ensures s.lastActive == (if Expired(c, limit) then now else c.lastActive)
    {
      more := ids;
      if s.lastActive < limit {
        s.OnDeactivate(now);
        more := ids + [s.chatId];
      }
    }

    /** The second loop of `_clean_idle_states`: `del self._states[state_id]`
        for each collected id, stopping at the first KeyError. */
    method DeleteAll(ids: seq<int>) returns (outcome: Outcome)
      modifies this`states
      ensures (states, outcome) == DeleteEach(old(states), ids)
      ensures old(Valid()) ==> Valid()
    {
      ghost var start := states;
      ghost var valid := Valid();
      var i: nat := 0;
      while i < |ids|
        invariant i <= |ids|
        invariant DeleteEach(start, ids[..i]) == (states, Done)
        invariant valid ==> Valid()
      {
        DeleteEachStep(start, ids, i);
        if ids[i] !in states.items {
          DeleteEachFailureSticks(start, ids, i + 1);
          return Raised(KeyError);
        }
        states := Remove(states, ids[i]);
        i := i + 1;
      }
      assert ids[..i] == ids;
      outcome := Done;
    }

    /** `_clean_idle_states()` at time `now`, with the deletion loop as
        evidently intended: every state idle since before the limit is
        deactivated and removed, and every other one stays. */
    method CleanIdleStates(now: int) returns (outcome: Outcome)
      requires Valid()
      modifies this`states, journal, Values(states)
      ensures Valid()
      ensures var vals := old(Values(states));
        var ss := old(SessionsOf(vals));
        var limit := IdleLimit(now, maxIdleMinutes);
        && (states, outcome) == CleanIdle(old(states), ss, limit)
        && outcome == Done
        && (forall i :: 0 <= i < |ss| ==> (ss[i].chatId in states.items <==> !Expired(ss[i], limit)))
        && (forall k :: k in states.items ==> k in old(states.items) && states.items[k] == old(states.items[k]))
        && journal.calls == old(journal.calls) + DeactivateCalls(ss, limit)
        && (forall i :: 0 <= i < |vals| ==> vals[i].lastActive == (if Expired(ss[i], limit) then now else ss[i].lastActive))
    {
      var limit := IdleLimit(now, maxIdleMinutes);
      var vals := Values(states);
      ghost var ss := SessionsOf(vals);
      ghost var before := states;
      forall i, j | 0 <= i < j < |vals|
        ensures vals[i] != vals[j]
      {
        assert vals[i].chatId == states.order[i] && vals[j].chatId == states.order[j];
      }
      forall i | 0 <= i < |vals|
        ensures vals[i].journal == journal
      {
        var k := states.order[i];
        assert k in states.items && vals[i] == states.items[k];
        assert states.items[k].journal == journal;
      }
      var ids := DeactivateExpired(vals, limit, now);
      outcome := DeleteAll(ids);
      assert SessionsOfTable(before, ss);
      CleanIdleEvictsExactlyExpired(before, ss, limit);
    }

    /** `start()` */
    method Start()
      modifies pool
      ensures pool.running && pool.tasks == old(pool.tasks)
    {
      pool.Start();
    }

    /** `stop()` */
    method Stop()
      modifies pool
      ensures !pool.running && pool.tasks == old(pool.tasks)
    {
      pool.Stop();
    }
  }
}
