/** chatstate/state.py: the per-chat session object ChatState and the
    ChatStateDispatcher that registers handler classes by chat kind, routes
    updates to sessions through the worker pool, and evicts idle sessions. */
module State {
  import opened Base
  import opened Dicts
  import opened ChatTypes
  import opened Telegram
  import opened Effects
  import opened Reflection
  import opened Registry
  import opened Sessions
  import Context

  /** A handler class: its chat types (None when it carries no chat type tag)
      and the attributes of an instance, in enumeration order. */
  datatype StateClass = StateClass(name: string, chatTypes: Option<set<TagValue>>, attributes: seq<Attribute>)

  // ----- Commands -----

  /** One bot_command entity as `_process_entities` evidently means to treat
      it: an addressed command queues every handler registered under its
      name, and an addressed '/stop' also removes the state. */
  function ScanEntity(chatType: int, me: BotIdentity, commands: map<TagValue, seq<HandlerId>>, text: string, e: MessageEntity): (r: Context.Scan)
    ensures e.kind != BOT_COMMAND ==> r == Context.Scan([], 0)
    ensures r.stops <= 1
    ensures r.stops == 1 <==>
      e.kind == BOT_COMMAND && Context.ParseCommand(chatType, me, EntityText(text, e)) == Context.BotCommand("/stop", true)
    ensures r.handlers != [] ==>
      var c := Context.ParseCommand(chatType, me, EntityText(text, e));
      e.kind == BOT_COMMAND && c.forMe && Name(c.command) in commands && r.handlers == commands[Name(c.command)]
  {
    if e.kind != BOT_COMMAND then Context.Scan([], 0)
    else
      var c := Context.ParseCommand(chatType, me, EntityText(text, e));
      if !c.forMe then Context.Scan([], 0)
      else Context.Scan(Listed(commands, Name(c.command)), if c.command == "/stop" then 1 else 0)
  }

  /** The entities of a message, in order. */
  function ScanEntities(chatType: int, me: BotIdentity, commands: map<TagValue, seq<HandlerId>>, text: string, es: seq<MessageEntity>): Context.Scan {
    if es == [] then Context.Scan([], 0)
    else
      var s := ScanEntities(chatType, me, commands, text, es[..|es| - 1]);
      var t := ScanEntity(chatType, me, commands, text, es[|es| - 1]);
      Context.Scan(s.handlers + t.handlers, s.stops + t.stops)
  }

  /** Every queued handler is registered under some command name, there are
      never more removals than entities, and a message without bot commands
      queues and removes nothing. */
  lemma {:induction false} ScanEntitiesBounds(chatType: int, me: BotIdentity, commands: map<TagValue, seq<HandlerId>>, text: string, es: seq<MessageEntity>)
    ensures var s := ScanEntities(chatType, me, commands, text, es);
      && s.stops <= |es|
      && (forall h :: h in s.handlers ==> exists k :: k in commands && h in commands[k])
      && ((forall e :: e in es ==> e.kind != BOT_COMMAND) ==> s == Context.Scan([], 0))
  {
    if es != [] {
      var p := es[..|es| - 1];
      ScanEntitiesBounds(chatType, me, commands, text, p);
      assert forall e :: e in p ==> e in es;
    }
  }

  lemma {:induction false} ScanStopsGrow(chatType: int, me: BotIdentity, commands: map<TagValue, seq<HandlerId>>, text: string, es: seq<MessageEntity>, i: nat)
    requires i <= |es|
    ensures ScanEntities(chatType, me, commands, text, es[..i]).stops <= ScanEntities(chatType, me, commands, text, es).stops
  {
    if i < |es| {
      assert es[..|es| - 1][..i] == es[..i];
      ScanStopsGrow(chatType, me, commands, text, es[..|es| - 1], i);
    } else {
      assert es[..i] == es;
    }
  }

  /** The addressing rule on a whole entity: in a private chat a bare
      '/cmd' queues the handlers of '/cmd'; in any other chat a bare '/cmd'
      does nothing; '/cmd@botname' with the bot's own name queues the
      handlers of '/cmd' in every kind of chat. */
  lemma CommandAddressing(chatType: int, me: BotIdentity, commands: map<TagValue, seq<HandlerId>>, text: string, e: MessageEntity, cmd: string)
    requires e.kind == BOT_COMMAND
    ensures chatType == PRIVATE && '@' !in EntityText(text, e) ==>
      ScanEntity(chatType, me, commands, text, e).handlers == Listed(commands, Name(EntityText(text, e)))
    ensures chatType != PRIVATE && '@' !in EntityText(text, e) ==>
      ScanEntity(chatType, me, commands, text, e) == Context.Scan([], 0)
    ensures '@' !in me.username && EntityText(text, e) == cmd + "@" + me.username ==>
      ScanEntity(chatType, me, commands, text, e).handlers == Listed(commands, Name(cmd))
  {
    Context.AddressingRule(chatType, me, EntityText(text, e));
    if '@' !in me.username && EntityText(text, e) == cmd + "@" + me.username {
      Context.AddressedToMe(chatType, me, cmd);
    }
  }

  /** An addressed '/stop' removes the state once more and still queues the
      handlers registered for '/stop'. */
  lemma StopStillQueued(chatType: int, me: BotIdentity, commands: map<TagValue, seq<HandlerId>>, text: string, es: seq<MessageEntity>, e: MessageEntity)
    requires e.kind == BOT_COMMAND && Context.ParseCommand(chatType, me, EntityText(text, e)) == Context.BotCommand("/stop", true)
    ensures var before := ScanEntities(chatType, me, commands, text, es);
      var after := ScanEntities(chatType, me, commands, text, es + [e]);
      after.stops == before.stops + 1 && after.handlers == before.handlers + Listed(commands, Name("/stop"))
  {
    assert (es + [e])[..|es + [e]| - 1] == es;
  }

  // ----- The handler list of handle_message -----

  /** What `handle_message` does with a message: how many times it removes
      the state, and the handlers it calls, in order. */
  datatype Plan = Plan(removals: nat, handlers: seq<HandlerId>)

  /** The plan of `handle_message`: every message handler, then the command
      handlers in entity order, then the new-member handlers, then the
      left-member handlers unless the bot itself left, which removes the
      state instead. */
  function PlanOf(h: HandlerLists, chatType: int, me: BotIdentity, botId: int, msg: Message): (r: Plan)
    ensures |h.messages| <= |r.handlers| && r.handlers[..|h.messages|] == h.messages
    ensures msg.newChatMember.Some? && (msg.leftChatMember.None? || Context.BotLeft(msg, botId)) ==>
      |h.newChatMembers| <= |r.handlers| && r.handlers[|r.handlers| - |h.newChatMembers|..] == h.newChatMembers
    ensures msg.leftChatMember.Some? && !Context.BotLeft(msg, botId) ==>
      |h.leftChatMembers| <= |r.handlers| && r.handlers[|r.handlers| - |h.leftChatMembers|..] == h.leftChatMembers
    ensures Context.BotLeft(msg, botId) ==> r.removals >= 1
  {
    var scan := ScanEntities(chatType, me, h.commands, msg.text, msg.entities);
    var joined := if msg.newChatMember.Some? then h.newChatMembers else [];
    var left := if msg.leftChatMember.Some? && !Context.BotLeft(msg, botId) then h.leftChatMembers else [];
    assert (h.messages + scan.handlers + joined + left)[..|h.messages|] == h.messages;
    EndsWith(h.messages + scan.handlers + joined, left);
    EndsWith(h.messages + scan.handlers, joined);
    Plan(scan.stops + (if Context.BotLeft(msg, botId) then 1 else 0), h.messages + scan.handlers + joined + left)
  }

  /** The handler list split into its parts: message handlers first, the
      command handlers right after them, the new-member handlers next when
      someone joined, the left-member handlers last when someone else left,
      and none of them when the bot itself left. */
  lemma PlanOrder(h: HandlerLists, chatType: int, me: BotIdentity, botId: int, msg: Message)
    ensures var scan := ScanEntities(chatType, me, h.commands, msg.text, msg.entities);
      var joined := if msg.newChatMember.Some? then h.newChatMembers else [];
      var r := PlanOf(h, chatType, me, botId, msg);
      var m := |h.messages|;
      && m + |scan.handlers| <= |r.handlers|
      && r.handlers[m..m + |scan.handlers|] == scan.handlers
      && (Context.BotLeft(msg, botId) ==> r.handlers == h.messages + scan.handlers + joined)
      && (msg.leftChatMember.Some? && !Context.BotLeft(msg, botId) ==>
            r.handlers == h.messages + scan.handlers + joined + h.leftChatMembers)
      && (msg.newChatMember.None? && msg.leftChatMember.None? ==> r.handlers == h.messages + scan.handlers)
      && (msg.newChatMember.Some? && msg.leftChatMember.None? ==>
            r.handlers == h.messages + scan.handlers + h.newChatMembers)
      && r.removals == scan.stops + (if Context.BotLeft(msg, botId) then 1 else 0)
  {
    var scan := ScanEntities(chatType, me, h.commands, msg.text, msg.entities);
    var joined := if msg.newChatMember.Some? then h.newChatMembers else [];
    var left := if msg.leftChatMember.Some? && !Context.BotLeft(msg, botId) then h.leftChatMembers else [];
    ConcatParts(h.messages, scan.handlers, joined, left);
  }

  /** `handle_message` as written: `_process_entities` reads the undefined
      name `entities` (and extends the undefined `handlers`), so a message
      that carries entities raises NameError before any removal or handler. */
  function PlanAsWritten(h: HandlerLists, chatType: int, me: BotIdentity, botId: int, msg: Message): (r: Result<Plan>)
    ensures r.Err? <==> msg.entities != []
  {
    if msg.entities != [] then Err(NameError) else Ok(PlanOf(h, chatType, me, botId, msg))
  }

  /** As written, a '/cmd' typed in a private chat never reaches its handlers:
      the message raises NameError, where the intended plan runs the message
      handlers and then the handlers of '/cmd'. */
  lemma CommandsNeverRunAsWritten(h: HandlerLists, me: BotIdentity, botId: int, msg: Message)
    requires |msg.entities| == 1 && msg.entities[0] == MessageEntity(BOT_COMMAND, 0, |msg.text|)
    requires '@' !in msg.text
    requires msg.newChatMember.None? && msg.leftChatMember.None?
    ensures PlanAsWritten(h, PRIVATE, me, botId, msg) == Err(NameError)
    ensures PlanOf(h, PRIVATE, me, botId, msg).handlers == h.messages + Listed(h.commands, Name(msg.text))
  {
    var e := msg.entities[0];
    assert EntityText(msg.text, e) == msg.text[0..|msg.text|] == msg.text;
    CommandAddressing(PRIVATE, me, h.commands, msg.text, e, msg.text);
    assert msg.entities[..0] == [];
    PlanOrder(h, PRIVATE, me, botId, msg);
  }

  // ----- Chat data -----

  /** The chat id, kind and user-or-group name `_extract_chat_data` returns. */
  datatype ChatData = ChatData(chatId: int, chatType: int, userOrGroup: Option<string>)

  /** `_extract_chat_data` as written: `CHAT_TYPE[chat.type]` indexes the
      CHAT_TYPE namedtuple with a string, which is a TypeError for every chat. */
  function ExtractChatDataAsWritten(msg: Message): (r: Result<ChatData>)
    ensures r.Err?
  {
    Err(TypeError)
  }

  /** `_extract_chat_data` as evidently intended: the kind is looked up by
      the platform's chat-type name in CHAT_TYPE_NAME (AttributeError for an
      unknown name); a private chat is named by its username, any other by
      its title. */
  function ExtractChatData(msg: Message): (r: Result<ChatData>)
    ensures r.Err? <==> msg.chat.kind !in {"private", "group", "channel", "supergroup"}
    ensures r.Err? ==> r.error == AttributeError
    ensures r.Ok? ==> r.value.chatId == msg.chat.id && r.value.chatType != ANY && r.value.chatType != NONE
  {
    NameTable(msg.chat.kind);
    NameNeverWildcard(msg.chat.kind);
    match KindOfName(msg.chat.kind)
    case None => Err(AttributeError)
    case Some(kind) =>
      Ok(ChatData(msg.chat.id, kind, if kind == PRIVATE then msg.chat.username else msg.chat.title))
  }

  /** A private chat is named by its username and every other kind by its
      title; as written, even a private chat fails. */
  lemma ChatDataNames(msg: Message)
    ensures msg.chat.kind == "private" ==>
      ExtractChatData(msg) == Ok(ChatData(msg.chat.id, PRIVATE, msg.chat.username))
      && ExtractChatDataAsWritten(msg) == Err(TypeError)
    ensures msg.chat.kind in {"group", "channel", "supergroup"} ==>
      ExtractChatData(msg).Ok? && ExtractChatData(msg).value.userOrGroup == msg.chat.title
  {
    NameTable(msg.chat.kind);
  }

  // ----- Routing -----

  /** What the dispatcher finds for the chat of an update: its chat data
      cannot be read, a live state, a class to build one from, or nothing. */
  datatype Route =
    | Unreadable(error: Exception)
    | Existing(state: ChatState)
    | Create(data: ChatData, cls: StateClass)
    | Unhandled

  /** `chat_state = self._states.get(chat_id)`, then the class lookup of
      `_make_chat_state` when there is none. */
  function RouteOf(data: Result<ChatData>, states: Dict<int, ChatState>, reg: map<TagValue, StateClass>): (r: Route)
    ensures r.Existing? <==> data.Ok? && data.value.chatId in states.items
    ensures r.Existing? ==> r.state == states.items[data.value.chatId]
    ensures r.Create? ==> data.Ok? && r.data == data.value && Fallback(reg, data.value.chatType) == Some(r.cls)
    ensures r.Unhandled? <==> data.Ok? && data.value.chatId !in states.items && Fallback(reg, data.value.chatType).None?
  {
    if data.Err? then Unreadable(data.error)
    else if data.value.chatId in states.items then Existing(states.items[data.value.chatId])
    else match Fallback(reg, data.value.chatType)
      case Some(cls) => Create(data.value, cls)
      case None => Unhandled
  }

  /** A task handed to the worker pool: the bound method and its argument. */
  datatype StateTask =
    | ActivateTask(state: ChatState)
    | MessageTask(state: ChatState, update: Update)
    | CallbackQueryTask(state: ChatState, update: Update)
    | EventTask(state: ChatState, event: Event)

  /** Which of the two dispatch paths an update takes. */
  datatype Path = MessagePath | CallbackQueryPath

  function TaskFor(path: Path, s: ChatState, update: Update): StateTask {
    match path
    case MessagePath => MessageTask(s, update)
    case CallbackQueryPath => CallbackQueryTask(s, update)
  }

  /** What one dispatch path does, from the table `before` and the queue
      of pool tasks `tasksBefore` to `after` and `tasksAfter`: an unreadable chat raises
      and changes nothing; a live state has the path's handling queued; a
      chat with a class gets a new state, an activation and the path's
      handling, unless `extract_handlers` fails its assertion; a chat with
      no class changes nothing. */
  ghost predicate PathEffect(path: Path, msg: Message, update: Update, reg: map<TagValue, StateClass>,
                             before: Dict<int, ChatState>, tasksBefore: seq<StateTask>,
                             after: Dict<int, ChatState>, tasksAfter: seq<StateTask>, outcome: Outcome)
  {
    var route := RouteOf(ExtractChatData(msg), before, reg);
    && (route.Unreadable? ==> outcome == Raised(route.error) && after == before && tasksAfter == tasksBefore)
    && (route.Existing? ==>
          outcome == Done && after == before && tasksAfter == tasksBefore + [TaskFor(path, route.state, update)])
    && (route.Unhandled? ==> outcome == Done && after == before && tasksAfter == tasksBefore)
    && (route.Create? && ExtractSpec(route.data.chatType, Methods(route.cls.attributes)).None? ==>
          outcome == Raised(AssertionError) && after == before && tasksAfter == tasksBefore)
    && (route.Create? && ExtractSpec(route.data.chatType, Methods(route.cls.attributes)).Some? ==>
          && outcome == Done
          && route.data.chatId in after.items
          && var s := after.items[route.data.chatId];
          && s.chatId == route.data.chatId
          && s.handlers == ExtractSpec(route.data.chatType, Methods(route.cls.attributes)).value
          && after == Put(before, route.data.chatId, s)
          && tasksAfter == tasksBefore + [ActivateTask(s), TaskFor(path, s, update)])
  }

  /** What `dispatch_update` does with the two paths, through the table and
      task log `mid` and `midTasks` the message path leaves and its outcome
      `first`: the message path runs when the update has a message; an
      exception there ends the call; otherwise the callback-query path runs
      on what the message path left, when the update has a callback query. */
  ghost predicate PathsEffect(update: Update, reg: map<TagValue, StateClass>,
                              before: Dict<int, ChatState>, tasksBefore: seq<StateTask>,
                              mid: Dict<int, ChatState>, midTasks: seq<StateTask>, first: Outcome,
                              after: Dict<int, ChatState>, tasksAfter: seq<StateTask>, outcome: Outcome)
  {
    && (update.message.None? ==> first == Done && mid == before && midTasks == tasksBefore)
    && (update.message.Some? ==>
          PathEffect(MessagePath, update.message.value, update, reg, before, tasksBefore, mid, midTasks, first))
    && (first != Done || update.callbackQuery.None? ==>
          outcome == first && after == mid && tasksAfter == midTasks)
    && (first == Done && update.callbackQuery.Some? ==>
          CallbackPathEffect(update.callbackQuery.value, update, reg, mid, midTasks, after, tasksAfter, outcome))
  }

  /** The callback-query path: a query without a message raises
      AttributeError where its chat is read, and changes nothing; otherwise
      the path runs on the query's message. */
  ghost predicate CallbackPathEffect(cq: CallbackQuery, update: Update, reg: map<TagValue, StateClass>,
                                     before: Dict<int, ChatState>, tasksBefore: seq<StateTask>,
                                     after: Dict<int, ChatState>, tasksAfter: seq<StateTask>, outcome: Outcome)
  {
    match cq.message
    case None => outcome == Raised(AttributeError) && after == before && tasksAfter == tasksBefore
    case Some(m) => PathEffect(CallbackQueryPath, m, update, reg, before, tasksBefore, after, tasksAfter, outcome)
  }

  /** An update whose message and callback query come from the same chat,
      which has no state yet but has a class: the message path creates the
      state, and the callback-query path reuses it rather than making a
      second one, so the state is activated once and gets both tasks. */
  lemma SameChatReusesState(update: Update, reg: map<TagValue, StateClass>,
                            before: Dict<int, ChatState>, tasksBefore: seq<StateTask>,
                            mid: Dict<int, ChatState>, midTasks: seq<StateTask>, first: Outcome,
                            after: Dict<int, ChatState>, tasksAfter: seq<StateTask>, outcome: Outcome)
    requires PathsEffect(update, reg, before, tasksBefore, mid, midTasks, first, after, tasksAfter, outcome)
    requires update.message.Some? && update.callbackQuery.Some?
    requires update.callbackQuery.value.message.Some? && update.callbackQuery.value.message.value.chat == update.message.value.chat
    requires var route := RouteOf(ExtractChatData(update.message.value), before, reg);
      route.Create? && ExtractSpec(route.data.chatType, Methods(route.cls.attributes)).Some?
    ensures var id := update.message.value.chat.id;
      && outcome == Done && after == mid && id in after.items
      && var s := after.items[id];
      && after == Put(before, id, s)
      && tasksAfter == tasksBefore + [ActivateTask(s), MessageTask(s, update), CallbackQueryTask(s, update)]
  {
    var m1, m2 := update.message.value, update.callbackQuery.value.message.value;
    var id := RouteOf(ExtractChatData(m1), before, reg).data.chatId;
    CreatedOnMessagePath(m1, update, reg, before, tasksBefore, mid, midTasks, first);
    var s := mid.items[id];
    SameChatSameData(m1, m2);
    assert CallbackPathEffect(update.callbackQuery.value, update, reg, mid, midTasks, after, tasksAfter, outcome);
    ReusedOnCallbackPath(m2, update, reg, mid, midTasks, after, tasksAfter, outcome, s);
  }

  /** The message path on a chat with a class and no state creates one. */
  lemma CreatedOnMessagePath(msg: Message, update: Update, reg: map<TagValue, StateClass>,
                             before: Dict<int, ChatState>, tasksBefore: seq<StateTask>,
                             after: Dict<int, ChatState>, tasksAfter: seq<StateTask>, outcome: Outcome)
    requires PathEffect(MessagePath, msg, update, reg, before, tasksBefore, after, tasksAfter, outcome)
    requires var route := RouteOf(ExtractChatData(msg), before, reg);
      route.Create? && ExtractSpec(route.data.chatType, Methods(route.cls.attributes)).Some?
    ensures var id := RouteOf(ExtractChatData(msg), before, reg).data.chatId;
      && id == msg.chat.id && ExtractChatData(msg).Ok? && id in after.items
      && var s := after.items[id];
      && outcome == Done && after == Put(before, id, s)
      && tasksAfter == tasksBefore + [ActivateTask(s), MessageTask(s, update)]
  {
  }

  /** A path whose chat already has state `s` only queues its handling. */
  lemma ReusedOnCallbackPath(msg: Message, update: Update, reg: map<TagValue, StateClass>,
                             before: Dict<int, ChatState>, tasksBefore: seq<StateTask>,
                             after: Dict<int, ChatState>, tasksAfter: seq<StateTask>, outcome: Outcome, s: ChatState)
    requires PathEffect(CallbackQueryPath, msg, update, reg, before, tasksBefore, after, tasksAfter, outcome)
    requires ExtractChatData(msg).Ok? && ExtractChatData(msg).value.chatId in before.items
    requires before.items[ExtractChatData(msg).value.chatId] == s
    ensures outcome == Done && after == before && tasksAfter == tasksBefore + [CallbackQueryTask(s, update)]
  {
  }

  /** `_extract_chat_data` reads only the chat of a message. */
  lemma SameChatSameData(m1: Message, m2: Message)
    requires m1.chat == m2.chat
    ensures ExtractChatData(m1) == ExtractChatData(m2)
  {
  }

  /** `broadcast_event`: one `handle_event` task per live state, in table order. */
  function EventTasks(vals: seq<ChatState>, event: Event): (r: seq<StateTask>)
    ensures |r| == |vals| && forall i :: 0 <= i < |vals| ==> r[i] == EventTask(vals[i], event)
  {
    seq(|vals|, i requires 0 <= i < |vals| => EventTask(vals[i], event))
  }

  function SessionOf(s: ChatState): Session
    reads s
  {
    Session(s.chatId, s.lastActive, s.handlers.deactivate)
  }

  function SessionsOf(vals: seq<ChatState>): (r: seq<Session>)
    reads vals
    ensures |r| == |vals| && forall i :: 0 <= i < |vals| ==> r[i] == SessionOf(vals[i])
  {
    seq(|vals|, i reads vals requires 0 <= i < |vals| => SessionOf(vals[i]))
  }

  /** `register_class` checks nothing about the chat types themselves. */
  predicate Unchecked(v: TagValue) {
    true
  }

  /** `register_class` succeeds exactly when none of the class's chat types
      has a class yet, and then maps each of them to it. */
  lemma RegisterClassIff(reg: map<TagValue, StateClass>, cls: StateClass, order: seq<TagValue>)
    requires Distinct(order)
    ensures var (r, o) := RegisterAll(reg, cls, order, Unchecked);
      && (o == Done <==> forall v :: v in order ==> v !in reg)
      && (o == Done ==> r == reg + map v | v in order :: cls)
  {
    RegisterAllIff(reg, cls, order, Unchecked);
    var (r, o) := RegisterAll(reg, cls, order, Unchecked);
    if o == Done {
      assert r.Keys == (reg + map v | v in order :: cls).Keys;
    }
  }

  // ----- The session object -----

  /** A chat session: the chat it serves, the handler lists extracted from
      its handler object, and when it was last active (integer seconds). */
  class ChatState {
    const chatId: int
    const chatType: int
    const userOrGroup: Option<string>
    const me: BotIdentity
    const bot: Bot
    const handlers: HandlerLists
    const dispatcher: ChatStateDispatcher
    const journal: Journal
    var lastActive: int

    /** `ChatState(dispatcher, chat_id, chat_type, user_or_group, instance, ...)`
        once `_register_handlers` has extracted `handlers` from the instance. */
    constructor (dispatcher: ChatStateDispatcher, chatId: int, chatType: int, userOrGroup: Option<string>,
                 me: BotIdentity, handlers: HandlerLists, now: int)
      ensures this.dispatcher == dispatcher && this.chatId == chatId && this.chatType == chatType
      ensures this.userOrGroup == userOrGroup && this.me == me && this.handlers == handlers
      ensures bot == dispatcher.bot && journal == dispatcher.journal && lastActive == now
    {
      this.dispatcher := dispatcher;
      this.chatId := chatId;
      this.chatType := chatType;
      this.userOrGroup := userOrGroup;
      this.me := me;
      this.bot := dispatcher.bot;
      this.handlers := handlers;
      this.journal := dispatcher.journal;
      lastActive := now;
    }

    /** One pass of the loop of `_process_entities` over entity `e`. */
    method ProcessEntity(text: string, e: MessageEntity) returns (queued: seq<HandlerId>, outcome: Outcome)
      modifies dispatcher`states
      ensures var step := ScanEntity(chatType, me, handlers.commands, text, e);
        && (dispatcher.states, outcome) == DeleteTimes(old(dispatcher.states), chatId, step.stops)
        && (outcome == Done ==> queued == step.handlers)
    {
      queued := [];
      outcome := Done;
      if e.kind == BOT_COMMAND {
        var entity := EntityText(text, e);
        var parsed := Context.ParseCommand(chatType, me, entity);
        var command, forMe := parsed.command, parsed.forMe;
        if forMe {
          if command == "/stop" {
            outcome := dispatcher.RemoveChatState(this);
            if outcome != Done {
              return;
            }
          }
          if Name(command) in handlers.commands && handlers.commands[Name(command)] != [] {
            queued := handlers.commands[Name(command)];
          }
        }
      }
    }

    /** `_process_entities(update)` as evidently intended: the command
        handlers it queues, and the `del` of the state that each addressed
        '/stop' performs (a second one raises KeyError). */
    method ProcessEntities(msg: Message) returns (queued: seq<HandlerId>, outcome: Outcome)
      modifies dispatcher`states
      ensures var scan := ScanEntities(chatType, me, handlers.commands, msg.text, msg.entities);
        && (dispatcher.states, outcome) == DeleteTimes(old(dispatcher.states), chatId, scan.stops)
        && (outcome == Done ==> queued == scan.handlers)
    {
      queued := [];
      ghost var start := dispatcher.states;
      ghost var stops: nat := 0;
      var i := 0;
      while i < |msg.entities|
        invariant 0 <= i <= |msg.entities|
        invariant ScanEntities(chatType, me, handlers.commands, msg.text, msg.entities[..i]) == Context.Scan(queued, stops)
        invariant DeleteTimes(start, chatId, stops) == (dispatcher.states, Done)
      {
        assert msg.entities[..i + 1][..i] == msg.entities[..i];
        ghost var step := ScanEntity(chatType, me, handlers.commands, msg.text, msg.entities[i]);
        assert ScanEntities(chatType, me, handlers.commands, msg.text, msg.entities[..i + 1])
            == Context.Scan(queued + step.handlers, stops + step.stops);
        if step.stops == 1 {
          DeleteTimesStep(start, chatId, stops);
        }
        var more, o := ProcessEntity(msg.text, msg.entities[i]);
        stops := stops + step.stops;
        if o != Done {
          ScanStopsGrow(chatType, me, handlers.commands, msg.text, msg.entities, i + 1);
          assert msg.entities[..|msg.entities|] == msg.entities;
          DeleteTimesSettles(start, chatId, stops,
            ScanEntities(chatType, me, handlers.commands, msg.text, msg.entities).stops);
          return more, o;
        }
        queued := queued + more;
        i := i + 1;
      }
      assert msg.entities[..i] == msg.entities;
      outcome := Done;
    }

    /** `for handler in handlers: handler(self, ...)` */
    method CallEach(hs: seq<HandlerId>)
      modifies journal
      ensures journal.calls == old(journal.calls) + CallsOf(chatId, hs)
    {
      var i := 0;
      while i < |hs|
        invariant 0 <= i <= |hs|
        invariant journal.calls == old(journal.calls) + CallsOf(chatId, hs[..i])
      {
        journal.Record(chatId, hs[i]);
        assert CallsOf(chatId, hs[..i + 1]) == CallsOf(chatId, hs[..i]) + [Call(chatId, hs[i])];
        i := i + 1;
      }
      assert hs[..i] == hs;
    }

    /** `handle_message(update)` for the update's message `msg`, at time
        `now`, with `_process_entities` as evidently intended: every removal
        is a `del` on the dispatcher's table, and a raised exception ends the
        call before any handler runs. */
    method HandleMessage(msg: Message, now: int) returns (outcome: Outcome)
      modifies this`lastActive, dispatcher`states, journal
      ensures lastActive == now
      ensures var plan := PlanOf(handlers, chatType, me, bot.identity.id, msg);
        var (after, removed) := DeleteTimes(old(dispatcher.states), chatId, plan.removals);
        && dispatcher.states == after
        && outcome == removed
        && journal.calls == old(journal.calls) + (if removed == Done then CallsOf(chatId, plan.handlers) else [])
    {
      lastActive := now;
      ghost var start := dispatcher.states;
      ghost var scan := ScanEntities(chatType, me, handlers.commands, msg.text, msg.entities);
      ghost var plan := PlanOf(handlers, chatType, me, bot.identity.id, msg);
      var list := handlers.messages;
      var commands, o := ProcessEntities(msg);
      if o != Done {
        DeleteTimesSettles(start, chatId, scan.stops, plan.removals);
        return o;
      }
      list := list + commands;
      if msg.newChatMember.Some? {
        list := list + handlers.newChatMembers;
      }
      if msg.leftChatMember.Some? {
        if msg.leftChatMember.value.id == bot.identity.id {
          DeleteTimesStep(start, chatId, scan.stops);
          o := dispatcher.RemoveChatState(this);
          if o != Done {
            return o;
          }
        } else {
          list := list + handlers.leftChatMembers;
        }
      }
      assert list == plan.handlers;
      CallEach(list);
      outcome := Done;
    }

    /** `handle_callback_query(update)` for the update's callback query `cq`:
        refreshes `last_active`, calls the callback-query handler when one is
        bound (`reply` is what it returns), and answers the query exactly
        once, with that reply or None. */
    method HandleCallbackQuery(cq: CallbackQuery, reply: Option<string>, now: int)
      modifies this`lastActive, journal, bot
      ensures lastActive == now
      ensures journal.calls == old(journal.calls) + CallsOf(chatId, Context.Present(handlers.callbackQuery))
      ensures bot.calls == old(bot.calls)
        + [AnswerCallbackQuery(cq.id, if handlers.callbackQuery.Some? then reply else None)]
    {
      lastActive := now;
      var result := None;
      if handlers.callbackQuery.Some? {
        journal.Record(chatId, handlers.callbackQuery.value);
        result := reply;
      }
      bot.AnswerCallbackQuery(cq.id, result);
    }

    /** `handle_inline_callback_query(update)` */
    method HandleInlineCallbackQuery(now: int)
      modifies this`lastActive
      ensures lastActive == now
    {
      lastActive := now;
    }

    /** `on_activate()` */
    method OnActivate(now: int)
      modifies this`lastActive, journal
      ensures lastActive == now
      ensures journal.calls == old(journal.calls) + CallsOf(chatId, Context.Present(handlers.activate))
    {
      lastActive := now;
      if handlers.activate.Some? {
        journal.Record(chatId, handlers.activate.value);
      }
    }

    /** `on_deactivate()` */
    method OnDeactivate(now: int)
      modifies this`lastActive, journal
      ensures lastActive == now
      ensures journal.calls == old(journal.calls) + CallsOf(chatId, Context.Present(handlers.deactivate))
    {
      lastActive := now;
      if handlers.deactivate.Some? {
        journal.Record(chatId, handlers.deactivate.value);
      }
    }

    /** `handle_event(event)`: the subscribers of the event's name, in order;
        KeyError for an event without a name. */
    method HandleEvent(event: Event) returns (outcome: Outcome)
      modifies journal
      ensures var hs := EventHandlers(handlers.events, event);
        && (hs.Err? ==> outcome == Raised(KeyError) && journal.calls == old(journal.calls))
        && (hs.Ok? ==> outcome == Done && journal.calls == old(journal.calls) + CallsOf(chatId, hs.value))
    {
      if "name" !in event {
        return Raised(KeyError);
      }
      var hs := Listed(handlers.events, Name(event["name"]));
      CallEach(hs);
      outcome := Done;
    }

    /** `broadcast_event(event)`, delegated to the dispatcher. */
    method BroadcastEvent(event: Event)
      modifies dispatcher.pool
      ensures dispatcher.pool.tasks == old(dispatcher.pool.tasks) + EventTasks(Values(dispatcher.states), event)
      ensures dispatcher.pool.running == old(dispatcher.pool.running)
    {
      dispatcher.BroadcastEvent(event);
    }
  }

  // ----- The dispatcher -----

  class ChatStateDispatcher {
    const bot: Bot
    const journal: Journal
    const pool: Pool<StateTask>
    const maxIdleMinutes: int
    var me: Option<BotIdentity>
    var chatTypeReg: map<TagValue, StateClass>
    var states: Dict<int, ChatState>

    /** Every live state is filed under its own chat id and belongs to this
        dispatcher, its bot and its journal. */
    ghost predicate Valid()
      reads this
    {
      forall k :: k in states.items ==>
        && states.items[k].chatId == k
        && states.items[k].dispatcher == this
        && states.items[k].journal == journal
        && states.items[k].bot == bot
    }

    /** `ChatStateDispatcher(bot, max_idle_minutes=1440)`; the kinds it
        pre-fills with empty lists read like absent keys to every `get`. */
    constructor (bot: Bot, journal: Journal, maxIdleMinutes: int)
      ensures this.bot == bot && this.journal == journal && this.maxIdleMinutes == maxIdleMinutes
      ensures fresh(pool) && pool.tasks == [] && !pool.running
      ensures me == None && chatTypeReg == map[] && states == Empty()
      ensures Valid()
    {
      this.bot := bot;
      this.journal := journal;
      this.maxIdleMinutes := maxIdleMinutes;
      pool := new Pool<StateTask>();
      me := None;
      chatTypeReg := map[];
      states := Empty();
    }

    /** `register_class(class_)`, its chat types enumerated in `order`. */
    method RegisterClass(cls: StateClass, order: seq<TagValue>) returns (outcome: Outcome)
      requires cls.chatTypes.Some? ==> Distinct(order) && forall v :: v in order <==> v in cls.chatTypes.value
      modifies this`chatTypeReg
      ensures cls.chatTypes.None? ==> outcome == Raised(AssertionError) && chatTypeReg == old(chatTypeReg)
      ensures cls.chatTypes.Some? ==> (chatTypeReg, outcome) == RegisterAll(old(chatTypeReg), cls, order, Unchecked)
    {
      if cls.chatTypes.None? {
        return Raised(AssertionError);
      }
      var i := 0;
      while i < |order|
        invariant 0 <= i <= |order|
        invariant RegisterAll(old(chatTypeReg), cls, order[..i], Unchecked) == (chatTypeReg, Done)
      {
        var v := order[i];
        assert order[..i + 1][..i] == order[..i];
        if v in chatTypeReg {
          RegisterFailureSticks(old(chatTypeReg), cls, order, Unchecked, i + 1);
          return Raised(AssertionError);
        }
        chatTypeReg := chatTypeReg[v := cls];
        i := i + 1;
      }
      assert order[..i] == order;
      outcome := Done;
    }

    /** `remove_chat_state(chat_state)`: `del self._states[chat_state.chat_id]`. */
    method RemoveChatState(s: ChatState) returns (outcome: Outcome)
      modifies this`states
      ensures (states, outcome) == DeleteTimes(old(states), s.chatId, 1)
      ensures old(Valid()) ==> Valid()
    {
      if s.chatId !in states.items {
        return Raised(KeyError);
      }
      states := Remove(states, s.chatId);
      outcome := Done;
    }

    /** `_make_chat_state(chat_id, chat_type, user_or_group)` at time `now`:
        the class for the chat's own kind, else the class for ANY; a new
        state is stored under `chat_id` and one `on_activate` task is
        scheduled; nothing is stored or scheduled when no class resolves or
        `extract_handlers` fails its assertion. */
    method MakeChatState(data: ChatData, now: int) returns (r: Result<Option<ChatState>>)
      requires Valid() && me.Some?
      modifies this`states, pool
      ensures Valid() && pool.running == old(pool.running)
      ensures var cls := Fallback(chatTypeReg, data.chatType);
        && (cls.None? ==> r == Ok(None) && states == old(states) && pool.tasks == old(pool.tasks))
        && (cls.Some? && ExtractSpec(data.chatType, Methods(cls.value.attributes)).None? ==>
              r == Err(AssertionError) && states == old(states) && pool.tasks == old(pool.tasks))
        && (cls.Some? && ExtractSpec(data.chatType, Methods(cls.value.attributes)).Some? ==>
              && r.Ok? && r.value.Some?
              && var s := r.value.value;
              && fresh(s)
              && s.chatId == data.chatId && s.chatType == data.chatType && s.userOrGroup == data.userOrGroup
              && s.me == me.value && s.handlers == ExtractSpec(data.chatType, Methods(cls.value.attributes)).value
              && s.lastActive == now
              && states == Put(old(states), data.chatId, s)
              && pool.tasks == old(pool.tasks) + [ActivateTask(s)])
    {
      var hcls := Fallback(chatTypeReg, data.chatType);
      if hcls.None? {
        return Ok(None);
      }
      var hs := ExtractHandlers(data.chatType, hcls.value.attributes);
      if hs.None? {
        return Err(AssertionError);
      }
      var s := new ChatState(this, data.chatId, data.chatType, data.userOrGroup, me.value, hs.value, now);
      states := Put(states, data.chatId, s);
      pool.Notify(ActivateTask(s));
      r := Ok(Some(s));
    }

    /** `_dispatch_message` (MessagePath) and `_dispatch_callback_query`
        (CallbackQueryPath) for the message `msg` whose chat they read, with
        `_extract_chat_data` as evidently intended: a live state gets the
        task, else one is made first; an unhandled kind schedules nothing. */
    method DispatchPath(path: Path, msg: Message, update: Update, now: int) returns (outcome: Outcome)
      requires Valid() && me.Some?
      modifies this`states, pool
      ensures Valid() && pool.running == old(pool.running)
      ensures PathEffect(path, msg, update, chatTypeReg, old(states), old(pool.tasks), states, pool.tasks, outcome)
      ensures forall k :: k in states.items && k !in old(states).items ==> fresh(states.items[k])
    {
      var data := ExtractChatData(msg);
      ghost var route := RouteOf(data, states, chatTypeReg);
      if data.Err? {
        return Raised(data.error);
      }
      var chatState: Option<ChatState> := None;
      if data.value.chatId in states.items {
        chatState := Some(states.items[data.value.chatId]);
        assert route == Existing(chatState.value);
      } else {
        assert route.Create? <==> Fallback(chatTypeReg, data.value.chatType).Some?;
        var made := MakeChatState(data.value, now);
        if made.Err? {
          return Raised(made.error);
        }
        chatState := made.value;
      }
      if chatState.Some? {
        pool.Notify(TaskFor(path, chatState.value, update));
      }
      outcome := Done;
    }

    /** `dispatch_update(update)` at time `now`: fetches the bot identity
        only while it is unknown, then takes the message path and the
        callback-query path in turn. */
    method DispatchUpdate(update: Update, now: int)
      returns (outcome: Outcome, ghost mid: Dict<int, ChatState>, ghost midTasks: seq<StateTask>, ghost first: Outcome)
      requires Valid()
      modifies this`me, this`states, bot, pool
      ensures Valid() && pool.running == old(pool.running)
      ensures me == (if old(me).Some? then old(me) else Some(bot.identity))
      ensures bot.calls == old(bot.calls) + (if old(me).None? then [GetMe] else [])
      ensures PathsEffect(update, chatTypeReg, old(states), old(pool.tasks), mid, midTasks, first, states, pool.tasks, outcome)
      ensures update.message.None? && update.callbackQuery.None? ==>
        outcome == Done && states == old(states) && pool.tasks == old(pool.tasks)
      ensures update.message.Some? && RouteOf(ExtractChatData(update.message.value), old(states), chatTypeReg).Unreadable? ==>
        outcome == Raised(RouteOf(ExtractChatData(update.message.value), old(states), chatTypeReg).error)
        && states == old(states) && pool.tasks == old(pool.tasks)
      ensures update.message.Some? && update.callbackQuery.Some? && update.callbackQuery.value.message.Some? ==>
        var r1 := RouteOf(ExtractChatData(update.message.value), old(states), chatTypeReg);
        var r2 := RouteOf(ExtractChatData(update.callbackQuery.value.message.value), old(states), chatTypeReg);
        r1.Existing? && r2.Existing? ==>
          && outcome == Done && states == old(states)
          && pool.tasks == old(pool.tasks) + [MessageTask(r1.state, update), CallbackQueryTask(r2.state, update)]
      ensures update.message.None? && update.callbackQuery.Some? && update.callbackQuery.value.message.None? ==>
        outcome == Raised(AttributeError) && states == old(states) && pool.tasks == old(pool.tasks)
      ensures update.message.None? && update.callbackQuery.Some? && update.callbackQuery.value.message.Some? ==>
        var r2 := RouteOf(ExtractChatData(update.callbackQuery.value.message.value), old(states), chatTypeReg);
        r2.Existing? ==>
          outcome == Done && states == old(states) && pool.tasks == old(pool.tasks) + [CallbackQueryTask(r2.state, update)]
    {
      if me.None? {
        var identity := bot.GetMe();
        me := Some(identity);
      }
      outcome, mid, midTasks, first := DispatchPaths(update, now);
    }

    /** The two paths of `dispatch_update` once the bot identity is known; an
        exception on the message path ends the call. */
    method DispatchPaths(update: Update, now: int)
      returns (outcome: Outcome, ghost mid: Dict<int, ChatState>, ghost midTasks: seq<StateTask>, ghost first: Outcome)
      requires Valid() && me.Some?
      modifies this`states, pool
      ensures Valid() && pool.running == old(pool.running)
      ensures PathsEffect(update, chatTypeReg, old(states), old(pool.tasks), mid, midTasks, first, states, pool.tasks, outcome)
      ensures update.message.None? && update.callbackQuery.None? ==>
        outcome == Done && states == old(states) && pool.tasks == old(pool.tasks)
      ensures update.message.Some? && RouteOf(ExtractChatData(update.message.value), old(states), chatTypeReg).Unreadable? ==>
        outcome == Raised(RouteOf(ExtractChatData(update.message.value), old(states), chatTypeReg).error)
        && states == old(states) && pool.tasks == old(pool.tasks)
      ensures update.message.Some? && update.callbackQuery.Some? && update.callbackQuery.value.message.Some? ==>
        var r1 := RouteOf(ExtractChatData(update.message.value), old(states), chatTypeReg);
        var r2 := RouteOf(ExtractChatData(update.callbackQuery.value.message.value), old(states), chatTypeReg);
        r1.Existing? && r2.Existing? ==>
          && outcome == Done && states == old(states)
          && pool.tasks == old(pool.tasks) + [MessageTask(r1.state, update), CallbackQueryTask(r2.state, update)]
      ensures update.message.None? && update.callbackQuery.Some? && update.callbackQuery.value.message.None? ==>
        outcome == Raised(AttributeError) && states == old(states) && pool.tasks == old(pool.tasks)
      ensures update.message.None? && update.callbackQuery.Some? && update.callbackQuery.value.message.Some? ==>
        var r2 := RouteOf(ExtractChatData(update.callbackQuery.value.message.value), old(states), chatTypeReg);
        r2.Existing? ==>
          outcome == Done && states == old(states) && pool.tasks == old(pool.tasks) + [CallbackQueryTask(r2.state, update)]
    {
      outcome := Done;
      if update.message.Some? {
        outcome := DispatchPath(MessagePath, update.message.value, update, now);
      }
      first, mid, midTasks := outcome, states, pool.tasks;
      if outcome != Done {
        return;
      }
      if update.callbackQuery.Some? {
        var cq := update.callbackQuery.value;
        if cq.message.None? {
          outcome := Raised(AttributeError);
        } else {
          outcome := DispatchPath(CallbackQueryPath, cq.message.value, update, now);
        }
      }
    }

    /** `broadcast_event(event)`: one `handle_event` task per live state. */
    method BroadcastEvent(event: Event)
      modifies pool
      ensures pool.tasks == old(pool.tasks) + EventTasks(Values(states), event)
      ensures pool.running == old(pool.running)
    {
      var vals := Values(states);
      var i := 0;
      while i < |vals|
        invariant 0 <= i <= |vals|
        invariant pool.tasks == old(pool.tasks) + EventTasks(vals[..i], event)
        invariant pool.running == old(pool.running)
      {
        pool.Notify(EventTask(vals[i], event));
        assert EventTasks(vals[..i + 1], event) == EventTasks(vals[..i], event) + [EventTask(vals[i], event)];
        i := i + 1;
      }
      assert vals[..i] == vals;
    }

    /** The first loop of `_clean_idle_states` over the live states `vals`:
        each one idle since before `limit` is deactivated and its chat id
        collected. */
    method DeactivateExpired(vals: seq<ChatState>, limit: int, now: int) returns (ids: seq<int>)
      requires forall i :: 0 <= i < |vals| ==> vals[i].journal == journal
      requires forall i, j :: 0 <= i < j < |vals| ==> vals[i] != vals[j]
      modifies journal, vals
      ensures ids == ExpiredIds(old(SessionsOf(vals)), limit)
      ensures journal.calls == old(journal.calls) + DeactivateCalls(old(SessionsOf(vals)), limit)
      ensures forall i :: 0 <= i < |vals| ==>
        vals[i].lastActive == (if old(vals[i].lastActive) < limit then now else old(vals[i].lastActive))
    {
      ghost var ss := SessionsOf(vals);
      ghost var start := journal.calls;
      ids := [];
      var i: nat := 0;
      while i < |vals|
        invariant i <= |vals|
        invariant ids == ExpiredIds(ss[..i], limit)
        invariant journal.calls == start + DeactivateCalls(ss[..i], limit)
        invariant forall j :: 0 <= j < |vals| ==>
          vals[j].lastActive == (if j < i && ss[j].lastActive < limit then now else ss[j].lastActive)
      {
        var s := vals[i];
        ExpiredStep(ss, i, limit);
        ghost var calls := if ss[i].lastActive < limit && ss[i].deactivate.Some? then [Call(ss[i].chatId, ss[i].deactivate.value)] else [];
        AppendAssoc(start, DeactivateCalls(ss[..i], limit), calls);
        ids := DeactivateOne(s, ss[i], limit, now, ids);
        forall j | 0 <= j < |vals|
          ensures vals[j].lastActive == (if j < i + 1 && ss[j].lastActive < limit then now else ss[j].lastActive)
        {
          if j != i {
            assert vals[j] != s;
          }
        }
        i := i + 1;
        assert ids == ExpiredIds(ss[..i], limit);
        assert journal.calls == start + DeactivateCalls(ss[..i], limit);
      }
      assert ss[..i] == ss;
    }

    /** The body of the first loop of `_clean_idle_states` for the state `s`,
        whose session `c` was read before the loop. */
    method DeactivateOne(s: ChatState, ghost c: Session, limit: int, now: int, ids: seq<int>) returns (more: seq<int>)
      requires s.journal == journal && c == SessionOf(s)
      modifies s`lastActive, journal
      ensures more == ids + (if Expired(c, limit) then [c.chatId] else [])
      ensures journal.calls == old(journal.calls)
        + (if Expired(c, limit) && c.deactivate.Some? then [Call(c.chatId, c.deactivate.value)] else [])
      ensures s.lastActive == (if Expired(c, limit) then now else c.lastActive)
    {
      more := ids;
      if s.lastActive < limit {
        s.OnDeactivate(now);
        more := ids + [s.chatId];
      }
    }

    /** The second loop of `_clean_idle_states`: `del self._states[state_id]`
        for each collected id, stopping at the first KeyError. */
    method DeleteAll(ids: seq<int>) returns (outcome: Outcome)
      modifies this`states
      ensures (states, outcome) == DeleteEach(old(states), ids)
      ensures old(Valid()) ==> Valid()
    {
      ghost var start := states;
      ghost var valid := Valid();
      var i: nat := 0;
      while i < |ids|
        invariant i <= |ids|
        invariant DeleteEach(start, ids[..i]) == (states, Done)
        invariant valid ==> Valid()
      {
        DeleteEachStep(start, ids, i);
        if ids[i] !in states.items {
          DeleteEachFailureSticks(start, ids, i + 1);
          return Raised(KeyError);
        }
        states := Remove(states, ids[i]);
        i := i + 1;
      }
      assert ids[..i] == ids;
      outcome := Done;
    }

    /** `_clean_idle_states()` at time `now`, with the deletion loop as
        evidently intended: every state idle since before the limit is
        deactivated and removed, and every other one stays. */
    method CleanIdleStates(now: int) returns (outcome: Outcome)
      requires Valid()
      modifies this`states, journal, Values(states)
      ensures Valid()
      ensures var vals := old(Values(states));
        var ss := old(SessionsOf(vals));
        var limit := IdleLimit(now, maxIdleMinutes);
        && (states, outcome) == CleanIdle(old(states), ss, limit)
        && outcome == Done
        && (forall i :: 0 <= i < |ss| ==> (ss[i].chatId in states.items <==> !Expired(ss[i], limit)))
        && (forall k :: k in states.items ==> k in old(states.items) && states.items[k] == old(states.items[k]))
        && journal.calls == old(journal.calls) + DeactivateCalls(ss, limit)
        && (forall i :: 0 <= i < |vals| ==> vals[i].lastActive == (if Expired(ss[i], limit) then now else ss[i].lastActive))
    {
      var limit := IdleLimit(now, maxIdleMinutes);
      var vals := Values(states);
      ghost var ss := SessionsOf(vals);
      ghost var before := states;
      forall i, j | 0 <= i < j < |vals|
        ensures vals[i] != vals[j]
      {
        assert vals[i].chatId == states.order[i] && vals[j].chatId == states.order[j];
      }
      forall i | 0 <= i < |vals|
        ensures vals[i].journal == journal
      {
        var k := states.order[i];
        assert k in states.items && vals[i] == states.items[k];
        assert states.items[k].journal == journal;
      }
      var ids := DeactivateExpired(vals, limit, now);
      outcome := DeleteAll(ids);
      assert SessionsOfTable(before, ss);
      CleanIdleEvictsExactlyExpired(before, ss, limit);
    }

    /** `start()` */
    method Start()
      modifies pool
      ensures pool.running && pool.tasks == old(pool.tasks)
    {
      pool.Start();
    }

    /** `stop()` */
    method Stop()
      modifies pool
      ensures !pool.running && pool.tasks == old(pool.tasks)
    {
      pool.Stop();
    }
  }
}
