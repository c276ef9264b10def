/** chatstate/context.py: the per-chat session object ChatContext, the class
    registry keyed by chat kind, the factory with its ANY fallback, the
    registry of live contexts with its idle sweep, and the manager that ties
    them together. */
module Context {
  import opened Base
  import opened Dicts
  import opened ChatTypes
  import opened Telegram
  import opened Effects
  import opened Reflection
  import opened Registry

  // ----- Commands addressed to the bot -----

  /** The position of the last `c` in `s`, if any. */
  function LastIndexOf(s: string, c: char): (r: Option<nat>)
    ensures r.None? <==> c !in s
    ensures r.Some? ==> r.value < |s| && s[r.value] == c && c !in s[r.value + 1..]
  {
    if s == [] then None
    else if s[|s| - 1] == c then Some(|s| - 1)
    else
      var p := s[..|s| - 1];
      assert s == p + [s[|s| - 1]];
      var r := LastIndexOf(p, c);
      if r.Some? then
        assert s[r.value + 1..] == p[r.value + 1..] + [s[|s| - 1]];
        r
      else r
  }

  /** `_split_recipient(text)`: `text.rsplit('@', 1)` when that gives two chunks. */
  function SplitRecipient(text: string): (r: Option<(string, string)>)
    ensures r.None? <==> '@' !in text
    ensures r.Some? ==> r.value.0 + "@" + r.value.1 == text && '@' !in r.value.1
  {
    match LastIndexOf(text, '@')
    case None => None
    case Some(i) =>
      assert text == text[..i] + "@" + text[i + 1..];
      Some((text[..i], text[i + 1..]))
  }

  /** The split is the only one that leaves no '@' in the recipient. */
  lemma SplitRecipientUnique(text: string, cmd: string, recipient: string)
    requires cmd + "@" + recipient == text && '@' !in recipient
    ensures SplitRecipient(text) == Some((cmd, recipient))
  {
    assert text[|cmd|] == '@';
    var r := SplitRecipient(text);
    var (c', r') := r.value;
    assert text[|c'|] == '@';
    assert c' == text[..|c'|] == cmd;
    assert r' == text[|c'| + 1..] == recipient;
  }

  /** What `_process_entities` makes of a bot_command entity's text. */
  datatype BotCommand = BotCommand(command: string, forMe: bool)

  /** The command with any '@recipient' stripped, and whether it is for this
      bot: always in a private chat, elsewhere only when the recipient is the
      bot's username. */
  function ParseCommand(chatType: int, me: BotIdentity, entity: string): BotCommand {
    var tokens := SplitRecipient(entity);
    var command := if tokens.Some? then tokens.value.0 else entity;
    var forMe := if chatType == PRIVATE then true else tokens.Some? && tokens.value.1 == me.username;
    BotCommand(command, forMe)
  }

  /** A private chat addresses every command to the bot; elsewhere a bare
      command is never addressed to it. */
  lemma AddressingRule(chatType: int, me: BotIdentity, entity: string)
    ensures chatType == PRIVATE ==> ParseCommand(chatType, me, entity).forMe
    ensures chatType == PRIVATE && '@' !in entity ==> ParseCommand(chatType, me, entity).command == entity
    ensures chatType != PRIVATE && '@' !in entity ==> !ParseCommand(chatType, me, entity).forMe
  {
  }

  /** '/cmd@botname' is the command '/cmd', addressed to the bot named
      botname, in every kind of chat. */
  lemma AddressedToMe(chatType: int, me: BotIdentity, cmd: string)
    requires '@' !in me.username
    ensures ParseCommand(chatType, me, cmd + "@" + me.username) == BotCommand(cmd, true)
  {
    SplitRecipientUnique(cmd + "@" + me.username, cmd, me.username);
  }

  /** Outside private chats, a command addressed to another bot is not for this one. */
  lemma AddressedToOther(chatType: int, me: BotIdentity, cmd: string, recipient: string)
    requires chatType != PRIVATE && '@' !in recipient && recipient != me.username
    ensures !ParseCommand(chatType, me, cmd + "@" + recipient).forMe
  {
    SplitRecipientUnique(cmd + "@" + recipient, cmd, recipient);
  }

  /** The handlers and the number of '/stop' removals that a run of entities yields. */
  datatype Scan = Scan(handlers: seq<HandlerId>, stops: nat)

  /** One entity: only an addressed bot_command counts; it queues the handler
      registered for the command, if any, and '/stop' also removes the context. */
  function ScanEntity(chatType: int, me: BotIdentity, commands: map<string, HandlerId>, text: string, e: MessageEntity): (r: Scan)
    ensures e.kind != BOT_COMMAND ==> r == Scan([], 0)
    ensures |r.handlers| <= 1 && r.stops <= 1
    ensures r.stops == 1 <==> e.kind == BOT_COMMAND && ParseCommand(chatType, me, EntityText(text, e)) == BotCommand("/stop", true)
    ensures var c := ParseCommand(chatType, me, EntityText(text, e));
      e.kind == BOT_COMMAND && c.forMe && c.command in commands ==> r.handlers == [commands[c.command]]
    ensures r.handlers != [] ==>
      var c := ParseCommand(chatType, me, EntityText(text, e));
      e.kind == BOT_COMMAND && c.forMe && c.command in commands && r.handlers == [commands[c.command]]
  {
    if e.kind != BOT_COMMAND then Scan([], 0)
    else
      var c := ParseCommand(chatType, me, EntityText(text, e));
      if !c.forMe then Scan([], 0)
      else Scan(if c.command in commands then [commands[c.command]] else [],
                if c.command == "/stop" then 1 else 0)
  }

  /** `_process_entities`: the entities in order. */
  function ScanEntities(chatType: int, me: BotIdentity, commands: map<string, HandlerId>, text: string, es: seq<MessageEntity>): Scan {
    if es == [] then Scan([], 0)
    else
      var s := ScanEntities(chatType, me, commands, text, es[..|es| - 1]);
      var t := ScanEntity(chatType, me, commands, text, es[|es| - 1]);
      Scan(s.handlers + t.handlers, s.stops + t.stops)
  }

  /** Entities that are not bot commands produce nothing; every queued handler
      is a registered command handler; there are never more removals or
      handlers than entities. */
  lemma {:induction false} ScanEntitiesBounds(chatType: int, me: BotIdentity, commands: map<string, HandlerId>, text: string, es: seq<MessageEntity>)
    ensures var s := ScanEntities(chatType, me, commands, text, es);
      && s.stops <= |es| && |s.handlers| <= |es|
      && (forall h :: h in s.handlers ==> h in commands.Values)
      && ((forall e :: e in es ==> e.kind != BOT_COMMAND) ==> s == Scan([], 0))
  {
    if es != [] {
      var p := es[..|es| - 1];
      ScanEntitiesBounds(chatType, me, commands, text, p);
      assert forall e :: e in p ==> e in es;
    }
  }

  /** Removals only grow as entities are added. */
  lemma {:induction false} ScanStopsGrow(chatType: int, me: BotIdentity, commands: map<string, HandlerId>, text: string, es: seq<MessageEntity>, i: nat)
    requires i <= |es|
    ensures ScanEntities(chatType, me, commands, text, es[..i]).stops <= ScanEntities(chatType, me, commands, text, es).stops
  {
    if i < |es| {
      assert es[..|es| - 1][..i] == es[..i];
      ScanStopsGrow(chatType, me, commands, text, es[..|es| - 1], i);
    } else {
      assert es[..i] == es;
    }
  }

  /** An addressed '/stop' always removes the context and, when a '/stop'
      handler is registered, still queues it. */
  lemma StopStillQueued(chatType: int, me: BotIdentity, commands: map<string, HandlerId>, text: string, es: seq<MessageEntity>, e: MessageEntity)
    requires e.kind == BOT_COMMAND && ParseCommand(chatType, me, EntityText(text, e)) == BotCommand("/stop", true)
    ensures var before := ScanEntities(chatType, me, commands, text, es);
      var after := ScanEntities(chatType, me, commands, text, es + [e]);
      && after.stops == before.stops + 1
      && ("/stop" in commands ==> after.handlers == before.handlers + [commands["/stop"]])
      && ("/stop" !in commands ==> after.handlers == before.handlers)
  {
    assert (es + [e])[..|es + [e]| - 1] == es;
  }

  // ----- The session object -----

  /** The nine handler slots ChatContext reads; application handlers are opaque ids. */
  datatype ContextHandlers = ContextHandlers(
    message: Option<HandlerId>,
    commands: map<string, HandlerId>,
    callbackQuery: Option<HandlerId>,
    events: map<string, seq<HandlerId>>,
    wake: Option<HandlerId>,
    newChatMember: Option<HandlerId>,
    leftChatMember: Option<HandlerId>,
    idle: Option<HandlerId>,
    stop: Option<HandlerId>)

  function Present(h: Option<HandlerId>): seq<HandlerId> {
    if h.Some? then [h.value] else []
  }

  function Wrap(hs: seq<HandlerId>): (r: seq<Option<HandlerId>>)
    ensures |r| == |hs| && forall i :: 0 <= i < |hs| ==> r[i] == Some(hs[i])
  {
    seq(|hs|, i requires 0 <= i < |hs| => Some(hs[i]))
  }

  /** Whether the member who left is the bot itself. */
  predicate BotLeft(msg: Message, botId: int) {
    msg.leftChatMember.Some? && msg.leftChatMember.value.id == botId
  }

  /** What handle_message does with a message: how many times it removes the
      context, and the handler list it builds, in order. */
  datatype MessagePlan = MessagePlan(removals: nat, handlers: seq<Option<HandlerId>>)

  /** The plan of `handle_message`: command handlers in entity order, then the
      new-member handler, then the left-member handler (unless the bot itself
      left, which removes the context instead), then the message handler,
      appended even when it is None. */
  function PlanOf(h: ContextHandlers, chatType: int, me: BotIdentity, botId: int, msg: Message): (r: MessagePlan)
    ensures |r.handlers| >= 1 && r.handlers[|r.handlers| - 1] == h.message
    ensures BotLeft(msg, botId) ==> r.removals >= 1
    ensures msg.leftChatMember.Some? && !BotLeft(msg, botId) && h.leftChatMember.Some?
            ==> |r.handlers| >= 2 && r.handlers[|r.handlers| - 2] == h.leftChatMember
    ensures msg.newChatMember.Some? && h.newChatMember.Some?
            && !(msg.leftChatMember.Some? && !BotLeft(msg, botId) && h.leftChatMember.Some?)
            ==> |r.handlers| >= 2 && r.handlers[|r.handlers| - 2] == h.newChatMember
    ensures msg.newChatMember.Some? && h.newChatMember.Some?
            && msg.leftChatMember.Some? && !BotLeft(msg, botId) && h.leftChatMember.Some?
            ==> |r.handlers| >= 3 && r.handlers[|r.handlers| - 3] == h.newChatMember
  {
    var scan := ScanEntities(chatType, me, h.commands, msg.text, msg.entities);
    var joined := if msg.newChatMember.Some? then Present(h.newChatMember) else [];
    var left := if msg.leftChatMember.Some? && !BotLeft(msg, botId) then Present(h.leftChatMember) else [];
    MessagePlan(
      scan.stops + (if BotLeft(msg, botId) then 1 else 0),
      Wrap(scan.handlers + joined + left) + [h.message])
  }

  /** The handler list, split into its parts: the command handlers first;
      then the new-member handler when someone joined; then the left-member
      handler when someone other than the bot left (none when the bot itself
      left); the message handler always last. */
  lemma PlanOrder(h: ContextHandlers, chatType: int, me: BotIdentity, botId: int, msg: Message)
    ensures var scan := ScanEntities(chatType, me, h.commands, msg.text, msg.entities);
      var r := PlanOf(h, chatType, me, botId, msg);
      && r.handlers[..|scan.handlers|] == Wrap(scan.handlers)
      && (BotLeft(msg, botId) ==>
            r.handlers == Wrap(scan.handlers + (if msg.newChatMember.Some? then Present(h.newChatMember) else [])) + [h.message])
      && (msg.newChatMember.None? && msg.leftChatMember.None? ==> r.handlers == Wrap(scan.handlers) + [h.message])
      && (msg.newChatMember.Some? && msg.leftChatMember.None? ==>
            r.handlers == Wrap(scan.handlers + Present(h.newChatMember)) + [h.message])
      && (msg.leftChatMember.Some? && !BotLeft(msg, botId) ==>
            r.handlers == Wrap(scan.handlers + (if msg.newChatMember.Some? then Present(h.newChatMember) else [])
                               + Present(h.leftChatMember)) + [h.message])
      && r.removals == scan.stops + (if BotLeft(msg, botId) then 1 else 0)
  {
    var scan := ScanEntities(chatType, me, h.commands, msg.text, msg.entities);
    var r := PlanOf(h, chatType, me, botId, msg);
    var joined := if msg.newChatMember.Some? then Present(h.newChatMember) else [];
    var left := if msg.leftChatMember.Some? && !BotLeft(msg, botId) then Present(h.leftChatMember) else [];
    assert forall i :: 0 <= i < |scan.handlers| ==> r.handlers[i] == Some(scan.handlers[i]);
    assert scan.handlers + [] + [] == scan.handlers;
  }

  /** The handlers `for handler in handlers: handler(update)` calls before it
      meets a None (which is not callable: TypeError). */
  function Run(hs: seq<Option<HandlerId>>): (r: (seq<HandlerId>, Outcome))
    ensures r.1 == Done <==> forall i :: 0 <= i < |hs| ==> hs[i].Some?
    ensures r.1 != Done ==> r.1 == Raised(TypeError)
    ensures r.1 == Done ==> Wrap(r.0) == hs
    ensures |r.0| <= |hs|
  {
    if hs == [] then ([], Done)
    else
      var p := hs[..|hs| - 1];
      var (called, o) := Run(p);
      assert forall i :: 0 <= i < |p| ==> p[i] == hs[i];
      if o != Done then (called, o)
      else if hs[|hs| - 1].None? then (called, Raised(TypeError))
      else
        assert Wrap(called + [hs[|hs| - 1].value]) == hs;
        (called + [hs[|hs| - 1].value], Done)
  }

  lemma {:induction false} RunFailureSticks(hs: seq<Option<HandlerId>>, i: nat)
    requires i <= |hs| && Run(hs[..i]).1 != Done
    ensures Run(hs) == Run(hs[..i])
  {
    if i < |hs| {
      assert hs[..|hs| - 1][..i] == hs[..i];
      RunFailureSticks(hs[..|hs| - 1], i);
    } else {
      assert hs[..i] == hs;
    }
  }

  /** The per-chat session: the chat it serves, the handlers of its handler
      object, and when it was last active (integer seconds). */
  class ChatContext {
    const chatId: int
    const chatType: int
    const userOrGroup: Option<string>
    const me: BotIdentity
    const botId: int
    const handlers: ContextHandlers
    const registry: ContextRegistry
    const journal: Journal
    var lastActive: int

    constructor (chatId: int, chatType: int, userOrGroup: Option<string>, me: BotIdentity, botId: int,
                 handlers: ContextHandlers, registry: ContextRegistry, journal: Journal, now: int)
      ensures this.chatId == chatId && this.chatType == chatType && this.userOrGroup == userOrGroup
      ensures this.me == me && this.botId == botId && this.handlers == handlers
      ensures this.registry == registry && this.journal == journal && lastActive == now
    {
      this.chatId := chatId;
      this.chatType := chatType;
      this.userOrGroup := userOrGroup;
      this.me := me;
      this.botId := botId;
      this.handlers := handlers;
      this.registry := registry;
      this.journal := journal;
      lastActive := now;
    }

    /** One pass of the loop of `_process_entities` over entity `e` of the
        message text: an addressed '/stop' deletes the context (`del`), and
        an addressed command with a registered handler is queued. */
    method ProcessEntity(text: string, e: MessageEntity) returns (queued: seq<HandlerId>, outcome: Outcome)
      modifies registry
      ensures var step := ScanEntity(chatType, me, handlers.commands, text, e);
        && (registry.contexts, outcome) == DeleteTimes(old(registry.contexts), chatId, step.stops)
        && (outcome == Done ==> queued == step.handlers)
    {
      queued := [];
      outcome := Done;
      if e.kind == BOT_COMMAND {
        var entity := EntityText(text, e);
        var BotCommand(command, forMe) := ParseCommand(chatType, me, entity);
        if forMe {
          if command == "/stop" {
            outcome := registry.Delete(chatId);
            if outcome != Done {
              return;
            }
          }
          if command in handlers.commands {
            queued := [handlers.commands[command]];
          }
        }
      }
    }

    /** `_process_entities(message)`: the command handlers it queues, and the
        outcome of the `del` each addressed '/stop' performs on the context
        registry (a second one raises KeyError). */
    method ProcessEntities(msg: Message) returns (queued: seq<HandlerId>, outcome: Outcome)
      modifies registry
      ensures var scan := ScanEntities(chatType, me, handlers.commands, msg.text, msg.entities);
        && (registry.contexts, outcome) == DeleteTimes(old(registry.contexts), chatId, scan.stops)
        && (outcome == Done ==> queued == scan.handlers)
    {
      queued := [];
      ghost var start := registry.contexts;
      ghost var stops: nat := 0;
      var i := 0;
      while i < |msg.entities|
        invariant 0 <= i <= |msg.entities|
        invariant ScanEntities(chatType, me, handlers.commands, msg.text, msg.entities[..i]) == Scan(queued, stops)
        invariant DeleteTimes(start, chatId, stops) == (registry.contexts, Done)
      {
        assert msg.entities[..i + 1][..i] == msg.entities[..i];
        ghost var step := ScanEntity(chatType, me, handlers.commands, msg.text, msg.entities[i]);
        assert ScanEntities(chatType, me, handlers.commands, msg.text, msg.entities[..i + 1])
            == Scan(queued + step.handlers, stops + step.stops);
        if step.stops == 1 {
          DeleteTimesStep(start, chatId, stops);
        }
        var more, o := ProcessEntity(msg.text, msg.entities[i]);
        stops := stops + step.stops;
        if o != Done {
          ScanStopsGrow(chatType, me, handlers.commands, msg.text, msg.entities, i + 1);
          assert msg.entities[..|msg.entities|] == msg.entities;
          DeleteTimesSettles(start, chatId, stops,
            ScanEntities(chatType, me, handlers.commands, msg.text, msg.entities).stops);
          return more, o;
        }
        queued := queued + more;
        i := i + 1;
      }
      assert msg.entities[..i] == msg.entities;
      outcome := Done;
    }

    /** `for handler in handlers: handler(update)`: calls handlers in order
        until one is None, which raises TypeError. */
    method CallAll(hs: seq<Option<HandlerId>>) returns (outcome: Outcome)
      modifies journal
      ensures outcome == Run(hs).1
      ensures journal.calls == old(journal.calls) + CallsOf(chatId, Run(hs).0)
    {
      var k := 0;
      while k < |hs|
        invariant 0 <= k <= |hs|
        invariant Run(hs[..k]).1 == Done
        invariant journal.calls == old(journal.calls) + CallsOf(chatId, Run(hs[..k]).0)
      {
        assert hs[..k + 1][..k] == hs[..k];
        if hs[k].None? {
          RunFailureSticks(hs, k + 1);
          return Raised(TypeError);
        }
        journal.Record(chatId, hs[k].value);
        k := k + 1;
      }
      assert hs[..k] == hs;
      outcome := Done;
    }

    /** `handle_message(update)` for the update's message `msg`, at time `now`:
        every removal is a `del` on the context registry, and a raised
        exception ends the call before any handler runs. */
    method HandleMessage(msg: Message, now: int) returns (outcome: Outcome)
      modifies this`lastActive, registry, journal
      ensures lastActive == now
      ensures var plan := PlanOf(handlers, chatType, me, botId, msg);
        var (after, removed) := DeleteTimes(old(registry.contexts), chatId, plan.removals);
        && registry.contexts == after
        && (removed != Done ==> outcome == removed && journal.calls == old(journal.calls))
        && (removed == Done ==>
              && outcome == Run(plan.handlers).1
              && journal.calls == old(journal.calls) + CallsOf(chatId, Run(plan.handlers).0))
    {
      lastActive := now;
      ghost var start := registry.contexts;
      ghost var scan := ScanEntities(chatType, me, handlers.commands, msg.text, msg.entities);
      var list, o := ProcessEntities(msg);
      if o != Done {
        DeleteTimesSettles(start, chatId, scan.stops, PlanOf(handlers, chatType, me, botId, msg).removals);
        return o;
      }
      ghost var joined := if msg.newChatMember.Some? then Present(handlers.newChatMember) else [];
      ghost var left := if msg.leftChatMember.Some? && !BotLeft(msg, botId) then Present(handlers.leftChatMember) else [];
      // the member who joined
      if msg.newChatMember.Some? && handlers.newChatMember.Some? {
        list := list + [handlers.newChatMember.value];
      }
      assert list == scan.handlers + joined;
      // the member who left
      if msg.leftChatMember.Some? {
        if msg.leftChatMember.value.id == botId {
          DeleteTimesStep(start, chatId, scan.stops);
          o := registry.Delete(chatId);
          if o != Done {
            return o;
          }
        } else if handlers.leftChatMember.Some? {
          list := list + [handlers.leftChatMember.value];
        }
      }
      assert list == scan.handlers + joined + left;
      var hs := Wrap(list) + [handlers.message];
      outcome := CallAll(hs);
    }

    /** `handle_callback_query(update)`: refreshes `last_active` and calls the
        callback-query handler when one is bound. */
    method HandleCallbackQuery(now: int)
      modifies this`lastActive, journal
      ensures lastActive == now
      ensures journal.calls == old(journal.calls) + CallsOf(chatId, Present(handlers.callbackQuery))
    {
      lastActive := now;
      if handlers.callbackQuery.Some? {
        journal.Record(chatId, handlers.callbackQuery.value);
      }
    }

    /** `on_wake()`: refreshes `last_active` and calls the wake handler when one is bound. */
    method OnWake(now: int)
      modifies this`lastActive, journal
      ensures lastActive == now
      ensures journal.calls == old(journal.calls) + CallsOf(chatId, Present(handlers.wake))
    {
      lastActive := now;
      if handlers.wake.Some? {
        journal.Record(chatId, handlers.wake.value);
      }
    }

    /** `on_idle()`: True when no idle handler is bound, otherwise what the
        handler answers (`answer`). */
    method OnIdle(answer: bool) returns (active: bool)
      modifies journal
      ensures active == OnIdleResult(handlers, answer)
      ensures journal.calls == old(journal.calls) + CallsOf(chatId, Present(handlers.idle))
    {
      active := true;
      if handlers.idle.Some? {
        journal.Record(chatId, handlers.idle.value);
        active := answer;
      }
    }

    /** `on_stop()`: True when no stop handler is bound, otherwise what the
        handler answers (`answer`). */
    method OnStop(answer: bool) returns (result: bool)
      modifies journal
      ensures result == (handlers.stop.None? || answer)
      ensures handlers.stop.None? ==> result
      ensures journal.calls == old(journal.calls) + CallsOf(chatId, Present(handlers.stop))
    {
      result := true;
      if handlers.stop.Some? {
        journal.Record(chatId, handlers.stop.value);
        result := answer;
      }
    }

    /** `on_event(evt, data)`: for a known event, refreshes `last_active` and
        calls its handlers in order; an unknown event changes nothing. */
    method OnEvent(evt: string, now: int)
      modifies this`lastActive, journal
      ensures evt in handlers.events ==> lastActive == now
      ensures evt !in handlers.events ==> lastActive == old(lastActive)
      ensures journal.calls == old(journal.calls)
              + CallsOf(chatId, if evt in handlers.events then handlers.events[evt] else [])
    {
      if evt in handlers.events {
        lastActive := now;
        var hs := handlers.events[evt];
        var i := 0;
        while i < |hs|
          invariant 0 <= i <= |hs| && lastActive == now
          invariant journal.calls == old(journal.calls) + CallsOf(chatId, hs[..i])
        {
          journal.Record(chatId, hs[i]);
          assert hs[..i + 1] == hs[..i] + [hs[i]];
          i := i + 1;
        }
        assert hs[..i] == hs;
      }
    }
  }

  /** What `on_idle` answers: True unless a bound idle handler answers falsy. */
  function OnIdleResult(h: ContextHandlers, answer: bool): (r: bool)
    ensures h.idle.None? ==> r
    ensures h.idle.Some? ==> r == answer
  {
    if h.idle.Some? then answer else true
  }

  // ----- Class registry and factory -----

  /** A handler class: its chat types (None when it carries no chat type
      tag) and the nine handler slots its instances provide. */
  datatype HandlerClass = HandlerClass(name: string, chatTypes: Option<set<TagValue>>, handlers: ContextHandlers)

  /** `chat_type in CHAT_TYPE`: a tag value that is one of the six kinds. */
  predicate IsKindValue(v: TagValue) {
    v.Kind? && IsChatType(v.kind)
  }

  class ContextClassRegistry {
    var chatTypeReg: map<TagValue, HandlerClass>

    constructor ()
      ensures chatTypeReg == map[]
    {
      chatTypeReg := map[];
    }

    /** `register_class(class_)`, its chat types enumerated in `order`. */
    method RegisterClass(cls: HandlerClass, order: seq<TagValue>) returns (outcome: Outcome)
      requires cls.chatTypes.Some? ==> Distinct(order) && forall v :: v in order <==> v in cls.chatTypes.value
      modifies this
      ensures cls.chatTypes.None? ==> outcome == Raised(AssertionError) && chatTypeReg == old(chatTypeReg)
      ensures cls.chatTypes.Some? ==> (chatTypeReg, outcome) == RegisterAll(old(chatTypeReg), cls, order, IsKindValue)
    {
      if cls.chatTypes.None? {
        return Raised(AssertionError);
      }
      var i := 0;
      while i < |order|
        invariant 0 <= i <= |order|
        invariant RegisterAll(old(chatTypeReg), cls, order[..i], IsKindValue) == (chatTypeReg, Done)
      {
        var v := order[i];
        assert order[..i + 1][..i] == order[..i];
        if !(v.Kind? && IsChatType(v.kind)) {
          RegisterFailureSticks(old(chatTypeReg), cls, order, IsKindValue, i + 1);
          return Raised(AssertionError);
        }
        if v in chatTypeReg {
          RegisterFailureSticks(old(chatTypeReg), cls, order, IsKindValue, i + 1);
          return Raised(AssertionError);
        }
        chatTypeReg := chatTypeReg[v := cls];
        i := i + 1;
      }
      assert order[..i] == order;
      outcome := Done;
    }

    /** `class_for_type(chat_type)` */
    function ClassForType(chatType: int): Result<Option<HandlerClass>>
      reads this
    {
      LookupClass(chatTypeReg, chatType)
    }
  }

  /** `class_for_type` on a registry: the assertion that the kind is valid,
      then `get`. */
  function LookupClass(reg: map<TagValue, HandlerClass>, chatType: int): (r: Result<Option<HandlerClass>>)
    ensures r.Err? <==> !IsChatType(chatType)
    ensures r.Ok? ==> (r.value.Some? <==> Kind(chatType) in reg)
    ensures r.Ok? && r.value.Some? ==> r.value.value == reg[Kind(chatType)]
  {
    if !IsChatType(chatType) then Err(AssertionError)
    else if Kind(chatType) in reg then Ok(Some(reg[Kind(chatType)]))
    else Ok(None)
  }

  /** The class choice of `ContextFactory.new_chat_context`: the class for the
      chat's own kind, else the class for ANY. */
  function ResolveClass(reg: map<TagValue, HandlerClass>, chatType: int): Result<Option<HandlerClass>> {
    if !IsChatType(chatType) then Err(AssertionError) else Ok(Fallback(reg, chatType))
  }

  /** The factory prefers the specific class, falls back to ANY, and gives
      None when neither is registered; an invalid kind fails its assertion. */
  lemma ResolvePrefersSpecific(reg: map<TagValue, HandlerClass>, chatType: int)
    ensures !IsChatType(chatType) ==> ResolveClass(reg, chatType) == Err(AssertionError)
    ensures IsChatType(chatType) && Kind(chatType) in reg ==> ResolveClass(reg, chatType) == Ok(Some(reg[Kind(chatType)]))
    ensures IsChatType(chatType) && Kind(chatType) !in reg && Kind(ANY) in reg
            ==> ResolveClass(reg, chatType) == Ok(Some(reg[Kind(ANY)]))
    ensures IsChatType(chatType) && Kind(chatType) !in reg && Kind(ANY) !in reg
            ==> ResolveClass(reg, chatType) == Ok(None)
  {
    ChatTypeIsRangeSix();
  }

  /** Line 59 as written: `handlers.extend(handler)` on the single bound
      left-member handler, which is not iterable, so a message about a
      departing member other than the bot raises TypeError there. */
  function LeftMemberAsWritten(h: ContextHandlers, botId: int, msg: Message): (r: Result<seq<HandlerId>>)
    ensures r.Err? <==> msg.leftChatMember.Some? && !BotLeft(msg, botId) && h.leftChatMember.Some?
  {
    if msg.leftChatMember.Some? && !BotLeft(msg, botId) && h.leftChatMember.Some? then Err(TypeError)
    else Ok([])
  }

  /** Whenever a left-member handler is bound and someone other than the bot
      leaves, the code as written raises before any handler runs, where the
      intended plan runs that handler just before the message handler. */
  lemma LeftMemberHandlerNeverRunsAsWritten(h: ContextHandlers, chatType: int, me: BotIdentity, botId: int, msg: Message)
    requires msg.leftChatMember.Some? && msg.leftChatMember.value.id != botId && h.leftChatMember.Some?
    ensures LeftMemberAsWritten(h, botId, msg) == Err(TypeError)
    ensures var plan := PlanOf(h, chatType, me, botId, msg);
      |plan.handlers| >= 2 && plan.handlers[|plan.handlers| - 2] == h.leftChatMember
  {
  }

  // ----- Registry of live contexts -----

  /** `(now - last_active).seconds` as written: a timedelta's seconds field,
      which leaves out whole days. */
  function ElapsedSecondsField(now: int, last: int): (r: int)
    ensures 0 <= r < 86400
  {
    (now - last) % 86400
  }

  /** The time a context has been inactive, in seconds. */
  function Elapsed(now: int, last: int): (r: int)
    ensures r > 0 <==> now > last
  {
    now - last
  }

  /** As written, a context idle for a whole day and ten seconds reads as idle
      for ten seconds, and a context idle past the timeout stops being idle
      as time goes on. */
  lemma SecondsFieldForgetsDays()
    ensures ElapsedSecondsField(1801, 0) > 1800
    ensures !(ElapsedSecondsField(86410, 0) > 1800)
  {
  }

  /** With the full elapsed time, a context past the timeout stays past it. */
  lemma ElapsedPastTimeoutStays(last: int, now: int, later: int, timeout: int)
    requires now <= later && Elapsed(now, last) > timeout
    ensures Elapsed(later, last) > timeout
    ensures Elapsed(later, last) - Elapsed(now, last) == later - now
  {
  }

  /** What `idle` reads of a stored context: its chat id, when it was last
      active and its handlers; None for a stored None. */
  datatype Snapshot = Snapshot(chatId: int, lastActive: int, handlers: ContextHandlers)

  function SnapshotOf(c: ChatContext?): (r: Option<Snapshot>)
    reads c
    ensures r.None? <==> c == null
  {
    if c == null then None else Some(Snapshot(c.chatId, c.lastActive, c.handlers))
  }

  function SnapshotsOf(vals: seq<ChatContext?>): (r: seq<Option<Snapshot>>)
    reads vals
    ensures |r| == |vals| && forall i :: 0 <= i < |vals| ==> r[i] == SnapshotOf(vals[i])
  {
    seq(|vals|, i reads vals requires 0 <= i < |vals| => SnapshotOf(vals[i]))
  }

  /** The position of the first stored None, where `idle` raises. */
  function FirstNull(snaps: seq<Option<Snapshot>>): (n: nat)
    ensures n <= |snaps|
    ensures forall i :: 0 <= i < n ==> snaps[i].Some?
    ensures n < |snaps| ==> snaps[n].None?
  {
    if snaps == [] then 0
    else if snaps[0].None? then 0
    else 1 + FirstNull(snaps[1..])
  }

  lemma FirstNullBeyond(snaps: seq<Option<Snapshot>>, i: nat)
    requires i <= FirstNull(snaps) && i < |snaps| && snaps[i].Some?
    ensures i + 1 <= FirstNull(snaps)
  {
  }

  /** Whether `idle` returns a context: inactive for longer than the timeout,
      and `on_idle` answers falsy. */
  predicate Sweeps(c: Snapshot, now: int, timeout: int, answer: int -> bool) {
    Elapsed(now, c.lastActive) > timeout && !OnIdleResult(c.handlers, answer(c.chatId))
  }

  /** The idle handlers `idle` calls on its way through the first `n` stored
      values. */
  function IdleCalls(snaps: seq<Option<Snapshot>>, n: nat, now: int, timeout: int): seq<Call>
    requires n <= |snaps|
  {
    if n == 0 then []
    else
      var c := snaps[n - 1];
      IdleCalls(snaps, n - 1, now, timeout)
        + (if c.Some? && Elapsed(now, c.value.lastActive) > timeout
           then CallsOf(c.value.chatId, Present(c.value.handlers.idle)) else [])
  }

  /** The positions, among the first `n` stored values, of the contexts
      `idle` returns, in registry order. */
  function IdleIndices(snaps: seq<Option<Snapshot>>, n: nat, now: int, timeout: int, answer: int -> bool): seq<nat>
    requires n <= |snaps|
  {
    if n == 0 then []
    else
      var c := snaps[n - 1];
      IdleIndices(snaps, n - 1, now, timeout, answer)
        + (if c.Some? && Sweeps(c.value, now, timeout, answer) then [n - 1] else [])
  }

  /** One more stored context extends the calls and the selection by its own. */
  lemma IdleUnfold(snaps: seq<Option<Snapshot>>, i: nat, now: int, timeout: int, answer: int -> bool)
    requires i < |snaps| && snaps[i].Some?
    ensures var c := snaps[i].value;
      && IdleCalls(snaps, i + 1, now, timeout) == IdleCalls(snaps, i, now, timeout)
           + (if Elapsed(now, c.lastActive) > timeout then CallsOf(c.chatId, Present(c.handlers.idle)) else [])
      && IdleIndices(snaps, i + 1, now, timeout, answer) == IdleIndices(snaps, i, now, timeout, answer)
           + (if Sweeps(c, now, timeout, answer) then [i] else [])
  {
  }

  /** `list` holds the stored values at the positions `idx`, all below `i`. */
  ghost predicate Picked(vals: seq<ChatContext?>, idx: seq<nat>, list: seq<ChatContext>, i: nat) {
    |list| == |idx| && forall j :: 0 <= j < |idx| ==> idx[j] < i && idx[j] < |vals| && list[j] == vals[idx[j]]
  }

  lemma PickedStep(vals: seq<ChatContext?>, idx: seq<nat>, list: seq<ChatContext>, i: nat, pick: bool)
    requires i < |vals| && vals[i] != null && Picked(vals, idx, list, i)
    ensures Picked(vals, idx + (if pick then [i] else []), list + (if pick then [vals[i]] else []), i + 1)
  {
  }

  /** `idle` returns exactly the contexts inactive for longer than the timeout
      whose bound idle handler answers falsy, each once and in registry
      order; a context with no idle handler is never returned. */
  lemma {:induction false} IdleSelectsExactly(snaps: seq<Option<Snapshot>>, n: nat, now: int, timeout: int, answer: int -> bool)
    requires n <= |snaps|
    ensures var idx := IdleIndices(snaps, n, now, timeout, answer);
      && (forall i :: i in idx <==>
            0 <= i < n && snaps[i].Some? && Elapsed(now, snaps[i].value.lastActive) > timeout
            && snaps[i].value.handlers.idle.Some? && !answer(snaps[i].value.chatId))
      && (forall j, k :: 0 <= j < k < |idx| ==> idx[j] < idx[k])
  {
    if n > 0 {
      IdleSelectsExactly(snaps, n - 1, now, timeout, answer);
      var before := IdleIndices(snaps, n - 1, now, timeout, answer);
      var last := if snaps[n - 1].Some? && Sweeps(snaps[n - 1].value, now, timeout, answer) then [n - 1] else [];
      assert IdleIndices(snaps, n, now, timeout, answer) == before + last;
      forall j | 0 <= j < |before|
        ensures before[j] < n - 1
      {
        assert before[j] in before;
      }
    }
  }

  /** Only contexts that are inactive for longer than the timeout have their
      idle handler called, and the calls come in registry order. */
  lemma {:induction false} IdleCallsOnlyInactive(snaps: seq<Option<Snapshot>>, n: nat, now: int, timeout: int)
    requires n <= |snaps|
    ensures forall call :: call in IdleCalls(snaps, n, now, timeout) ==>
      exists i :: 0 <= i < n && snaps[i].Some? && snaps[i].value.chatId == call.chatId
        && Elapsed(now, snaps[i].value.lastActive) > timeout && snaps[i].value.handlers.idle == Some(call.handler)
  {
    if n > 0 {
      IdleCallsOnlyInactive(snaps, n - 1, now, timeout);
    }
  }

  /** The registry of live contexts, by chat id; a stored None stands for a
      chat whose kind has no handler class. */
  class ContextRegistry {
    var contexts: Dict<int, ChatContext?>
    const idleTimeout: int
    const journal: Journal

    /** Every stored context is filed under its own chat id and shares this
        registry and its journal. */
    ghost predicate Valid()
      reads this
    {
      forall k :: k in contexts.items && contexts.items[k] != null ==>
        contexts.items[k].chatId == k && contexts.items[k].registry == this && contexts.items[k].journal == journal
    }

    constructor (idleTimeout: int, journal: Journal)
      ensures contexts == Empty() && this.idleTimeout == idleTimeout && this.journal == journal
      ensures Valid()
    {
      contexts := Empty();
      this.idleTimeout := idleTimeout;
      this.journal := journal;
    }

    /** `registry[key]`: the stored context, or None (null) when the key is absent. */
    function Get(key: int): (r: ChatContext?)
      reads this
      ensures key !in contexts.items ==> r == null
      ensures key in contexts.items ==> r == contexts.items[key]
    {
      if key in contexts.items then contexts.items[key] else null
    }

    /** `registry[key] = value` */
    method Set(key: int, value: ChatContext?)
      requires Valid()
      requires value != null ==> value.chatId == key && value.registry == this && value.journal == journal
      modifies this
      ensures contexts == Put(old(contexts), key, value)
      ensures Valid()
    {
      contexts := Put(contexts, key, value);
    }

    /** `del registry[key]` */
    method Delete(key: int) returns (outcome: Outcome)
      modifies this
      ensures (contexts, outcome) == DeleteTimes(old(contexts), key, 1)
      ensures old(Valid()) ==> Valid()
    {
      if key !in contexts.items {
        return Raised(KeyError);
      }
      contexts := Remove(contexts, key);
      outcome := Done;
    }

    /** `all()` */
    function All(): (r: seq<ChatContext?>)
      reads this
      ensures |r| == |contexts.order|
      ensures forall i :: 0 <= i < |r| ==> contexts.order[i] in contexts.items && r[i] == contexts.items[contexts.order[i]]
    {
      Values(contexts)
    }

    /** The body of the loop of `idle()` for one stored context: its idle
        handler is consulted once the timeout has passed. */
    method Sweep(ctx: ChatContext, ghost c: Snapshot, now: int, answer: int -> bool, idleList: seq<ChatContext>)
      returns (result: seq<ChatContext>)
      requires ctx.journal == journal && c == Snapshot(ctx.chatId, ctx.lastActive, ctx.handlers)
      modifies journal
      ensures result == idleList + (if Sweeps(c, now, idleTimeout, answer) then [ctx] else [])
      ensures journal.calls == old(journal.calls)
        + (if Elapsed(now, c.lastActive) > idleTimeout then CallsOf(c.chatId, Present(c.handlers.idle)) else [])
    {
      result := idleList;
      if Elapsed(now, ctx.lastActive) > idleTimeout {
        var active := ctx.OnIdle(answer(ctx.chatId));
        if !active {
          result := idleList + [ctx];
        }
      }
    }

    /** `idle()` at time `now`, where `answer(chat_id)` is what that chat's idle
        handler returns. A stored None raises AttributeError when it is reached. */
    method Idle(now: int, answer: int -> bool) returns (r: Result<seq<ChatContext>>)
      requires Valid()
      modifies journal
      ensures var vals := Values(contexts);
        var snaps := old(SnapshotsOf(vals));
        var n := FirstNull(snaps);
        && (r.Ok? <==> n == |vals|)
        && (r.Err? ==> r.error == AttributeError && journal.calls == old(journal.calls) + IdleCalls(snaps, n, now, idleTimeout))
        && (r.Ok? ==>
              var idx := IdleIndices(snaps, |snaps|, now, idleTimeout, answer);
              && |r.value| == |idx|
              && (forall j :: 0 <= j < |idx| ==> idx[j] < |vals| && r.value[j] == vals[idx[j]])
              && journal.calls == old(journal.calls) + IdleCalls(snaps, |snaps|, now, idleTimeout))
    {
      var vals := Values(contexts);
      forall k | 0 <= k < |vals| && vals[k] != null
        ensures vals[k].journal == journal
      {
        var key := contexts.order[k];
        assert key in contexts.items && vals[k] == contexts.items[key];
      }
      r := SweepAll(vals, SnapshotsOf(vals), now, answer);
    }

    /** The loop of `idle()` over the stored values `vals`. */
    method SweepAll(vals: seq<ChatContext?>, ghost snaps: seq<Option<Snapshot>>, now: int, answer: int -> bool)
      returns (r: Result<seq<ChatContext>>)
      requires forall k :: 0 <= k < |vals| && vals[k] != null ==> vals[k].journal == journal
      requires snaps == SnapshotsOf(vals)
      modifies journal
      ensures var n := FirstNull(snaps);
        && (r.Ok? <==> n == |vals|)
        && (r.Err? ==> r.error == AttributeError && journal.calls == old(journal.calls) + IdleCalls(snaps, n, now, idleTimeout))
        && (r.Ok? ==>
              var idx := IdleIndices(snaps, |snaps|, now, idleTimeout, answer);
              && |r.value| == |idx|
              && (forall j :: 0 <= j < |idx| ==> idx[j] < |vals| && r.value[j] == vals[idx[j]])
              && journal.calls == old(journal.calls) + IdleCalls(snaps, |snaps|, now, idleTimeout))
    {
      ghost var start := journal.calls;
      var idleList: seq<ChatContext> := [];
      ghost var idx: seq<nat> := [];
      var i: nat := 0;
      while i < |vals|
        invariant i <= |vals| && i <= FirstNull(snaps)
        invariant idx == IdleIndices(snaps, i, now, idleTimeout, answer)
        invariant Picked(vals, idx, idleList, i)
        invariant journal.calls == start + IdleCalls(snaps, i, now, idleTimeout)
      {
        var ctx := vals[i];
        if ctx == null {
          assert snaps[i].None? && FirstNull(snaps) == i;
          return Err(AttributeError);
        }
        FirstNullBeyond(snaps, i);
        ghost var c := snaps[i].value;
        assert c == Snapshot(ctx.chatId, old(ctx.lastActive), ctx.handlers);
        ghost var calls := if Elapsed(now, c.lastActive) > idleTimeout then CallsOf(c.chatId, Present(c.handlers.idle)) else [];
        ghost var picked := if Sweeps(c, now, idleTimeout, answer) then [i] else [];
        IdleUnfold(snaps, i, now, idleTimeout, answer);
        AppendAssoc(start, IdleCalls(snaps, i, now, idleTimeout), calls);
        PickedStep(vals, idx, idleList, i, Sweeps(c, now, idleTimeout, answer));
        idleList := Sweep(ctx, c, now, answer, idleList);
        idx := idx + picked;
        i := i + 1;
        assert journal.calls == start + IdleCalls(snaps, i, now, idleTimeout);
        assert idx == IdleIndices(snaps, i, now, idleTimeout, answer);
      }
      r := Ok(idleList);
    }
  }

  /** The context manager of context.py: a class registry, a context registry
      and the factory between them. */
  class ChatContextManager {
    const classRegistry: ContextClassRegistry
    const registry: ContextRegistry

    constructor (idleTimeout: int, journal: Journal)
      ensures fresh(classRegistry) && fresh(registry)
      ensures classRegistry.chatTypeReg == map[]
      ensures registry.contexts == Empty() && registry.idleTimeout == idleTimeout && registry.journal == journal
      ensures registry.Valid()
    {
      classRegistry := new ContextClassRegistry();
      registry := new ContextRegistry(idleTimeout, journal);
    }

    /** `manager[key]`: the stored context, None (null) when absent. */
    function Get(key: int): (r: ChatContext?)
      reads registry
      ensures key !in registry.contexts.items ==> r == null
      ensures key in registry.contexts.items ==> r == registry.contexts.items[key]
    {
      registry.Get(key)
    }

    /** `register_class(cls_)`, delegated to the class registry. */
    method RegisterClass(cls: HandlerClass, order: seq<TagValue>) returns (outcome: Outcome)
      requires cls.chatTypes.Some? ==> Distinct(order) && forall v :: v in order <==> v in cls.chatTypes.value
      modifies classRegistry
      ensures cls.chatTypes.None? ==> outcome == Raised(AssertionError) && classRegistry.chatTypeReg == old(classRegistry.chatTypeReg)
      ensures cls.chatTypes.Some? ==>
        (classRegistry.chatTypeReg, outcome) == RegisterAll(old(classRegistry.chatTypeReg), cls, order, IsKindValue)
    {
      outcome := classRegistry.RegisterClass(cls, order);
    }

    /** `idle()`, delegated to the context registry. */
    method Idle(now: int, answer: int -> bool) returns (r: Result<seq<ChatContext>>)
      requires registry.Valid()
      modifies registry.journal
      ensures var vals := Values(registry.contexts);
        var snaps := old(SnapshotsOf(vals));
        var n := FirstNull(snaps);
        && (r.Ok? <==> n == |vals|)
        && (r.Err? ==> r.error == AttributeError
                       && registry.journal.calls == old(registry.journal.calls) + IdleCalls(snaps, n, now, registry.idleTimeout))
        && (r.Ok? ==>
              var idx := IdleIndices(snaps, |snaps|, now, registry.idleTimeout, answer);
              && |r.value| == |idx|
              && (forall j :: 0 <= j < |idx| ==> idx[j] < |vals| && r.value[j] == vals[idx[j]])
              && registry.journal.calls == old(registry.journal.calls) + IdleCalls(snaps, |snaps|, now, registry.idleTimeout))
    {
      r := registry.Idle(now, answer);
    }

    /** `all()`: the stored values in insertion order. */
    function All(): (r: seq<ChatContext?>)
      reads registry
      ensures |r| == |registry.contexts.order|
      ensures forall i :: 0 <= i < |r| ==>
        registry.contexts.order[i] in registry.contexts.items && r[i] == registry.contexts.items[registry.contexts.order[i]]
    {
      registry.All()
    }

    /** `new_chat_context(dispatcher, chat_id, chat_type, user_or_group)`: builds
        a context from the resolved class, or None when no class resolves, and
        stores the result under `chat_id` either way. */
    method NewChatContext(chatId: int, chatType: int, userOrGroup: Option<string>, me: BotIdentity, botId: int, now: int)
      returns (r: Result<ChatContext?>)
      requires registry.Valid()
      modifies registry
      ensures registry.Valid()
      ensures ResolveClass(classRegistry.chatTypeReg, chatType).Err? ==>
        r == Err(AssertionError) && registry.contexts == old(registry.contexts)
      ensures ResolveClass(classRegistry.chatTypeReg, chatType) == Ok(None) ==>
        r == Ok(null) && registry.contexts == Put(old(registry.contexts), chatId, null)
      ensures ResolveClass(classRegistry.chatTypeReg, chatType).Ok? && ResolveClass(classRegistry.chatTypeReg, chatType).value.Some? ==>
        && r.Ok? && r.value != null && fresh(r.value)
        && registry.contexts == Put(old(registry.contexts), chatId, r.value)
        && r.value.chatId == chatId && r.value.chatType == chatType && r.value.userOrGroup == userOrGroup
        && r.value.handlers == ResolveClass(classRegistry.chatTypeReg, chatType).value.value.handlers
        && r.value.lastActive == now && r.value.registry == registry
    {
      var resolved := ResolveClass(classRegistry.chatTypeReg, chatType);
      if resolved.Err? {
        return Err(resolved.error);
      }
      var ctx: ChatContext? := null;
      if resolved.value.Some? {
        ctx := new ChatContext(chatId, chatType, userOrGroup, me, botId, resolved.value.value.handlers, registry, registry.journal, now);
      }
      registry.Set(chatId, ctx);
      r := Ok(ctx);
    }

    /** `remove_chat_context(ctx)` */
    method RemoveChatContext(ctx: ChatContext) returns (outcome: Outcome)
      modifies registry
      ensures (registry.contexts, outcome) == DeleteTimes(old(registry.contexts), ctx.chatId, 1)
      ensures old(registry.Valid()) ==> registry.Valid()
    {
      outcome := registry.Delete(ctx.chatId);
    }
  }
}
