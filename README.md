# chatstate: conversation dispatch, modelled in Dafny

chatstate is a Python library for Telegram bots. Every chat gets its own
stateful handler object. Application classes mark their methods with
decorators that say which chat kinds they serve and what they handle:

- plain messages;
- named commands (`/cmd`, optionally addressed as `/cmd@botname`);
- callback queries;
- named events;
- members joining or leaving;
- activation and deactivation (or, in the context revision, wake, idle
  and stop).

A dispatcher receives each update. It works out the chat's id and kind,
then finds the live per-chat object or builds one from the class
registered for that kind, falling back to the class registered for ANY.
It then queues the right handler call on a worker pool. Idle per-chat
objects are swept away after a timeout.

The repository holds three generations of this machinery, and each is
modelled separately:

- `chatstate/chatstate.py`: the first `ChatState`/`ChatStateDispatcher`,
  with no command addressing;
- `chatstate/state.py`: the same classes with `/cmd@botname` addressing,
  GetMe and an execution wrapper;
- `chatstate/context.py` and `chatstate/dispatcher.py`: the newer
  `ChatContext`, its registries and manager, and the
  `ChatContextDispatcher` with its chain of update processors.

Around them sit the following:

- the chat-kind constants of `chatstate/__init__.py` (module `ChatTypes`);
- the tagging decorators of `chatstate/decorator.py` (module `Decorator`);
- the inspection functions of `chatstate/reflection.py` (module
  `Reflection`), whose `extract_handlers` keeps lists;
- `chatstate/decorators.py` (module `Decorators`): a copy of the
  decorators and inspection functions whose `extract_handlers` keeps
  single, exclusive handlers.

Module layout:

- **One module per source file**: `ChatTypes`, `Decorator`, `Reflection`,
  `Decorators`, `Context`, `Dispatcher`, `State` and `Chatstate`.
- **Shared modules**: `Registry` and `Sessions` hold the logic the
  revisions share: `register_class`, the class fallback, the event lookup
  and the idle sweep of `_clean_idle_states`.
- **Support modules**:
  - `Dicts` models a Python dict as an insertion-ordered value, with
    `get`, assignment and `del` (and its KeyError).
  - `Telegram` holds the Bot API records and a `Bot` class that logs its
    outbound calls.
  - `Effects` holds the worker pool (a task log) and a journal of handler
    invocations.
  - `Base` holds Option, Result and the Python exceptions as values.

Objects the source updates in place are classes with `modifies` frames:

- `ChatState` and `ChatStateDispatcher` (both revisions);
- `ChatContext`, `ContextClassRegistry`, `ContextRegistry` and
  `ChatContextManager`;
- `ChatContextDispatcher`;
- the decorated `Function`.

The loops of the source are methods with invariants, each proved against
a specification function. The properties of those functions are lemmas.

The model's simplifications:

- A handler is identified by its method name.
- A handler's own code is a recorded call in the journal.
- What a handler returns is a parameter: `answer` for `on_idle`, and
  `reply` for a callback query.
- The current time is a parameter (`now`).
- Python's enumeration order of a set is a parameter (`order`), as are
  the attributes `dir()` lists.

Where the code does not do what it evidently means to do, the model keeps
the code as written in one member and the intended behaviour in another,
as listed under "## Findings".

Where the code and the library's own description of itself disagree,
this model follows the code:

- `ChatContext.on_idle` returns True when no idle handler is bound, so
  such a context is never evicted.
- The inline-query lookup picks the first registered key that *starts
  with* the lowercased query, not a key that the query starts with.
- `chatstate.py` looks commands up under their whole text, so
  `/cmd@botname` matches nothing.
- `state.py` and `chatstate.py` pre-fill the class registry of every kind
  with empty lists. These read as absent to `get`, so registering over
  them is allowed.

## Model

| member | source | states |
|---|---|---|
| ChatTypes.Field | chatstate/__init__.py:8-12 | `getattr` on a namedtuple is None exactly when the field is absent, and otherwise the value at the field's first position |
| ChatTypes.ChatTypeIsRangeSix | chatstate/__init__.py:6-9 | the kinds are the integers 0 to 5, in the order of CHAT_TYPE's fields, and `k in CHAT_TYPE` holds exactly for them |
| ChatTypes.NameTable | chatstate/__init__.py:11-12 | CHAT_TYPE_NAME maps private, group, channel and supergroup to their kinds, and every other chat-type name is an AttributeError |
| ChatTypes.NameNeverWildcard | chatstate/__init__.py:11-12 | no platform name resolves to ANY or NONE; every name that resolves gives a valid kind |
| Decorator.MakeDecorator | chatstate/decorator.py:15-18 | the constructor succeeds exactly when the chat type is an int or a collection; otherwise it raises AssertionError |
| Decorator.MakeCommand | chatstate/decorator.py:73-77 | `command` succeeds exactly when its name is a str or a collection and its chat type passes the check |
| Decorator.MakeEvent | chatstate/decorator.py:84-89 | `event` succeeds exactly when its name is a single str and its chat type passes the check |
| Decorator.Updated | chatstate/decorator.py:23-34 | `_update_tag` adds the tag, unions the argument's values into its set (a scalar once, a collection element-wise) and leaves every other tag alone |
| Decorator.DecoratedTags | chatstate/decorator.py:20-93 | a decorator raises TypeError exactly for new_chat_member and left_chat_member; any other one adds its chat types and its own value, keeps every existing tag set, and changes no other tag |
| Decorator.UpdatedAbsorbs | chatstate/decorator.py:23-34 | adding values a tag set already holds changes nothing |
| Decorator.DecorationIdempotent | chatstate/decorator.py:20-93 | applying the same decorator twice gives the same tags as applying it once |
| Decorator.DecoratedAt | chatstate/decorator.py:20-93 | after a decoration, each tag's set is its old set united with what that decorator contributes under it |
| Decorator.DecorationOrderIrrelevant | chatstate/decorator.py:20-93 | stacking two decorators in either order gives the same tag sets |
| Decorator.DecoratedMethodIsFiled | chatstate/decorator.py:37-93 | a decorated method is listed by `methods`, and for a kind it serves `extract_handlers` files it under the decorator's tag, each command name and the event name |
| Decorator.Function.UpdateTag | chatstate/decorator.py:23-34 | the function object's tags become `Updated(old tags, tag, value)` |
| Decorator.Apply | chatstate/decorator.py:20-93 | calling a decorator on a function object changes its tags exactly as `Decorated` says, and not at all when it raises |
| Reflection.Methods | chatstate/reflection.py:24-27 | `methods(obj)` holds exactly the bound methods that carry a chat type tag |
| Reflection.AnyIsWildcard | chatstate/reflection.py:29-30 | with ANY among its chat types a method suits every kind; without ANY it suits exactly the kinds it lists |
| Reflection.KeysOfHolders | chatstate/reflection.py:45-49 | a command or event name is a key of the table exactly when some suitable method declares it |
| Reflection.GroupedStep | chatstate/reflection.py:45-49 | a name-keyed table grows by one method exactly as `setdefault(k, []).append(m)` grows it |
| Reflection.ExtractSpecIsReference | chatstate/reflection.py:32-83 | the loop fails exactly when two suitable methods claim the callback-query, activate or deactivate slot; otherwise each list holds every suitable holder in order, each name maps to its holders, and each exclusive slot holds its only holder |
| Reflection.ExtractSpecFailureSticks | chatstate/reflection.py:55-70 | once an assertion has failed, later methods cannot undo the failure |
| Reflection.AppendToEach | chatstate/reflection.py:47-49 | the setdefault-append loop gives exactly `AppendUnder`: one append of the method under each name it declares |
| Reflection.ExtractHandlers | chatstate/reflection.py:32-83 | the imperative loop returns exactly the result of `ExtractSpec`, and so, by `ExtractSpecIsReference`, the reference handler table |
| Reflection.UnsuitableContributesNothing | chatstate/reflection.py:44 | a method not suitable for the kind, wherever it stands, does not change the result |
| Decorators.ExclusiveSpecIsReference | chatstate/decorators.py:124-179 | this variant fails exactly when two suitable methods share an exclusive slot or a command name; otherwise each slot holds its single holder, each command its one owner, and each event all its holders in order |
| Decorators.ExclusiveFailureSticks | chatstate/decorators.py:139-170 | once an assertion has failed, later methods cannot undo the failure |
| Decorators.CommandStep | chatstate/decorators.py:141-145 | the command table after one more suitable method: it clashes exactly on a name already owned, and otherwise gains that method under each of its names |
| Decorators.AssignEach | chatstate/decorators.py:141-145 | the command loop fails exactly on a name already present; otherwise it maps every declared name to the method |
| Decorators.ExtractFrom | chatstate/decorators.py:136-170 | one pass of the loop body gives exactly `ExclusiveStep` on the table found so far |
| Decorators.ExtractHandlers | chatstate/decorators.py:124-179 | the imperative loop returns exactly `ExclusiveSpec`, and so the reference table |
| Decorators.VariantsAgree | chatstate/decorators.py:124-179 | where neither variant fails and the exclusive slots are filled, each list of reflection.py (message, new-member and left-member handlers, and each command) is the single handler of this file, the exclusive slots and the event tables agree |
| Registry.RegisterAllIff | chatstate/context.py:155-161 | `register_class` succeeds exactly when every declared kind passes the check and none is registered yet; it then maps each of them to the class, and it never changes an earlier registration |
| Registry.RegisterFailureSticks | chatstate/state.py:198-202 | once an assertion has failed, the rest of the loop changes nothing |
| Registry.FallbackPrefersSpecific | chatstate/state.py:187-189 | the class of the chat's own kind wins, ANY is used only when that kind has none, and neither gives None; registering ANY never changes the result for a kind that has its own class |
| Sessions.EventHandlers | chatstate/state.py:57 | an event with no name raises KeyError; an unknown name gives no handlers; a known name gives its subscribers |
| Sessions.UnknownEventRunsNothing | chatstate/chatstate.py:38-41 | an event nobody subscribed to runs no handler, and only subscribers of the event's own name ever run |
| Sessions.IdleLimit | chatstate/state.py:173 | with a non-negative idle time, the limit never lies after the current time |
| Sessions.ExpiredIdsExactly | chatstate/state.py:174-178 | the deactivation list holds exactly the chat ids of the sessions idle since before the limit, each once when the ids are distinct |
| Sessions.DeactivateCallsExactly | chatstate/state.py:175-178 | a deactivate handler runs only for an expired session, and runs for every expired session that has one |
| Sessions.CleanIdleEvictsExactlyExpired | chatstate/chatstate.py:124-136 | as intended, the sweep raises nothing, removes exactly the expired sessions and keeps every other one unchanged |
| Sessions.CleanIdleAsWritten | chatstate/state.py:179-182 | as written, the sweep always raises: NameError after the first deletion, or AttributeError from the missing scheduler |
| Sessions.CleanIdleAsWrittenKeepsExpired | chatstate/state.py:179-181 | with two expired sessions, the code as written evicts only the first, where the intended sweep evicts both |
| Context.SplitRecipient | chatstate/context.py:92-97 | the split exists exactly when the text holds an '@', splits at the last one, and puts the text back together |
| Context.SplitRecipientUnique | chatstate/context.py:92-97 | the returned split is the only one whose recipient holds no '@' |
| Context.AddressingRule | chatstate/context.py:73-81 | in a private chat every command is for the bot; elsewhere a bare command never is |
| Context.AddressedToMe | chatstate/context.py:73-81 | `/cmd@botname` with the bot's own name is the command `/cmd` and is for the bot in every kind of chat |
| Context.AddressedToOther | chatstate/context.py:73-81 | outside private chats, a command addressed to another bot is not for this one |
| Context.ScanEntity | chatstate/context.py:68-89 | only an addressed bot_command counts; an addressed command that is registered queues exactly its handler and nothing else does; the context is removed exactly for an addressed '/stop' |
| Context.ScanEntitiesBounds | chatstate/context.py:66-90 | entities that are not bot commands produce nothing; every queued handler is registered; removals and handlers never outnumber entities |
| Context.ScanStopsGrow | chatstate/context.py:66-90 | the removals only grow as entities are added |
| Context.StopStillQueued | chatstate/context.py:85-89 | an addressed '/stop' always removes the context once more; it still queues the '/stop' handler when one is registered, and nothing otherwise |
| Context.PlanOf | chatstate/context.py:40-61 | the message handler is always last; when a member other than the bot left, the left-member handler comes right before it, and the new-member handler (when a member also joined) right before that; when a member joined and no left-member handler is queued, the new-member handler comes right before the message handler; the bot leaving removes the context |
| Context.PlanOrder | chatstate/context.py:40-61 | the list by case: the command handlers first, then with nobody joining or leaving only the message handler; with a member joining and nobody leaving the new-member handler and the message handler; with the bot leaving the new-member handler (if one joined) and the message handler, but no left-member handler; with someone else leaving the new-member handler (if one joined), the left-member handler and the message handler; removals are the '/stop's plus one when the bot left |
| Context.Run | chatstate/context.py:63-64 | the handlers called are a prefix of the plan, ending before the first None, which raises TypeError |
| Context.RunFailureSticks | chatstate/context.py:63-64 | a None in a prefix of the plan still stops the call there when more handlers follow |
| Context.ChatContext.constructor | chatstate/context.py:12-35 | a new context holds its chat id, kind, name and the extracted handlers, and was last active at creation |
| Context.ChatContext.ProcessEntity | chatstate/context.py:68-89 | one entity gives exactly `ScanEntity`'s handler, and performs its removal as a `del` on the registry |
| Context.ChatContext.ProcessEntities | chatstate/context.py:66-90 | the queued handlers are `ScanEntities` of the message, and the registry is the result of that many `del`s of this chat (KeyError on the second) |
| Context.ChatContext.CallAll | chatstate/context.py:63-64 | the journal gains exactly `Run`'s calls, and the outcome is TypeError exactly when the plan holds a None |
| Context.ChatContext.HandleMessage | chatstate/context.py:37-64 | as intended (see Findings, context.py:59), with the left-member handler appended: refreshes `last_active`, performs the plan's removals, then runs `Run(PlanOf(...))` unless a removal raised |
| Context.ChatContext.HandleCallbackQuery | chatstate/context.py:99-102 | refreshes `last_active` and records the callback-query handler's call exactly when one is bound |
| Context.ChatContext.OnWake | chatstate/context.py:108-111 | refreshes `last_active` and records the wake handler's call exactly when one is bound |
| Context.ChatContext.OnIdle | chatstate/context.py:113-117 | answers `OnIdleResult`: True without a handler and otherwise the handler's answer; the idle handler's call is recorded when one is bound, and `last_active` is outside its frame |
| Context.ChatContext.OnStop | chatstate/context.py:119-123 | answers True without a handler and otherwise the handler's answer; the stop handler's call is recorded when one is bound |
| Context.ChatContext.OnEvent | chatstate/context.py:125-129 | a known event refreshes `last_active` and records its handlers' calls in order; an unknown event changes nothing |
| Context.OnIdleResult | chatstate/context.py:113-117 | a context without an idle handler is always active |
| Context.ContextClassRegistry.RegisterClass | chatstate/context.py:155-161 | fails unless the class is tagged, and otherwise registers exactly as `RegisterAll` does with the kind check of line 159 |
| Context.LookupClass | chatstate/context.py:163-165 | an invalid kind is an AssertionError; a valid one gives the registered class or None |
| Context.ResolvePrefersSpecific | chatstate/context.py:173-181 | the factory prefers the specific class, falls back to ANY, gives None with neither, and fails on an invalid kind |
| Context.LeftMemberAsWritten | chatstate/context.py:58-59 | as written, a bound left-member handler and a departing member other than the bot raise TypeError |
| Context.LeftMemberHandlerNeverRunsAsWritten | chatstate/context.py:51-64 | as written no handler runs in that case, where the intended plan runs the left-member handler just before the message handler |
| Context.ElapsedSecondsField | chatstate/context.py:204 | the `.seconds` field of the elapsed time is always below one day |
| Context.Elapsed | chatstate/context.py:204 | the elapsed inactive time in whole seconds: positive exactly when time has moved on since the last activity |
| Context.SecondsFieldForgetsDays | chatstate/context.py:204 | with the default timeout of 1800 seconds, a context idle for 1801 seconds counts as idle, but one idle for a day and ten seconds does not |
| Context.ElapsedPastTimeoutStays | chatstate/context.py:204 | with the full elapsed time, a context past the timeout stays past it as time goes on |
| Context.IdleSelectsExactly | chatstate/context.py:200-209 | `idle` returns exactly the contexts past the timeout whose idle handler answers falsy, each once and in registry order; one without an idle handler is never returned |
| Context.IdleCallsOnlyInactive | chatstate/context.py:204-205 | only contexts past the timeout have their idle handler consulted, in registry order |
| Context.ContextRegistry.Get | chatstate/context.py:190-192 | `registry[key]` is the stored context, or None when the key is absent |
| Context.ContextRegistry.Set | chatstate/context.py:194-195 | stores the value under the key; a new key goes last and every other key keeps its value |
| Context.ContextRegistry.Delete | chatstate/context.py:197-198 | `del` removes a present key and raises KeyError on an absent one, leaving the table as it was |
| Context.ContextRegistry.All | chatstate/context.py:211-212 | the stored values in insertion order |
| Context.ContextRegistry.Sweep | chatstate/context.py:204-208 | as intended (see Findings, context.py:204), with the whole elapsed time: one stored context joins the list exactly when it is past the timeout and its idle handler answers falsy |
| Context.ContextRegistry.SweepAll | chatstate/context.py:202-208 | as intended (see Findings, context.py:204), with the whole elapsed time: the loop returns the values at `IdleIndices`, records `IdleCalls`, and raises AttributeError exactly at the first stored None |
| Context.ContextRegistry.Idle | chatstate/context.py:200-209 | as intended (see Findings, context.py:204), with the whole elapsed time: `idle()` returns the stored values at `IdleIndices` in order and records `IdleCalls`; it raises AttributeError exactly at the first stored None |
| Context.ChatContextManager.Get | chatstate/context.py:222-223 | the registry's stored context, or None |
| Context.ChatContextManager.RegisterClass | chatstate/context.py:231-232 | an untagged class fails its assertion and changes nothing; otherwise the class registry becomes `RegisterAll` with the kind check |
| Context.ChatContextManager.Idle | chatstate/context.py:238-239 | as intended (see Findings, context.py:204), with the whole elapsed time: the same selection and calls as `ContextRegistry.Idle` |
| Context.ChatContextManager.All | chatstate/context.py:241-242 | the stored values in insertion order |
| Context.ChatContextManager.NewChatContext | chatstate/context.py:225-229 | builds a context from the resolved class (None when none resolves) and stores the result under the chat id either way |
| Context.ChatContextManager.RemoveChatContext | chatstate/context.py:234-236 | one `del` of the context's chat id |
| Dispatcher.ExtractChatData | chatstate/dispatcher.py:73-78 | AttributeError exactly for an unknown chat-type name; otherwise the id and kind, with a private chat named by its username and any other by its title |
| Dispatcher.ChatDataNames | chatstate/dispatcher.py:73-78 | the naming rule, and agreement with `_extract_chat_data` of state.py read as intended |
| Dispatcher.Visited | chatstate/dispatcher.py:141-150 | the chain runs only responsible processors, in order, never more than it has |
| Dispatcher.VisitedAllResponsible | chatstate/dispatcher.py:145-150 | when no responsible processor stops the chain, every responsible processor runs, in order |
| Dispatcher.VisitedUntilStop | chatstate/dispatcher.py:145-150 | the chain runs the responsible processors before the first one that returns falsy, then that one, and none after it |
| Dispatcher.ChainOrder | chatstate/dispatcher.py:40-132 | with the chain of lines 191-194, a message with a callback query reaches both processors, a callback query shuts out the inline processor, an inline query alone reaches only its own, and an empty update reaches none |
| Dispatcher.ChainEffect | chatstate/dispatcher.py:48-150 | a complete run of the chain by update shape: a message alone is delivered to its chat; a callback query is delivered to the chat of its message, or raises AttributeError and changes nothing when it carries no message, after the update's own message when there is one; a message and an inline query deliver the message, then queue the picked inline handler; an inline query alone queues the picked handler; an empty update changes nothing |
| Dispatcher.MessagelessCallbackRaises | chatstate/dispatcher.py:95-96 | a callback query that carries no message, in an update without a message of its own, raises AttributeError where its chat is read, and leaves the contexts and tasks as they were |
| Dispatcher.ChainRunStep | chatstate/dispatcher.py:145-150 | a run that has not raised, followed by one more processor with its effect, is a run of the longer chain |
| Dispatcher.Lower | chatstate/dispatcher.py:124 | `lower()` maps each character on its own and keeps the length |
| Dispatcher.LowerIdempotent | chatstate/dispatcher.py:124-126 | lowering twice equals lowering once, so the second `lower()` changes nothing |
| Dispatcher.FirstMatch | chatstate/dispatcher.py:125-128 | None exactly when no key starts with the prefix; otherwise the first key that does |
| Dispatcher.RegisterQueriesMaps | chatstate/dispatcher.py:196-200 | every declared query maps to the function and overwrites an older handler; other queries keep theirs; a registered query keeps its place in the lookup order |
| Dispatcher.EventTasks | chatstate/dispatcher.py:228-231 | one `on_event` task per context, in order |
| Dispatcher.StopTasks | chatstate/dispatcher.py:242-245 | one `on_stop` task per context, in order |
| Dispatcher.Live | chatstate/dispatcher.py:230-231 | the stored values before the first None, where reading `ctx.on_event` raises |
| Dispatcher.IdleContextsRemovable | chatstate/dispatcher.py:220-225 | the contexts `idle()` returns have distinct chat ids present in the table, so deleting them one by one never raises and removes exactly them |
| Dispatcher.ChatContextDispatcher.constructor | chatstate/dispatcher.py:172-194 | a new dispatcher has no identity, no inline handlers, a stopped empty pool, an empty manager and the chain message, callback query, inline query |
| Dispatcher.ChatContextDispatcher.RegisterInlineQueryHandler | chatstate/dispatcher.py:196-200 | an untagged function fails its assertion and changes nothing; otherwise the registry becomes `RegisterQueries` of its queries |
| Dispatcher.ChatContextDispatcher.LookupInline | chatstate/dispatcher.py:123-128 | the loop picks exactly `InlineHandler` of the query |
| Dispatcher.ChatContextDispatcher.Deliver | chatstate/dispatcher.py:54-69 | `DeliverEffect`: an unknown chat-type name raises AttributeError and changes nothing; a stored context has the path's handling queued; otherwise the manager stores the context it builds (or None for a kind without a class) and a built context gets exactly that task; every newly stored context is fresh |
| Dispatcher.ChatContextDispatcher.Process | chatstate/dispatcher.py:48-132 | `ProcessEffect`: the message processor delivers to the chat of the update's message and returns True; the callback-query processor delivers to the chat of the query's message, or raises AttributeError and changes nothing when the query carries no message, and returns False; the inline query processor queues the handler its lookup picks, if any, touches no context and returns False |
| Dispatcher.ChatContextDispatcher.ProcessChain | chatstate/dispatcher.py:141-150 | the processors that run are a prefix of `Visited`, and all of it when nothing raises; `ChainRun`: each ran with its `ProcessEffect` from the state the one before it left, only the last may have raised, and the last one's state is the chain's |
| Dispatcher.ChatContextDispatcher.DispatchUpdate | chatstate/dispatcher.py:202-214 | the identity is fetched only while unknown; a falsy `exc` fails the chain's assertion before any processor runs; otherwise the chain runs as `Visited` says, with the effect `ChainRun` composes |
| Dispatcher.ChatContextDispatcher.RemoveEach | chatstate/dispatcher.py:221-225 | the table becomes `DeleteEach` of the contexts' chat ids, and all of them are returned when no deletion raised |
| Dispatcher.ChatContextDispatcher.IdleCheck | chatstate/dispatcher.py:216-226 | as intended (see Findings, context.py:204), with the whole elapsed time: the journal gains the `on_idle` calls `idle()` makes (`IdleCalls`, up to the first stored None when there is one); it removes exactly the contexts `idle()` selects and returns them in registry order; a stored None raises AttributeError and removes nothing |
| Dispatcher.ChatContextDispatcher.BroadcastEvent | chatstate/dispatcher.py:228-231 | queues `EventTasks` of the live contexts, and raises AttributeError exactly when a stored None is reached |
| Dispatcher.ChatContextDispatcher.RemoveChatContext | chatstate/dispatcher.py:233-235 | one `del` of the context's chat id |
| Dispatcher.ChatContextDispatcher.Start | chatstate/dispatcher.py:237-240 | the pool runs and no task is added |
| Dispatcher.ChatContextDispatcher.Stop | chatstate/dispatcher.py:242-247 | queues `StopTasks` of the live contexts and then stops the pool; a stored None raises first and the pool keeps running |
| State.ScanEntity | chatstate/state.py:88-105 | an addressed command queues all handlers registered under its name, and only an addressed '/stop' removes the state |
| State.ScanEntitiesBounds | chatstate/state.py:87-105 | every queued handler is registered under some name; removals never outnumber entities; a message without bot commands does nothing |
| State.ScanStopsGrow | chatstate/state.py:87-105 | the removals only grow as entities are added |
| State.CommandAddressing | chatstate/state.py:91-98 | a bare `/cmd` in a private chat runs `/cmd`'s handlers and in any other chat runs nothing; `/cmd@botname` with the bot's name runs them in every chat |
| State.StopStillQueued | chatstate/state.py:100-105 | an addressed '/stop' removes the state and still queues the '/stop' handlers |
| State.PlanOf | chatstate/state.py:65-85 | the message handlers come first; when a member other than the bot left, the list ends with the left-member handlers; when a member joined and nobody else left, it ends with the new-member handlers; the bot leaving removes the state |
| State.PlanOrder | chatstate/state.py:65-85 | the list by case: message handlers, then command handlers; nothing more with nobody joining or leaving; the new-member handlers when a member joined and nobody left; the new-member handlers (if one joined) and no left-member handlers when the bot left; the new-member handlers (if one joined) and the left-member handlers when someone else left; removals are the '/stop's plus one when the bot left |
| State.PlanAsWritten | chatstate/state.py:87-88 | as written, a message with entities raises NameError before any removal or handler |
| State.CommandsNeverRunAsWritten | chatstate/state.py:67-68 | as written a private `/cmd` never reaches its handlers, where the intended plan runs them after the message handlers |
| State.ExtractChatDataAsWritten | chatstate/state.py:218-222 | as written, `CHAT_TYPE[chat.type]` raises TypeError for every chat |
| State.ExtractChatData | chatstate/state.py:218-222 | as intended: AttributeError exactly for an unknown name; a private chat is named by its username, any other by its title |
| State.ChatDataNames | chatstate/state.py:218-222 | the naming rule holds as intended, while as written even a private chat fails |
| State.RouteOf | chatstate/state.py:224-242 | a live state is reused; without one, a state is created exactly when a class resolves for the kind |
| State.EventTasks | chatstate/state.py:244-247 | one `handle_event` task per live state, in order |
| State.RegisterClassIff | chatstate/state.py:198-202 | `register_class` succeeds exactly when none of the class's kinds has a class yet, and then maps each to it |
| State.ChatState.constructor | chatstate/state.py:16-39 | a new state holds its chat, its kind, its name and the extracted handlers, and was last active at creation |
| State.ChatState.ProcessEntity | chatstate/state.py:88-105 | one entity gives exactly `ScanEntity`'s handlers and performs its removal as a `del` |
| State.ChatState.ProcessEntities | chatstate/state.py:87-105 | the queued handlers are `ScanEntities` of the message, and the table has had that many `del`s of this chat |
| State.ChatState.CallEach | chatstate/state.py:84-85 | records exactly one call per handler, in order |
| State.ChatState.HandleMessage | chatstate/state.py:61-85 | as intended (see Findings, state.py:88), with the entities scanned: refreshes `last_active`, performs the plan's removals, then runs `PlanOf` unless a removal raised |
| State.ChatState.HandleCallbackQuery | chatstate/state.py:115-121 | runs the bound handler at most once and answers the query exactly once, with its reply or None |
| State.ChatState.HandleInlineCallbackQuery | chatstate/state.py:123-125 | only refreshes `last_active` |
| State.ChatState.OnActivate | chatstate/state.py:127-131 | refreshes `last_active` and records the activate handler's call exactly when one is bound |
| State.ChatState.OnDeactivate | chatstate/state.py:133-137 | refreshes `last_active` and records the deactivate handler's call exactly when one is bound |
| State.ChatState.HandleEvent | chatstate/state.py:55-59 | runs `EventHandlers` of the event in order, or raises KeyError for an event without a name |
| State.ChatState.BroadcastEvent | chatstate/state.py:139-141 | queues one `handle_event` task per live state of its dispatcher |
| State.ChatStateDispatcher.constructor | chatstate/state.py:157-168 | a new dispatcher has no states, no identity, no registered class and a stopped empty pool |
| State.ChatStateDispatcher.RegisterClass | chatstate/state.py:198-202 | an untagged class fails its assertion; otherwise the registry becomes `RegisterAll` of its kinds, with no kind check |
| State.ChatStateDispatcher.RemoveChatState | chatstate/state.py:214-215 | one `del` of the state's chat id |
| State.ChatStateDispatcher.MakeChatState | chatstate/state.py:184-196 | with a class resolved and its handlers extracted, a fresh state is stored and one `on_activate` task is queued; otherwise nothing changes |
| State.ChatStateDispatcher.DispatchPath | chatstate/state.py:224-242 | as intended (see Findings, state.py:220), with the chat type looked up by name: `PathEffect`: an unknown chat-type name raises and changes nothing; a live state has its handling queued; a chat whose kind has a class gets a new state (stored under its id, with the extracted handlers), its activation and its handling, or an AssertionError and no change when extraction fails; a kind with no class queues nothing; every new state is fresh |
| State.ChatStateDispatcher.DispatchUpdate | chatstate/state.py:204-212 | the identity is fetched only while unknown; then `PathsEffect`: the message path has its `PathEffect` when the update has a message, an exception there ends the call, and otherwise the callback-query path has its `CallbackPathEffect` on the table and task log the message path left: AttributeError and no change for a query without a message, its `PathEffect` on the query's message otherwise |
| State.ChatStateDispatcher.DispatchPaths | chatstate/state.py:209-212 | `PathsEffect` from the table and task log before the call: message path, then the callback-query path on the intermediate state unless the first raised; a query without a message raises AttributeError there and changes nothing |
| State.SameChatReusesState | chatstate/state.py:204-242 | when an update's message and callback query come from the same new chat with a class, the message path creates the state and the callback-query path reuses it: one activation, then the message and callback-query tasks of that one state |
| State.ChatStateDispatcher.BroadcastEvent | chatstate/state.py:244-247 | queues `EventTasks` of the live states and changes no state |
| State.ChatStateDispatcher.DeactivateExpired | chatstate/state.py:173-178 | collects `ExpiredIds`, records `DeactivateCalls`, and moves `last_active` to now for exactly the expired states |
| State.ChatStateDispatcher.DeactivateOne | chatstate/state.py:176-178 | one state is deactivated and collected exactly when it is expired |
| State.ChatStateDispatcher.DeleteAll | chatstate/state.py:179-180 | the table becomes `DeleteEach` of the collected ids |
| State.ChatStateDispatcher.CleanIdleStates | chatstate/state.py:170-182 | as intended, every expired state is deactivated and removed, and every other state stays |
| State.ChatStateDispatcher.Start | chatstate/state.py:249-251 | the pool runs and no task is added |
| State.ChatStateDispatcher.Stop | chatstate/state.py:253-255 | the pool stops and no task is added |
| Chatstate.ScanEntity | chatstate/chatstate.py:50-55 | a bot_command queues the handlers registered under its whole text, and only the text '/stop' removes the state |
| Chatstate.AddressedCommandUnmatched | chatstate/chatstate.py:51-55 | `/cmd@botname` runs no handler registered under a plain name, and `/stop@botname` does not remove the state |
| Chatstate.PrivateScanAgrees | chatstate/chatstate.py:48-55 | in a private chat, with no '@' in any entity, this revision and state.py queue the same handlers and remove as often |
| Chatstate.GroupBareCommandDiffers | chatstate/chatstate.py:50-55 | in a group, a bare `/cmd` runs its handlers here and none in state.py |
| Chatstate.PlanOf | chatstate/chatstate.py:43-72 | the message handlers come first; when a member other than the bot left, the list ends with the left-member handlers; when a member joined and nobody else left, it ends with the new-member handlers; the bot leaving removes the state |
| Chatstate.PlanOrder | chatstate/chatstate.py:43-72 | the list by case: message handlers, then command handlers; nothing more with nobody joining or leaving; the new-member handlers when a member joined and nobody left; the new-member handlers (if one joined) and no left-member handlers when the bot left; the new-member handlers (if one joined) and the left-member handlers when someone else left |
| Chatstate.ChatTypeDictAgrees | chatstate/chatstate.py:12-13 | the dict knows exactly the names CHAT_TYPE_NAME knows and gives them the same kinds |
| Chatstate.ExtractChatKey | chatstate/chatstate.py:170 | KeyError exactly for a name the dict does not know; otherwise the chat id and its kind |
| Chatstate.RouteOf | chatstate/chatstate.py:169-187 | a live state is reused; without one, a state is created exactly when a class resolves |
| Chatstate.UnhandledWarningAsWritten | chatstate/chatstate.py:187 | as written, the warning raises AttributeError when the update carries no message |
| Chatstate.UnhandledCallbackQueryRaises | chatstate/chatstate.py:179-187 | as written, the warning for a callback query from an unhandled chat raises AttributeError when the update carries no message of its own; the intended half is `Chatstate.ChatStateDispatcher.DispatchPath`, whose `PathEffect` has such a chat queue nothing and raise nothing |
| Chatstate.EventTasks | chatstate/chatstate.py:189-192 | one `handle_event` task per live state, in order |
| Chatstate.ChatState.constructor | chatstate/chatstate.py:18-36 | a new state holds its chat, its kind and the extracted handlers, and was last active at creation |
| Chatstate.ChatState.ScanCommand | chatstate/chatstate.py:51-55 | one entity gives exactly `ScanEntity`'s handlers and performs its removal as a `del` |
| Chatstate.ChatState.ScanCommands | chatstate/chatstate.py:48-55 | the queued handlers are `ScanEntities`, and the table has had that many `del`s of this chat |
| Chatstate.ChatState.CallEach | chatstate/chatstate.py:71-72 | records exactly one call per handler, in order |
| Chatstate.ChatState.HandleMessage | chatstate/chatstate.py:43-72 | refreshes `last_active`, performs the removals, then runs `PlanOf` unless a removal raised |
| Chatstate.ChatState.HandleCallbackQuery | chatstate/chatstate.py:74-79 | runs the bound handler at most once and answers the query exactly once, with its reply or None |
| Chatstate.ChatState.HandleInlineCallbackQuery | chatstate/chatstate.py:81-82 | only refreshes `last_active` |
| Chatstate.ChatState.OnActivate | chatstate/chatstate.py:84-87 | refreshes `last_active` and records the activate handler's call exactly when one is bound |
| Chatstate.ChatState.OnDeactivate | chatstate/chatstate.py:89-92 | refreshes `last_active` and records the deactivate handler's call exactly when one is bound |
| Chatstate.ChatState.HandleEvent | chatstate/chatstate.py:38-41 | runs `EventHandlers` of the event in order, or raises KeyError for an event without a name |
| Chatstate.ChatState.BroadcastEvent | chatstate/chatstate.py:94-95 | queues one `handle_event` task per live state of its dispatcher |
| Chatstate.ChatStateDispatcher.constructor | chatstate/chatstate.py:111-121 | a new dispatcher has no states, no registered class and a stopped empty pool |
| Chatstate.ChatStateDispatcher.RegisterClass | chatstate/chatstate.py:152-156 | an untagged class fails its assertion; otherwise the registry becomes `RegisterAll` of its kinds |
| Chatstate.ChatStateDispatcher.RemoveChatState | chatstate/chatstate.py:166-167 | one `del` of the state's chat id |
| Chatstate.ChatStateDispatcher.MakeChatState | chatstate/chatstate.py:138-150 | with a class resolved and its handlers extracted, a fresh state is stored and one `on_activate` task is queued; otherwise nothing changes |
| Chatstate.ChatStateDispatcher.DispatchPath | chatstate/chatstate.py:169-187 | `PathEffect`: an unknown chat-type name raises KeyError and changes nothing; a live state has its handling queued; a chat whose kind has a class gets a new state, its activation and its handling, or an AssertionError and no change when extraction fails; a kind with no class queues nothing and, with the warning as intended, raises nothing; every new state is fresh |
| Chatstate.ChatStateDispatcher.DispatchUpdate | chatstate/chatstate.py:158-164 | `PathsEffect`: the message path has its `PathEffect` when the update has a message, an exception there ends the call, and otherwise the callback-query path has its `CallbackPathEffect` on the table and task log the message path left: AttributeError and no change for a query without a message (chatstate.py:180), its `PathEffect` on the query's message otherwise |
| Chatstate.ChatStateDispatcher.BroadcastEvent | chatstate/chatstate.py:189-192 | queues `EventTasks` of the live states and changes no state |
| Chatstate.ChatStateDispatcher.DeactivateExpired | chatstate/chatstate.py:127-132 | collects `ExpiredIds`, records `DeactivateCalls`, and moves `last_active` to now for exactly the expired states |
| Chatstate.ChatStateDispatcher.DeactivateOne | chatstate/chatstate.py:130-132 | one state is deactivated and collected exactly when it is expired |
| Chatstate.ChatStateDispatcher.DeleteAll | chatstate/chatstate.py:133-134 | the table becomes `DeleteEach` of the collected ids |
| Chatstate.ChatStateDispatcher.CleanIdleStates | chatstate/chatstate.py:124-136 | as intended, every expired state is deactivated and removed, and every other state stays |
| Chatstate.ChatStateDispatcher.Start | chatstate/chatstate.py:194-196 | the pool runs and no task is added |
| Chatstate.ChatStateDispatcher.Stop | chatstate/chatstate.py:198-200 | the pool stops and no task is added |
| Telegram.Slice | chatstate/context.py:71 | Python slicing with non-negative bounds: within range the plain slice, an upper bound past the end cut to the end, a lower bound at or past the end or an empty range the empty string |
| Dicts.PutEachMaps | chatstate/dispatcher.py:199-200 | assigning every key of a list maps each to the value, leaves other keys alone and keeps the existing keys' order |
| Dicts.DeleteEachPresent | chatstate/state.py:179-180 | deleting distinct present keys never raises and removes exactly them |
| Dicts.DeleteTimesSettles | chatstate/state.py:214-215 | once a run of `del`s of one key has raised, further ones change nothing |

## Left out

- Logging, `print`, the threading locks (`STATES_LOCK`, `LOCK`) and the worker pool's threads. The pool is a log of queued tasks, and each double-checked get-or-create under a lock is one step.
- Wall-clock time. `time.time()` and `datetime.now()` are the parameter `now`, in whole seconds.
- `State.ChatState.constructor`: state.py:24 sets `last_active` to a `datetime`, while every refresh (state.py:63, 117, 125, 129, 135) stores a `time.time()` float. A sweep that meets a state whose `on_activate` has not run yet compares a datetime with a float at state.py:176, which raises TypeError. The model keeps one clock in whole seconds and does not capture this.
- Telegram network calls. `getMe` and `answerCallbackQuery` are recorded calls on `Bot`, and `TelegramError` is never raised. So the `except TelegramError` of dispatcher.py:212-214 has nothing to catch.
- Handler code. A handler run is a journal entry, and its return value is a parameter.
- `ChatState.persist` (state.py:41-53) is not part of this model. It uses an undefined `botsql` and is never called.
- `send_message`, `send_photo`, `send_video` and `broadcast_event` of `ChatContext` (context.py:131-146) are thin forwards to the bot or the dispatcher and are not modelled.
- `handle_inline_callback_query` of `ChatContext` (context.py:104-106) only refreshes `last_active`. It is modelled in both `ChatState` revisions but not in `ChatContext`. No dispatcher routes to `handle_inline_callback_query`. A callback query sent from an inline-mode message carries no message, and all three dispatchers raise AttributeError when they read its chat (dispatcher.py:95-96, state.py:235, chatstate.py:180). The model states this error path for each of them.
- The execution wrappers of state.py and chatstate.py (`with self._execution`, `NullDispatchExecution`, `DispatchExecution`) do nothing and are not modelled. The one of context.py is the fourth mismatch below.
- `BaseChatContextManager.__enter__` returns None. The dispatcher's `with ... as exc` therefore binds None, and `assert exc` in `ProcessorChain.process` fails. Whether `exc` is truthy is the parameter `exc` of `Dispatcher.ChatContextDispatcher.DispatchUpdate`.
- Four mismatches of dispatcher.py with context.py stop the module from importing or constructing. The model takes the evident intent:
  - it imports `ChatContextRegistry`, which context.py does not define;
  - it builds `ChatContextManager(self, ctx_registry=...)`, but the constructor only takes `idle_timeout`;
  - it calls `new_chat_context` with five arguments, but four are declared;
  - the `ChatContext` constructor calls `dispatcher.dispatch_execution()` (context.py:21), but the dispatcher stores its factory as `_dispatch_execution` (dispatcher.py:188), an AttributeError. The model builds the context without an execution wrapper.
- `decorators.has_inlinequery` (dispatcher.py:198) does not exist in decorators.py. It is modelled as "the function carries an inline-query tag".
- `_register_handlers` of context.py (lines 25-35) reads nine positions of the eight-element tuple of `decorators.extract_handlers`, which is an IndexError. The model gives a `ChatContext` its nine handler slots directly.
- context.py:159 and 164 call `CHAT_TYPE.values()` on a namedtuple, which is an AttributeError. They are modelled as membership in CHAT_TYPE.
- `Dispatcher.ChatContextDispatcher.Process`: the processors capture `dispatcher.me` while it is still None, when they are built. The model has them read the dispatcher's current identity.
- state.py:230 passes the message task with one argument to `handle_message(ctx, update)`, which takes two. This TypeError in the worker happens after dispatch and is not modelled.
- `Dispatcher.Lower`: case folding is modelled on ASCII letters only.
- Python's iteration order of a set (the chat types of `register_class`, the queries of `register_inlinequery_handler`, a command's names) and the order of `dir()` are parameters.
- `State.ChatStateDispatcher.CleanIdleStates` and `Chatstate.ChatStateDispatcher.CleanIdleStates` model the deletion loop as evidently intended. The code as written is `Sessions.CleanIdleAsWritten`; see the Findings table.
- The sweep's rescheduling through `self._scheduler` (state.py:182, chatstate.py:136) is part of the as-written finding only; the corrected sweep does not reschedule.
- `Decorator.DecoratedTags`: new_chat_member and left_chat_member are modelled as written, raising TypeError, because `super(callback_query, self)` is called on an instance that is not a `callback_query`. No corrected decorator is modelled. `DecoratedMethodIsFiled` covers only the decorators that succeed.
- The `chatstate` class decorator (decorator.py:99-100) is a plain `MethodDecorator`, covered by `Decorator.MakeDecorator` with the chat-type tag only.
- The other files of the repository (threadpool, locking, the database context extension) are not part of this model.

## Findings

| source | as written | input that shows it | evidently intended | confidence | as-written member | corrected member |
|---|---|---|---|---|---|---|
| chatstate/context.py:204 | compares `(now - last_active).seconds` (the seconds part of a timedelta, below one day) with the timeout | a context last active one day and ten seconds ago, with the default timeout of 1800 seconds: reads as 10 seconds, so it is not idle | compare the whole elapsed time in seconds | not executed | Context.SecondsFieldForgetsDays | Context.ElapsedPastTimeoutStays |
| chatstate/context.py:59 | `handlers.extend(self._leftchatmember_handler)` on a single bound method | a message where a member other than the bot leaves, with a left-member handler bound: TypeError, no handler runs | append the handler | not executed | Context.LeftMemberHandlerNeverRunsAsWritten | Context.PlanOf |
| chatstate/state.py:88 | `_process_entities` iterates the undefined name `entities` and extends the undefined `handlers` | a private-chat message `/cmd` with one bot_command entity: NameError, no handler runs | iterate `update.message.entities` and return the handlers to the caller | not executed | State.CommandsNeverRunAsWritten | State.CommandAddressing |
| chatstate/state.py:220 | `CHAT_TYPE[chat.type]` indexes a namedtuple with a string | any message, for instance from a private chat: TypeError | look the name up in CHAT_TYPE_NAME | not executed | State.ExtractChatDataAsWritten | State.ChatDataNames |
| chatstate/state.py:181 | the log line after the first `del` names the undefined `chat_id` | two sessions idle past the limit: the first is deleted, then NameError leaves the second in the table | log `state_id` and go on deleting | not executed | Sessions.CleanIdleAsWrittenKeepsExpired | Sessions.CleanIdleEvictsExactlyExpired |
| chatstate/chatstate.py:187 | the warning for an unhandled callback query reads `update.message.chat.type` | a callback query from a chat kind with no class, with no message in the update: AttributeError | name the callback query's chat type | not executed | Chatstate.UnhandledCallbackQueryRaises | Chatstate.ChatStateDispatcher.DispatchPath |
