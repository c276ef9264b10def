/** The extract_handlers of chatstate/decorators.py: the variant in which
    every slot but the event table is exclusive, so a second message,
    callback-query, activate, deactivate, new-member or left-member handler,
    or a second handler for one command name, is an AssertionError. The
    decorators and inspection functions of that file are the same as those of
    decorator.py and reflection.py and are modelled once, in the Decorator
    and Reflection modules. */
module Decorators {
  import opened Base
  import opened Reflection

  /** The tuple this extract_handlers returns, in its slot order. */
  datatype HandlerTable = HandlerTable(
    message: Option<HandlerId>,
    commands: map<TagValue, HandlerId>,
    callbackQuery: Option<HandlerId>,
    events: map<TagValue, seq<HandlerId>>,
    activate: Option<HandlerId>,
    deactivate: Option<HandlerId>,
    newChatMember: Option<HandlerId>,
    leftChatMember: Option<HandlerId>)

  const EmptyTable: HandlerTable := HandlerTable(None, map[], None, map[], None, None, None, None)

  /** `d[k] = h` for every `k` in `keys`. */
  function Assign(d: map<TagValue, HandlerId>, keys: set<TagValue>, h: HandlerId): map<TagValue, HandlerId> {
    map k | k in d.Keys + keys :: if k in keys then h else d[k]
  }

  function SlotIf(slot: Option<HandlerId>, m: Attribute, tag: Tag): Option<HandlerId> {
    if tag in m.tags then Some(m.name) else slot
  }

  /** Whether `m` would take an exclusive slot that is already held. */
  predicate Clashes(m: Attribute, tag: Tag, slot: Option<HandlerId>) {
    tag in m.tags && slot.Some?
  }

  /** One iteration of the loop over method `m`; None is the AssertionError. */
  function ExclusiveStep(ct: int, t: HandlerTable, m: Attribute): Option<HandlerTable> {
    if !Suitable(ct, m) then Some(t)
    else if Clashes(m, MessageTag, t.message) then None
    else if !(KeysOfMethod(ct, m, CommandTag) !! t.commands.Keys) then None
    else if Clashes(m, CallbackQueryTag, t.callbackQuery) then None
    else if Clashes(m, ActivateTag, t.activate) then None
    else if Clashes(m, DeactivateTag, t.deactivate) then None
    else if Clashes(m, NewChatMemberTag, t.newChatMember) then None
    else if Clashes(m, LeftChatMemberTag, t.leftChatMember) then None
    else
      Some(HandlerTable(
        SlotIf(t.message, m, MessageTag),
        Assign(t.commands, KeysOfMethod(ct, m, CommandTag), m.name),
        SlotIf(t.callbackQuery, m, CallbackQueryTag),
        AppendUnder(t.events, KeysOfMethod(ct, m, EventTag), m.name),
        SlotIf(t.activate, m, ActivateTag),
        SlotIf(t.deactivate, m, DeactivateTag),
        SlotIf(t.newChatMember, m, NewChatMemberTag),
        SlotIf(t.leftChatMember, m, LeftChatMemberTag)))
  }

  /** The loop of this extract_handlers over the methods `ms`, in their order. */
  function ExclusiveSpec(ct: int, ms: seq<Attribute>): Option<HandlerTable> {
    if ms == [] then Some(EmptyTable)
    else
      match ExclusiveSpec(ct, ms[..|ms| - 1])
      case None => None
      case Some(t) => ExclusiveStep(ct, t, ms[|ms| - 1])
  }

  lemma {:induction false} ExclusiveFailureSticks(ct: int, ms: seq<Attribute>, i: nat)
    requires i <= |ms|
    requires ExclusiveSpec(ct, ms[..i]) == None
    ensures ExclusiveSpec(ct, ms) == None
  {
    if i < |ms| {
      assert ms[..|ms| - 1][..i] == ms[..i];
      ExclusiveFailureSticks(ct, ms[..|ms| - 1], i);
    } else {
      assert ms[..i] == ms;
    }
  }

  /** No two suitable methods declare the same command name. */
  ghost predicate CommandsUnique(ct: int, ms: seq<Attribute>) {
    forall k :: |KeyHolders(ct, ms, CommandTag, k)| <= 1
  }

  /** No two suitable methods share an exclusive slot or a command name. */
  ghost predicate Exclusive(ct: int, ms: seq<Attribute>) {
    && |Holders(ct, ms, MessageTag)| <= 1
    && CommandsUnique(ct, ms)
    && |Holders(ct, ms, CallbackQueryTag)| <= 1
    && |Holders(ct, ms, ActivateTag)| <= 1
    && |Holders(ct, ms, DeactivateTag)| <= 1
    && |Holders(ct, ms, NewChatMemberTag)| <= 1
    && |Holders(ct, ms, LeftChatMemberTag)| <= 1
  }

  /** The method that declares command `k`. */
  function CommandOwner(ct: int, ms: seq<Attribute>, k: TagValue): HandlerId
    requires k in KeysOf(ct, ms, CommandTag)
  {
    KeysOfHolders(ct, ms, CommandTag, k);
    KeyHolders(ct, ms, CommandTag, k)[0]
  }

  /** Reference definition of the handler table, slot by slot. */
  function ExclusiveReference(ct: int, ms: seq<Attribute>): HandlerTable {
    HandlerTable(
      FirstOf(Holders(ct, ms, MessageTag)),
      map k | k in KeysOf(ct, ms, CommandTag) :: CommandOwner(ct, ms, k),
      FirstOf(Holders(ct, ms, CallbackQueryTag)),
      Grouped(ct, ms, EventTag),
      FirstOf(Holders(ct, ms, ActivateTag)),
      FirstOf(Holders(ct, ms, DeactivateTag)),
      FirstOf(Holders(ct, ms, NewChatMemberTag)),
      FirstOf(Holders(ct, ms, LeftChatMemberTag)))
  }

  /** An exclusive slot after one more method, when the slot had at most one holder. */
  lemma SlotStep(ct: int, ms: seq<Attribute>, tag: Tag)
    requires ms != [] && Suitable(ct, ms[|ms| - 1])
    requires |Holders(ct, ms[..|ms| - 1], tag)| <= 1
    ensures var p, m := ms[..|ms| - 1], ms[|ms| - 1];
      && (|Holders(ct, ms, tag)| <= 1 <==> !Clashes(m, tag, FirstOf(Holders(ct, p, tag))))
      && (|Holders(ct, ms, tag)| <= 1 ==> FirstOf(Holders(ct, ms, tag)) == SlotIf(FirstOf(Holders(ct, p, tag)), m, tag))
  {
  }

  /** The command table after one more suitable method. */
  lemma CommandStep(ct: int, ms: seq<Attribute>)
    requires ms != [] && Suitable(ct, ms[|ms| - 1])
    requires CommandsUnique(ct, ms[..|ms| - 1])
    ensures var p, m := ms[..|ms| - 1], ms[|ms| - 1];
      var before := map k | k in KeysOf(ct, p, CommandTag) :: CommandOwner(ct, p, k);
      && (CommandsUnique(ct, ms) <==> KeysOfMethod(ct, m, CommandTag) !! before.Keys)
      && (CommandsUnique(ct, ms) ==>
            (map k | k in KeysOf(ct, ms, CommandTag) :: CommandOwner(ct, ms, k))
              == Assign(before, KeysOfMethod(ct, m, CommandTag), m.name))
  {
    var p, m := ms[..|ms| - 1], ms[|ms| - 1];
    var keys := KeysOfMethod(ct, m, CommandTag);
    var before := map k | k in KeysOf(ct, p, CommandTag) :: CommandOwner(ct, p, k);
    if keys !! before.Keys {
      forall k
        ensures |KeyHolders(ct, ms, CommandTag, k)| <= 1
      {
        KeysOfHolders(ct, p, CommandTag, k);
      }
      var after := map k | k in KeysOf(ct, ms, CommandTag) :: CommandOwner(ct, ms, k);
      var a := Assign(before, keys, m.name);
      assert after.Keys == a.Keys;
      forall k | k in after
        ensures after[k] == a[k]
      {
        KeysOfHolders(ct, p, CommandTag, k);
      }
      assert after == a;
    } else {
      var k :| k in keys && k in before.Keys;
      KeysOfHolders(ct, p, CommandTag, k);
      assert |KeyHolders(ct, ms, CommandTag, k)| == 2;
    }
  }

  /** This extract_handlers fails exactly when two suitable methods share an
      exclusive slot or a command name; otherwise each exclusive slot holds its
      one handler, if any, each command name maps to the one method declaring
      it, and each event name lists all of its suitable methods in order. */
  lemma {:induction false} ExclusiveSpecIsReference(ct: int, ms: seq<Attribute>)
    ensures ExclusiveSpec(ct, ms) == if Exclusive(ct, ms) then Some(ExclusiveReference(ct, ms)) else None
  {
    if ms == [] {
      assert ExclusiveReference(ct, ms) == EmptyTable;
    } else {
      var p, m := ms[..|ms| - 1], ms[|ms| - 1];
      ExclusiveSpecIsReference(ct, p);
      if Exclusive(ct, p) {
        var t := ExclusiveReference(ct, p);
        if !Suitable(ct, m) {
          forall tag: Tag, key: Option<TagValue>
            ensures Filed(ct, ms, tag, key) == Filed(ct, p, tag, key)
          {
            assert Filed(ct, ms, tag, key) == Filed(ct, p, tag, key) + [];
          }
          assert KeysOf(ct, ms, CommandTag) == KeysOf(ct, p, CommandTag);
          forall k
            ensures KeyHolders(ct, ms, CommandTag, k) == KeyHolders(ct, p, CommandTag, k)
          {
            assert Filed(ct, ms, CommandTag, Some(k)) == Filed(ct, p, CommandTag, Some(k));
          }
          assert CommandsUnique(ct, ms) == CommandsUnique(ct, p);
          var c, c' := ExclusiveReference(ct, ms).commands, t.commands;
          assert c.Keys == c'.Keys;
          forall k | k in c
            ensures c[k] == c'[k]
          {
            assert KeyHolders(ct, ms, CommandTag, k) == KeyHolders(ct, p, CommandTag, k);
          }
          assert c == c';
          GroupedStep(ct, ms, EventTag);
          AppendUnderNothing(t.events, m.name);
          assert ExclusiveReference(ct, ms) == t;
        } else {
          SlotStep(ct, ms, MessageTag);
          SlotStep(ct, ms, CallbackQueryTag);
          SlotStep(ct, ms, ActivateTag);
          SlotStep(ct, ms, DeactivateTag);
          SlotStep(ct, ms, NewChatMemberTag);
          SlotStep(ct, ms, LeftChatMemberTag);
          CommandStep(ct, ms);
          GroupedStep(ct, ms, EventTag);
        }
      } else {
        NotExclusiveSticks(ct, ms);
      }
    }
  }

  lemma NotExclusiveSticks(ct: int, ms: seq<Attribute>)
    requires ms != [] && !Exclusive(ct, ms[..|ms| - 1])
    ensures !Exclusive(ct, ms)
  {
    var p := ms[..|ms| - 1];
    if CommandsUnique(ct, p) {
    } else {
      var k :| |KeyHolders(ct, p, CommandTag, k)| > 1;
      assert |KeyHolders(ct, ms, CommandTag, k)| > 1;
    }
  }

  lemma AssignNothing(d: map<TagValue, HandlerId>, h: HandlerId)
    ensures Assign(d, {}, h) == d
  {
    assert Assign(d, {}, h).Keys == d.Keys;
  }

  lemma AssignOneMore(d: map<TagValue, HandlerId>, done: set<TagValue>, k: TagValue, h: HandlerId)
    ensures Assign(d, done + {k}, h) == Assign(d, done, h)[k := h]
  {
    var a, b := Assign(d, done + {k}, h), Assign(d, done, h)[k := h];
    assert a.Keys == b.Keys;
    forall j | j in a
      ensures a[j] == b[j]
    {
    }
  }

  /** The loop `for cmd in commands: assert cmd not in command_handlers;
      command_handlers[cmd] = method`; None is the AssertionError. */
  method AssignEach(d: map<TagValue, HandlerId>, keys: set<TagValue>, h: HandlerId)
    returns (r: Option<map<TagValue, HandlerId>>)
    ensures r == if keys !! d.Keys then Some(Assign(d, keys, h)) else None
  {
    var table := d;
    var rest := keys;
    ghost var done: set<TagValue> := {};
    AssignNothing(d, h);
    while rest != {}
      invariant rest <= keys && done == keys - rest
      invariant done !! d.Keys
      invariant table == Assign(d, done, h)
      decreases rest
    {
      var k :| k in rest;
      if k in table {
        return None;
      }
      AssignOneMore(d, done, k, h);
      table := table[k := h];
      rest := rest - {k};
      done := done + {k};
    }
    assert done == keys;
    r := Some(table);
  }

  /** `extract_handlers(chat_type, handler)` of this file; None is the AssertionError. */
  method ExtractHandlers(chatType: int, handler: seq<Attribute>) returns (r: Option<HandlerTable>)
    ensures r == ExclusiveSpec(chatType, Methods(handler))
  {
    var ms := Methods(handler);
    var table := EmptyTable;
    var i := 0;
    while i < |ms|
      invariant 0 <= i <= |ms|
      invariant ExclusiveSpec(chatType, ms[..i]) == Some(table)
    {
      assert ms[..i + 1][..i] == ms[..i];
      var next := ExtractFrom(chatType, table, ms[i]);
      if next.None? {
        ExclusiveFailureSticks(chatType, ms, i + 1);
        return None;
      }
      table := next.value;
      i := i + 1;
    }
    assert ms[..i] == ms;
    r := Some(table);
  }

  /** The body of the loop for the method `m`, on the handlers found so far. */
  method ExtractFrom(chatType: int, t: HandlerTable, m: Attribute) returns (r: Option<HandlerTable>)
    ensures r == ExclusiveStep(chatType, t, m)
  {
    var message, commands, callbackQuery := t.message, t.commands, t.callbackQuery;
    var events, activate, deactivate := t.events, t.activate, t.deactivate;
    var newChatMember, leftChatMember := t.newChatMember, t.leftChatMember;
    AppendUnderNothing(events, m.name);
    AssignNothing(commands, m.name);
    if HasChatType(m.tags) && IsSuitable(chatType, m.tags[ChatTypeTag]) {
      if MessageTag in m.tags {
        if message.Some? {
          return None;
        }
        message := Some(m.name);
      }
      assert message == SlotIf(t.message, m, MessageTag);
      if CommandTag in m.tags {
        var updated := AssignEach(commands, m.tags[CommandTag], m.name);
        if updated.None? {
          return None;
        }
        commands := updated.value;
      }
      assert commands == Assign(t.commands, KeysOfMethod(chatType, m, CommandTag), m.name);
      if CallbackQueryTag in m.tags {
        if callbackQuery.Some? {
          return None;
        }
        callbackQuery := Some(m.name);
      }
      assert callbackQuery == SlotIf(t.callbackQuery, m, CallbackQueryTag);
      if EventTag in m.tags {
        events := AppendToEach(events, m.tags[EventTag], m.name);
      }
      assert events == AppendUnder(t.events, KeysOfMethod(chatType, m, EventTag), m.name);
      if ActivateTag in m.tags {
        if activate.Some? {
          return None;
        }
        activate := Some(m.name);
      }
      assert activate == SlotIf(t.activate, m, ActivateTag);
      if DeactivateTag in m.tags {
        if deactivate.Some? {
          return None;
        }
        deactivate := Some(m.name);
      }
      assert deactivate == SlotIf(t.deactivate, m, DeactivateTag);
      if NewChatMemberTag in m.tags {
        if newChatMember.Some? {
          return None;
        }
        newChatMember := Some(m.name);
      }
      assert newChatMember == SlotIf(t.newChatMember, m, NewChatMemberTag);
      if LeftChatMemberTag in m.tags {
        if leftChatMember.Some? {
          return None;
        }
        leftChatMember := Some(m.name);
      }
      assert leftChatMember == SlotIf(t.leftChatMember, m, LeftChatMemberTag);
    }
    r := Some(HandlerTable(message, commands, callbackQuery, events, activate, deactivate, newChatMember, leftChatMember));
  }

  /** The two variants agree wherever neither fails and this one's exclusive
      slots are filled: the list of the other variant is then the single
      handler of this one, and the event tables are the same. */
  lemma VariantsAgree(ct: int, ms: seq<Attribute>)
    requires ExclusiveSpec(ct, ms).Some?
    ensures ExtractSpec(ct, ms).Some?
    ensures var t, l := ExclusiveSpec(ct, ms).value, ExtractSpec(ct, ms).value;
      && t.events == l.events
      && t.callbackQuery == l.callbackQuery
      && t.activate == l.activate
      && t.deactivate == l.deactivate
      && (t.message.None? <==> l.messages == [])
      && (t.message.Some? ==> l.messages == [t.message.value])
      && (t.newChatMember.None? <==> l.newChatMembers == [])
      && (t.newChatMember.Some? ==> l.newChatMembers == [t.newChatMember.value])
      && (t.leftChatMember.None? <==> l.leftChatMembers == [])
      && (t.leftChatMember.Some? ==> l.leftChatMembers == [t.leftChatMember.value])
      && (forall k :: k in t.commands <==> k in l.commands)
      && (forall k :: k in t.commands ==> l.commands[k] == [t.commands[k]])
  {
    ExclusiveSpecIsReference(ct, ms);
    ExtractSpecIsReference(ct, ms);
    forall k | k in KeysOf(ct, ms, CommandTag)
      ensures KeyHolders(ct, ms, CommandTag, k) == [CommandOwner(ct, ms, k)]
    {
      KeysOfHolders(ct, ms, CommandTag, k);
    }
  }
}
