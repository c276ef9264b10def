/** The tag names and the inspection functions of chatstate/reflection.py, and
    its extract_handlers: the variant that keeps message, command, new-member
    and left-member handlers as lists and only callback-query, activate and
    deactivate as exclusive slots. */
module Reflection {
  import opened Base
  import ChatTypes

  /** The attributes the decorators store tag sets under (the TAG_* names). */
  datatype Tag =
    | ChatTypeTag
    | MessageTag
    | CommandTag
    | CallbackQueryTag
    | EventTag
    | ActivateTag
    | DeactivateTag
    | NewChatMemberTag
    | LeftChatMemberTag

  /** A member of a tag set: a chat kind (a Python int) or a name (a str). */
  datatype TagValue = Kind(kind: int) | Name(name: string)

  /** The tag sets a function carries, by tag; a tag absent from the map is an
      attribute the function does not have. */
  type Tags = map<Tag, set<TagValue>>

  /** One attribute of a handler instance, as `dir()` enumerates it: its name,
      whether `getattr` yields a bound method, and the tag sets it carries. */
  datatype Attribute = Attribute(name: HandlerId, isMethod: bool, tags: Tags)

  /** `has_chattype(x)` */
  predicate HasChatType(tags: Tags) {
    ChatTypeTag in tags
  }

  /** The filter of `methods(obj)`. */
  predicate IsHandlerMethod(a: Attribute) {
    a.isMethod && HasChatType(a.tags)
  }

  /** `methods(obj)`: the bound methods among the attributes that carry a chat
      type tag, in enumeration order. */
  function Methods(obj: seq<Attribute>): (r: seq<Attribute>)
    ensures forall a :: a in r <==> a in obj && IsHandlerMethod(a)
    ensures |r| <= |obj|
  {
    if obj == [] then []
    else
      var p, a := obj[..|obj| - 1], obj[|obj| - 1];
      assert obj == p + [a];
      Methods(p) + (if IsHandlerMethod(a) then [a] else [])
  }

  /** `is_suitable(ctype, ctypes)` */
  predicate IsSuitable(ctype: int, ctypes: set<TagValue>) {
    Kind(ctype) in ctypes || Kind(ChatTypes.ANY) in ctypes
  }

  /** ANY in a method's chat types makes it suitable for every kind; without
      ANY it is suitable exactly for the kinds it names. */
  lemma AnyIsWildcard(ctypes: set<TagValue>, ctype: int)
    ensures Kind(ChatTypes.ANY) in ctypes ==> IsSuitable(ctype, ctypes)
    ensures Kind(ChatTypes.ANY) !in ctypes ==> (IsSuitable(ctype, ctypes) <==> Kind(ctype) in ctypes)
  {
  }

  /** The test of extract_handlers: the method's chat types hold `ct` or ANY. */
  predicate Suitable(ct: int, m: Attribute) {
    HasChatType(m.tags) && IsSuitable(ct, m.tags[ChatTypeTag])
  }

  /** Whether extract_handlers, for chat kind `ct`, files `m` under `tag` (and,
      when `key` is given, under that key of a name-keyed tag). */
  predicate FiledUnder(ct: int, m: Attribute, tag: Tag, key: Option<TagValue>) {
    Suitable(ct, m) && tag in m.tags && (key.None? || key.value in m.tags[tag])
  }

  /** The keys `m` contributes under a name-keyed tag. */
  function KeysOfMethod(ct: int, m: Attribute, tag: Tag): set<TagValue> {
    if Suitable(ct, m) && tag in m.tags then m.tags[tag] else {}
  }

  /** Reference definition: the names of the methods of `ms` filed under
      `tag` (and `key`), in enumeration order. */
  function Filed(ct: int, ms: seq<Attribute>, tag: Tag, key: Option<TagValue>): seq<HandlerId> {
    if ms == [] then []
    else
      var m := ms[|ms| - 1];
      Filed(ct, ms[..|ms| - 1], tag, key) + (if FiledUnder(ct, m, tag, key) then [m.name] else [])
  }

  function Holders(ct: int, ms: seq<Attribute>, tag: Tag): seq<HandlerId> {
    Filed(ct, ms, tag, None)
  }

  function KeyHolders(ct: int, ms: seq<Attribute>, tag: Tag, key: TagValue): seq<HandlerId> {
    Filed(ct, ms, tag, Some(key))
  }

  /** Reference definition: every key some suitable method of `ms` declares under `tag`. */
  function KeysOf(ct: int, ms: seq<Attribute>, tag: Tag): set<TagValue> {
    if ms == [] then {}
    else KeysOf(ct, ms[..|ms| - 1], tag) + KeysOfMethod(ct, ms[|ms| - 1], tag)
  }

  /** Reference definition of a name-keyed table: each declared key with its holders. */
  function Grouped(ct: int, ms: seq<Attribute>, tag: Tag): map<TagValue, seq<HandlerId>> {
    map k | k in KeysOf(ct, ms, tag) :: KeyHolders(ct, ms, tag, k)
  }

  function FirstOf(s: seq<HandlerId>): Option<HandlerId> {
    if s == [] then None else Some(s[0])
  }

  lemma {:induction false} KeysOfHolders(ct: int, ms: seq<Attribute>, tag: Tag, k: TagValue)
    ensures k in KeysOf(ct, ms, tag) <==> KeyHolders(ct, ms, tag, k) != []
  {
    if ms != [] {
      KeysOfHolders(ct, ms[..|ms| - 1], tag, k);
    }
  }

  lemma {:induction false} FiledConcat(ct: int, a: seq<Attribute>, b: seq<Attribute>, tag: Tag, key: Option<TagValue>)
    ensures Filed(ct, a + b, tag, key) == Filed(ct, a, tag, key) + Filed(ct, b, tag, key)
  {
    if b == [] {
      assert a + b == a;
    } else {
      assert (a + b)[..|a + b| - 1] == a + b[..|b| - 1];
      FiledConcat(ct, a, b[..|b| - 1], tag, key);
    }
  }

  lemma {:induction false} KeysOfConcat(ct: int, a: seq<Attribute>, b: seq<Attribute>, tag: Tag)
    ensures KeysOf(ct, a + b, tag) == KeysOf(ct, a, tag) + KeysOf(ct, b, tag)
  {
    if b == [] {
      assert a + b == a;
    } else {
      assert (a + b)[..|a + b| - 1] == a + b[..|b| - 1];
      KeysOfConcat(ct, a, b[..|b| - 1], tag);
    }
  }

  /** `d.setdefault(k, []).append(h)` for every `k` in `keys`. */
  function AppendUnder(d: map<TagValue, seq<HandlerId>>, keys: set<TagValue>, h: HandlerId): map<TagValue, seq<HandlerId>> {
    map k | k in d.Keys + keys :: (if k in d then d[k] else []) + (if k in keys then [h] else [])
  }

  /** Appending under no key leaves the table as it was. */
  lemma AppendUnderNothing(d: map<TagValue, seq<HandlerId>>, h: HandlerId)
    ensures AppendUnder(d, {}, h) == d
  {
    var r := AppendUnder(d, {}, h);
    assert r.Keys == d.Keys;
    forall k | k in d
      ensures r[k] == d[k]
    {
      assert r[k] == d[k] + [];
    }
  }

  /** Appending under one more key is one more setdefault-append. */
  lemma AppendUnderOneMore(d: map<TagValue, seq<HandlerId>>, done: set<TagValue>, k: TagValue, h: HandlerId)
    requires k !in done
    ensures var r := AppendUnder(d, done, h);
      AppendUnder(d, done + {k}, h) == r[k := (if k in r then r[k] else []) + [h]]
  {
    var r := AppendUnder(d, done, h);
    var r' := AppendUnder(d, done + {k}, h);
    var u := r[k := (if k in r then r[k] else []) + [h]];
    assert r'.Keys == u.Keys;
    forall j | j in r'
      ensures r'[j] == u[j]
    {
    }
  }

  /** A name-keyed table grows by one method exactly as setdefault-append grows it. */
  lemma GroupedStep(ct: int, ms: seq<Attribute>, tag: Tag)
    requires ms != []
    ensures Grouped(ct, ms, tag)
         == AppendUnder(Grouped(ct, ms[..|ms| - 1], tag), KeysOfMethod(ct, ms[|ms| - 1], tag), ms[|ms| - 1].name)
  {
    var p, m := ms[..|ms| - 1], ms[|ms| - 1];
    var g, g' := Grouped(ct, p, tag), Grouped(ct, ms, tag);
    var a := AppendUnder(g, KeysOfMethod(ct, m, tag), m.name);
    assert g'.Keys == a.Keys;
    forall k | k in g'
      ensures g'[k] == a[k]
    {
      KeysOfHolders(ct, p, tag, k);
    }
  }

  /** The tuple extract_handlers returns, in its slot order. */
  datatype HandlerLists = HandlerLists(
    messages: seq<HandlerId>,
    commands: map<TagValue, seq<HandlerId>>,
    callbackQuery: Option<HandlerId>,
    events: map<TagValue, seq<HandlerId>>,
    activate: Option<HandlerId>,
    deactivate: Option<HandlerId>,
    newChatMembers: seq<HandlerId>,
    leftChatMembers: seq<HandlerId>)

  const NoHandlers: HandlerLists := HandlerLists([], map[], None, map[], None, None, [], [])

  function NameIf(m: Attribute, tag: Tag): seq<HandlerId> {
    if tag in m.tags then [m.name] else []
  }

  /** One iteration of the loop of extract_handlers over method `m`; None is
      the AssertionError of a second callback-query, activate or deactivate
      handler. */
  function AddMethod(ct: int, t: HandlerLists, m: Attribute): Option<HandlerLists> {
    if !Suitable(ct, m) then Some(t)
    else if CallbackQueryTag in m.tags && t.callbackQuery.Some? then None
    else if ActivateTag in m.tags && t.activate.Some? then None
    else if DeactivateTag in m.tags && t.deactivate.Some? then None
    else
      Some(HandlerLists(
        t.messages + NameIf(m, MessageTag),
        AppendUnder(t.commands, KeysOfMethod(ct, m, CommandTag), m.name),
        if CallbackQueryTag in m.tags then Some(m.name) else t.callbackQuery,
        AppendUnder(t.events, KeysOfMethod(ct, m, EventTag), m.name),
        if ActivateTag in m.tags then Some(m.name) else t.activate,
        if DeactivateTag in m.tags then Some(m.name) else t.deactivate,
        t.newChatMembers + NameIf(m, NewChatMemberTag),
        t.leftChatMembers + NameIf(m, LeftChatMemberTag)))
  }

  /** The loop of extract_handlers over the methods `ms`, in their order. */
  function ExtractSpec(ct: int, ms: seq<Attribute>): Option<HandlerLists> {
    if ms == [] then Some(NoHandlers)
    else
      match ExtractSpec(ct, ms[..|ms| - 1])
      case None => None
      case Some(t) => AddMethod(ct, t, ms[|ms| - 1])
  }

  lemma {:induction false} ExtractSpecFailureSticks(ct: int, ms: seq<Attribute>, i: nat)
    requires i <= |ms|
    requires ExtractSpec(ct, ms[..i]) == None
    ensures ExtractSpec(ct, ms) == None
  {
    if i < |ms| {
      assert ms[..|ms| - 1][..i] == ms[..i];
      ExtractSpecFailureSticks(ct, ms[..|ms| - 1], i);
    } else {
      assert ms[..i] == ms;
    }
  }

  /** The exclusive slots of this variant hold at most one handler each. */
  predicate Consistent(ct: int, ms: seq<Attribute>) {
    && |Holders(ct, ms, CallbackQueryTag)| <= 1
    && |Holders(ct, ms, ActivateTag)| <= 1
    && |Holders(ct, ms, DeactivateTag)| <= 1
  }

  /** Reference definition of the handler tuple, slot by slot. */
  function Reference(ct: int, ms: seq<Attribute>): HandlerLists {
    HandlerLists(
      Holders(ct, ms, MessageTag),
      Grouped(ct, ms, CommandTag),
      FirstOf(Holders(ct, ms, CallbackQueryTag)),
      Grouped(ct, ms, EventTag),
      FirstOf(Holders(ct, ms, ActivateTag)),
      FirstOf(Holders(ct, ms, DeactivateTag)),
      Holders(ct, ms, NewChatMemberTag),
      Holders(ct, ms, LeftChatMemberTag))
  }

  /** extract_handlers fails exactly when two suitable methods claim the
      callback-query, activate or deactivate slot; otherwise every message,
      new-member and left-member handler is listed in enumeration order, every
      command name and event name lists all of its suitable methods in order,
      and each exclusive slot holds its one handler, if any. */
  lemma {:induction false} ExtractSpecIsReference(ct: int, ms: seq<Attribute>)
    ensures ExtractSpec(ct, ms) == if Consistent(ct, ms) then Some(Reference(ct, ms)) else None
  {
    if ms == [] {
      assert Grouped(ct, ms, CommandTag) == map[];
      assert Grouped(ct, ms, EventTag) == map[];
    } else {
      var p, m := ms[..|ms| - 1], ms[|ms| - 1];
      ExtractSpecIsReference(ct, p);
      GroupedStep(ct, ms, CommandTag);
      GroupedStep(ct, ms, EventTag);
      if Consistent(ct, p) {
        var t := Reference(ct, p);
        if !Suitable(ct, m) {
          AppendUnderNothing(t.commands, m.name);
          AppendUnderNothing(t.events, m.name);
          forall tag: Tag
            ensures Holders(ct, ms, tag) == Holders(ct, p, tag)
          {
            assert Holders(ct, ms, tag) == Holders(ct, p, tag) + [];
          }
          assert Reference(ct, ms) == t;
        }
      }
    }
  }

  /** The loop `for cmd in commands: command_handlers.setdefault(cmd, []).append(method)`. */
  method AppendToEach(d: map<TagValue, seq<HandlerId>>, keys: set<TagValue>, h: HandlerId)
    returns (r: map<TagValue, seq<HandlerId>>)
    ensures r == AppendUnder(d, keys, h)
  {
    r := d;
    var rest := keys;
    ghost var done: set<TagValue> := {};
    AppendUnderNothing(d, h);
    while rest != {}
      invariant rest <= keys && done == keys - rest
      invariant r == AppendUnder(d, done, h)
      decreases rest
    {
      var k :| k in rest;
      AppendUnderOneMore(d, done, k, h);
      r := r[k := (if k in r then r[k] else []) + [h]];
      rest := rest - {k};
      done := done + {k};
    }
    assert done == keys;
  }

  /** `extract_handlers(chat_type, handler)`; None is the AssertionError. */
  method ExtractHandlers(chatType: int, handler: seq<Attribute>) returns (r: Option<HandlerLists>)
    ensures r == ExtractSpec(chatType, Methods(handler))
  {
    var ms := Methods(handler);
    var messages: seq<HandlerId> := [];
    var commands: map<TagValue, seq<HandlerId>> := map[];
    var callbackQuery: Option<HandlerId> := None;
    var newChatMembers: seq<HandlerId> := [];
    var leftChatMembers: seq<HandlerId> := [];
    var events: map<TagValue, seq<HandlerId>> := map[];
    var activate: Option<HandlerId> := None;
    var deactivate: Option<HandlerId> := None;
    var i := 0;
    while i < |ms|
      invariant 0 <= i <= |ms|
      invariant ExtractSpec(chatType, ms[..i])
             == Some(HandlerLists(messages, commands, callbackQuery, events, activate, deactivate, newChatMembers, leftChatMembers))
    {
      var m := ms[i];
      assert ms[..i + 1][..i] == ms[..i];
      ghost var t := HandlerLists(messages, commands, callbackQuery, events, activate, deactivate, newChatMembers, leftChatMembers);
      assert ExtractSpec(chatType, ms[..i + 1]) == AddMethod(chatType, t, m);
      AppendUnderNothing(commands, m.name);
      AppendUnderNothing(events, m.name);
      assert messages + [] == messages && newChatMembers + [] == newChatMembers && leftChatMembers + [] == leftChatMembers;
      if HasChatType(m.tags) && IsSuitable(chatType, m.tags[ChatTypeTag]) {
        if CommandTag in m.tags {
          commands := AppendToEach(commands, m.tags[CommandTag], m.name);
        }
        if MessageTag in m.tags {
          messages := messages + [m.name];
        }
        if CallbackQueryTag in m.tags {
          if callbackQuery.Some? {
            ExtractSpecFailureSticks(chatType, ms, i + 1);
            return None;
          }
          callbackQuery := Some(m.name);
        }
        if NewChatMemberTag in m.tags {
          newChatMembers := newChatMembers + [m.name];
        }
        if LeftChatMemberTag in m.tags {
          leftChatMembers := leftChatMembers + [m.name];
        }
        if ActivateTag in m.tags {
          if activate.Some? {
            ExtractSpecFailureSticks(chatType, ms, i + 1);
            return None;
          }
          activate := Some(m.name);
        }
        if DeactivateTag in m.tags {
          if deactivate.Some? {
            ExtractSpecFailureSticks(chatType, ms, i + 1);
            return None;
          }
          deactivate := Some(m.name);
        }
        if EventTag in m.tags {
          events := AppendToEach(events, m.tags[EventTag], m.name);
        }
      }
      i := i + 1;
    }
    assert ms[..i] == ms;
    r := Some(HandlerLists(messages, commands, callbackQuery, events, activate, deactivate, newChatMembers, leftChatMembers));
  }

  /** A method that is not suitable for the chat kind, wherever it stands
      among the methods, changes nothing in the outcome. */
  lemma UnsuitableContributesNothing(ct: int, a: seq<Attribute>, m: Attribute, b: seq<Attribute>)
    requires !Suitable(ct, m)
    ensures ExtractSpec(ct, a + [m] + b) == ExtractSpec(ct, a + b)
  {
    var ms, ms' := a + [m] + b, a + b;
    forall tag: Tag, key: Option<TagValue>
      ensures Filed(ct, ms, tag, key) == Filed(ct, ms', tag, key)
    {
      FiledConcat(ct, a + [m], b, tag, key);
      FiledConcat(ct, a, [m], tag, key);
      FiledConcat(ct, a, b, tag, key);
      assert Filed(ct, [m], tag, key) == Filed(ct, [], tag, key) + [];
    }
    forall tag: Tag
      ensures KeysOf(ct, ms, tag) == KeysOf(ct, ms', tag)
    {
      KeysOfConcat(ct, a + [m], b, tag);
      KeysOfConcat(ct, a, [m], tag);
      KeysOfConcat(ct, a, b, tag);
      assert KeysOf(ct, [m], tag) == KeysOf(ct, [], tag) + {};
    }
    assert Reference(ct, ms) == Reference(ct, ms');
    ExtractSpecIsReference(ct, ms);
    ExtractSpecIsReference(ct, ms');
  }
}
