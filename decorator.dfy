/** The method and class decorators of chatstate/decorator.py: each one adds
    the chat types it was built with, and its own tag, to the tag sets a
    function carries. */
module Decorator {
  import opened Base
  import opened Reflection

  /** A decorator argument as Python sees it: an int or a str (a scalar), or
      a list, tuple or set of them. */
  datatype Arg = Scalar(v: TagValue) | Many(vs: seq<TagValue>)

  /** The values `_update_tag` adds for an argument: a collection is merged
      with `update`, a scalar with `add`. */
  function ArgValues(a: Arg): set<TagValue> {
    match a
    case Scalar(v) => {v}
    case Many(vs) => set v | v in vs
  }

  /** `isinstance(chat_type, (int, list, tuple, set))` */
  predicate IsChatTypeArg(a: Arg) {
    (a.Scalar? && a.v.Kind?) || a.Many?
  }

  /** `isinstance(name, (str, list, tuple, set))` */
  predicate IsCommandArg(a: Arg) {
    (a.Scalar? && a.v.Name?) || a.Many?
  }

  /** The decorator classes: message, callback_query, new_chat_member,
      left_chat_member, activate, deactivate, command, event and the class
      decorator chatstate. */
  datatype Kind =
    | MessageDecorator
    | CallbackQueryDecorator
    | NewChatMemberDecorator
    | LeftChatMemberDecorator
    | ActivateDecorator
    | DeactivateDecorator
    | CommandDecorator(command: Arg)
    | EventDecorator(eventName: string)
    | ChatStateDecorator

  /** A constructed decorator: its class and the chat types it was given. */
  datatype Decorator = Decorator(kind: Kind, chatType: Arg)

  /** `MethodDecorator.__init__(chat_type)`, for the decorators that take no
      name; the assertion on the chat type is the AssertionError. */
  function MakeDecorator(kind: Kind, chatType: Arg): (r: Result<Decorator>)
    requires !kind.CommandDecorator? && !kind.EventDecorator?
    ensures r.Ok? <==> IsChatTypeArg(chatType)
    ensures r.Ok? ==> r.value == Decorator(kind, chatType)
    ensures r.Err? ==> r.error == AssertionError
  {
    if IsChatTypeArg(chatType) then Ok(Decorator(kind, chatType)) else Err(AssertionError)
  }

  /** `command(chat_type, name)`: the name is checked first, then the chat type. */
  function MakeCommand(chatType: Arg, name: Arg): (r: Result<Decorator>)
    ensures r.Ok? <==> IsCommandArg(name) && IsChatTypeArg(chatType)
    ensures r.Ok? ==> r.value == Decorator(CommandDecorator(name), chatType)
    ensures r.Err? ==> r.error == AssertionError
  {
    if !IsCommandArg(name) then Err(AssertionError)
    else if !IsChatTypeArg(chatType) then Err(AssertionError)
    else Ok(Decorator(CommandDecorator(name), chatType))
  }

  /** `event(chat_type, name)`: the name must be a str, then the chat type is checked. */
  function MakeEvent(chatType: Arg, name: Arg): (r: Result<Decorator>)
    ensures r.Ok? <==> name.Scalar? && name.v.Name? && IsChatTypeArg(chatType)
    ensures r.Ok? ==> r.value == Decorator(EventDecorator(name.v.name), chatType)
    ensures r.Err? ==> r.error == AssertionError
  {
    if !(name.Scalar? && name.v.Name?) then Err(AssertionError)
    else if !IsChatTypeArg(chatType) then Err(AssertionError)
    else Ok(Decorator(EventDecorator(name.v.name), chatType))
  }

  /** `_update_tag(f, tag, value)` on the tag sets of `f`. */
  function Updated(tags: Tags, tag: Tag, value: Arg): (r: Tags)
    ensures r.Keys == tags.Keys + {tag}
    ensures r[tag] == (if tag in tags then tags[tag] else {}) + ArgValues(value)
    ensures forall t :: t in tags && t != tag ==> r[t] == tags[t]
  {
    tags[tag := (if tag in tags then tags[tag] else {}) + ArgValues(value)]
  }

  /** The tag a decorator adds besides the chat type tag. */
  function OwnTag(k: Kind): Option<Tag> {
    match k
    case MessageDecorator => Some(MessageTag)
    case CallbackQueryDecorator => Some(CallbackQueryTag)
    case NewChatMemberDecorator => Some(NewChatMemberTag)
    case LeftChatMemberDecorator => Some(LeftChatMemberTag)
    case ActivateDecorator => Some(ActivateTag)
    case DeactivateDecorator => Some(DeactivateTag)
    case CommandDecorator(_) => Some(CommandTag)
    case EventDecorator(_) => Some(EventTag)
    case ChatStateDecorator => None
  }

  /** The value stored under the own tag: the command names for `command`, the
      event name for `event`, and the chat types themselves for the others. */
  function OwnValue(d: Decorator): Arg {
    match d.kind
    case CommandDecorator(name) => name
    case EventDecorator(name) => Scalar(Name(name))
    case _ => d.chatType
  }

  /** Whether calling the decorator raises: new_chat_member and left_chat_member
      call `super(callback_query, self)` on an instance that is not a
      callback_query, which is a TypeError before any tag is set. */
  predicate Raises(k: Kind) {
    k.NewChatMemberDecorator? || k.LeftChatMemberDecorator?
  }

  /** `d(f)`: the tag sets of `f` afterwards, or the TypeError. */
  function Decorated(tags: Tags, d: Decorator): Result<Tags> {
    if Raises(d.kind) then Err(TypeError)
    else
      var t := Updated(tags, ChatTypeTag, d.chatType);
      match OwnTag(d.kind)
      case None => Ok(t)
      case Some(tag) => Ok(Updated(t, tag, OwnValue(d)))
  }

  /** A decorator fails exactly for new_chat_member and left_chat_member; any
      other one adds its chat types under the chat type tag and its own value
      under its own tag, and keeps every tag set the function already had,
      untouched where it is not one of those two tags. */
  lemma DecoratedTags(tags: Tags, d: Decorator)
    ensures Decorated(tags, d).Err? <==> Raises(d.kind)
    ensures Decorated(tags, d).Err? ==> Decorated(tags, d).error == TypeError
    ensures Decorated(tags, d).Ok? ==>
      var t := Decorated(tags, d).value;
      && ChatTypeTag in t && ArgValues(d.chatType) <= t[ChatTypeTag]
      && (OwnTag(d.kind).Some? ==> OwnTag(d.kind).value in t && ArgValues(OwnValue(d)) <= t[OwnTag(d.kind).value])
      && (forall tag :: tag in tags ==> tag in t && tags[tag] <= t[tag])
      && (forall tag :: tag in t && tag != ChatTypeTag && Some(tag) != OwnTag(d.kind) ==> tag in tags && t[tag] == tags[tag])
  {
  }

  /** Lifting a decoration over a previous result. */
  function Then(r: Result<Tags>, d: Decorator): Result<Tags> {
    if r.Err? then r else Decorated(r.value, d)
  }

  /** Adding values a tag set already holds changes nothing. */
  lemma UpdatedAbsorbs(tags: Tags, tag: Tag, value: Arg)
    requires tag in tags && ArgValues(value) <= tags[tag]
    ensures Updated(tags, tag, value) == tags
  {
    var r := Updated(tags, tag, value);
    assert r.Keys == tags.Keys;
    assert r[tag] == tags[tag];
  }

  /** Applying the same decorator again changes nothing. */
  lemma DecorationIdempotent(tags: Tags, d: Decorator)
    ensures Then(Decorated(tags, d), d) == Decorated(tags, d)
  {
    if !Raises(d.kind) {
      DecoratedTags(tags, d);
      var t := Decorated(tags, d).value;
      UpdatedAbsorbs(t, ChatTypeTag, d.chatType);
      if OwnTag(d.kind).Some? {
        UpdatedAbsorbs(t, OwnTag(d.kind).value, OwnValue(d));
      }
    }
  }

  /** The tags a decorator writes to. */
  function Touched(d: Decorator): set<Tag> {
    {ChatTypeTag} + (if OwnTag(d.kind).Some? then {OwnTag(d.kind).value} else {})
  }

  /** The values a decorator adds under `tag`. */
  function Contribution(d: Decorator, tag: Tag): set<TagValue> {
    (if tag == ChatTypeTag then ArgValues(d.chatType) else {})
      + (if OwnTag(d.kind) == Some(tag) then ArgValues(OwnValue(d)) else {})
  }

  /** A decoration is a union, tag by tag. */
  lemma DecoratedAt(tags: Tags, d: Decorator, tag: Tag)
    requires !Raises(d.kind)
    ensures tag in Decorated(tags, d).value <==> tag in tags || tag in Touched(d)
    ensures tag in Decorated(tags, d).value ==>
      Decorated(tags, d).value[tag] == (if tag in tags then tags[tag] else {}) + Contribution(d, tag)
  {
  }

  /** Stacked decorators give the same tag sets in either order. */
  lemma DecorationOrderIrrelevant(tags: Tags, d1: Decorator, d2: Decorator)
    ensures Then(Decorated(tags, d1), d2) == Then(Decorated(tags, d2), d1)
  {
    if !Raises(d1.kind) && !Raises(d2.kind) {
      var t1, t2 := Decorated(tags, d1).value, Decorated(tags, d2).value;
      var a, b := Decorated(t1, d2).value, Decorated(t2, d1).value;
      forall tag
        ensures tag in a <==> tag in b
        ensures tag in a ==> a[tag] == b[tag]
      {
        DecoratedAt(tags, d1, tag);
        DecoratedAt(tags, d2, tag);
        DecoratedAt(t1, d2, tag);
        DecoratedAt(t2, d1, tag);
      }
      assert a.Keys == b.Keys;
      assert a == b;
    }
  }

  /** A method carrying a decoration is one of `methods(obj)`; when the chat
      kind is among the decorator's chat types (or ANY is), extract_handlers
      files it under the decorator's own tag, for a command under each of its
      names and for an event under its name. */
  lemma DecoratedMethodIsFiled(name: HandlerId, tags: Tags, d: Decorator, ct: int)
    requires Decorated(tags, d).Ok?
    requires IsSuitable(ct, ArgValues(d.chatType))
    ensures var m := Attribute(name, true, Decorated(tags, d).value);
      && IsHandlerMethod(m)
      && Suitable(ct, m)
      && (OwnTag(d.kind).Some? ==> FiledUnder(ct, m, OwnTag(d.kind).value, None))
      && (forall k :: k in ArgValues(OwnValue(d)) && OwnTag(d.kind).Some? ==> FiledUnder(ct, m, OwnTag(d.kind).value, Some(k)))
  {
    DecoratedTags(tags, d);
  }

  /** A function object whose attributes the decorators set in place. */
  class Function {
    const name: HandlerId
    var tags: Tags

    constructor (name: HandlerId)
      ensures this.name == name && tags == map[]
    {
      this.name := name;
      tags := map[];
    }

    /** `MethodDecorator._update_tag(self, tag, value)` */
    method UpdateTag(tag: Tag, value: Arg)
      modifies this
      ensures tags == Updated(old(tags), tag, value)
    {
      var curvals := if tag in tags then tags[tag] else {};
      match value {
        case Many(vs) =>
          curvals := curvals + (set v | v in vs);
        case Scalar(v) =>
          curvals := curvals + {v};
      }
      assert curvals == (if tag in tags then tags[tag] else {}) + ArgValues(value);
      tags := tags[tag := curvals];
    }
  }

  /** `d(f)` on a function object: the outcome, and its tags afterwards. */
  method Apply(d: Decorator, f: Function) returns (outcome: Outcome)
    modifies f
    ensures outcome == (if Raises(d.kind) then Raised(TypeError) else Done)
    ensures f.tags == (if Raises(d.kind) then old(f.tags) else Decorated(old(f.tags), d).value)
  {
    if Raises(d.kind) {
      return Raised(TypeError);
    }
    f.UpdateTag(ChatTypeTag, d.chatType);
    var own := OwnTag(d.kind);
    if own.Some? {
      f.UpdateTag(own.value, OwnValue(d));
    }
    outcome := Done;
  }
}
