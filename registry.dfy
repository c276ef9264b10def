/** The class registry the three dispatcher revisions share in shape: a map
    from chat kind to handler class, filled by `register_class` and read with
    an ANY fallback (chatstate/context.py, chatstate/state.py and
    chatstate/chatstate.py). The class type is a parameter. */
module Registry {
  import opened Base
  import opened Dicts
  import opened ChatTypes
  import opened Reflection

  /** One pass of the loop of `register_class`: the revision's own check on
      the chat type (`valid`), then `assert not reg.get(chat_type)`, then the
      assignment. */
  function RegisterOne<C>(reg: map<TagValue, C>, cls: C, v: TagValue, valid: TagValue -> bool): (map<TagValue, C>, Outcome) {
    if !valid(v) then (reg, Raised(AssertionError))
    else if v in reg then (reg, Raised(AssertionError))
    else (reg[v := cls], Done)
  }

  /** The loop of `register_class` over the chat types in enumeration order;
      the kinds registered before a failed assertion stay registered. */
  function RegisterAll<C>(reg: map<TagValue, C>, cls: C, order: seq<TagValue>, valid: TagValue -> bool): (map<TagValue, C>, Outcome) {
    if order == [] then (reg, Done)
    else
      var (r, o) := RegisterAll(reg, cls, order[..|order| - 1], valid);
      if o != Done then (r, o) else RegisterOne(r, cls, order[|order| - 1], valid)
  }

  /** `register_class` succeeds exactly when every declared chat type passes
      the check and none is registered yet; it then maps each of them to the
      class. It never changes or drops a registration made earlier. */
  lemma {:induction false} RegisterAllIff<C>(reg: map<TagValue, C>, cls: C, order: seq<TagValue>, valid: TagValue -> bool)
    requires Distinct(order)
    ensures var (r, o) := RegisterAll(reg, cls, order, valid);
      && (o == Done <==> forall v :: v in order ==> valid(v) && v !in reg)
      && (o != Done ==> o == Raised(AssertionError))
      && (o == Done ==>
            && r.Keys == reg.Keys + (set v | v in order)
            && (forall v :: v in order ==> r[v] == cls))
      && (forall v :: v in reg ==> v in r && r[v] == reg[v])
  {
    if order != [] {
      var p := order[..|order| - 1];
      var v := order[|order| - 1];
      assert Distinct(p);
      RegisterAllIff(reg, cls, p, valid);
      assert forall x :: x in order <==> x in p || x == v;
      assert v !in p;
    }
  }

  lemma {:induction false} RegisterFailureSticks<C>(reg: map<TagValue, C>, cls: C, order: seq<TagValue>, valid: TagValue -> bool, i: nat)
    requires i <= |order| && RegisterAll(reg, cls, order[..i], valid).1 != Done
    ensures RegisterAll(reg, cls, order, valid) == RegisterAll(reg, cls, order[..i], valid)
  {
    if i < |order| {
      assert order[..|order| - 1][..i] == order[..i];
      RegisterFailureSticks(reg, cls, order[..|order| - 1], valid, i);
    } else {
      assert order[..i] == order;
    }
  }

  /** `hcls = reg.get(chat_type)`, then `if not hcls and reg.get(ANY): hcls = reg[ANY]`. */
  function Fallback<C>(reg: map<TagValue, C>, chatType: int): Option<C> {
    if Kind(chatType) in reg then Some(reg[Kind(chatType)])
    else if Kind(ANY) in reg then Some(reg[Kind(ANY)])
    else None
  }

  /** The class for the chat's own kind wins; ANY is used only when the kind
      has none; with neither there is no class. Registering a class for ANY
      never changes what a kind that has its own class resolves to. */
  lemma FallbackPrefersSpecific<C>(reg: map<TagValue, C>, chatType: int, cls: C)
    ensures Kind(chatType) in reg ==> Fallback(reg, chatType) == Some(reg[Kind(chatType)])
    ensures Kind(chatType) !in reg && Kind(ANY) in reg ==> Fallback(reg, chatType) == Some(reg[Kind(ANY)])
    ensures Kind(chatType) !in reg && Kind(ANY) !in reg ==> Fallback(reg, chatType) == None
    ensures Fallback(reg, chatType).None? <==> Kind(chatType) !in reg && Kind(ANY) !in reg
    ensures chatType != ANY && Kind(chatType) in reg ==>
      Fallback(reg[Kind(ANY) := cls], chatType) == Fallback(reg, chatType)
  {
  }
}
