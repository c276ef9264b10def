/** The chat kinds of the package root: six integer constants, the CHAT_TYPE
    tuple naming them, and the CHAT_TYPE_NAME table from the platform's chat-type
    names to kinds. */
module ChatTypes {
  import opened Base

  const PRIVATE: int := 0
  const GROUP: int := 1
  const CHANNEL: int := 2
  const SUPERGROUP: int := 3
  const ANY: int := 4
  const NONE: int := 5

  /** The fields of the ChatType namedtuple and the values CHAT_TYPE gives them. */
  const ChatTypeFields: seq<string> := ["PRIVATE", "GROUP", "CHANNEL", "SUPERGROUP", "ANY", "NONE"]
  const ChatTypeValues: seq<int> := [PRIVATE, GROUP, CHANNEL, SUPERGROUP, ANY, NONE]

  /** The fields of the ChatTypeName namedtuple and the values CHAT_TYPE_NAME gives them. */
  const ChatTypeNames: seq<string> := ["private", "group", "channel", "supergroup"]
  const ChatTypeNameValues: seq<int> := [PRIVATE, GROUP, CHANNEL, SUPERGROUP]

  /** `k in CHAT_TYPE`: one of the six kinds. */
  predicate IsChatType(k: int) {
    k in ChatTypeValues
  }

  /** `getattr(t, field)` on a namedtuple with these fields and values; None
      where Python raises AttributeError. */
  function Field(fields: seq<string>, values: seq<int>, field: string): (r: Option<int>)
    requires |fields| == |values|
    ensures r.None? <==> field !in fields
    ensures r.Some? ==> exists i :: 0 <= i < |fields| && fields[i] == field && r.value == values[i]
    ensures forall i :: 0 <= i < |fields| && fields[i] == field && field !in fields[..i] ==> r == Some(values[i])
  {
    if fields == [] then None
    else if fields[0] == field then Some(values[0])
    else
      var r := Field(fields[1..], values[1..], field);
      assert forall i :: 1 <= i < |fields| ==> fields[1..][i - 1] == fields[i] && values[1..][i - 1] == values[i];
      assert forall i :: 1 <= i < |fields| ==> fields[..i] == [fields[0]] + fields[1..][..i - 1];
      r
  }

  /** `getattr(CHAT_TYPE_NAME, name)`: the kind of a platform chat-type name. */
  function KindOfName(name: string): Option<int> {
    Field(ChatTypeNames, ChatTypeNameValues, name)
  }

  /** The six kinds are the distinct integers 0 to 5, listed in CHAT_TYPE in
      the order of its fields. */
  lemma ChatTypeIsRangeSix()
    ensures |ChatTypeValues| == |ChatTypeFields| == 6
    ensures forall i :: 0 <= i < 6 ==> ChatTypeValues[i] == i
    ensures forall k :: IsChatType(k) <==> 0 <= k < 6
  {
  }

  /** CHAT_TYPE_NAME maps the four platform names to the four concrete kinds,
      and every other name is an AttributeError. */
  lemma NameTable(name: string)
    ensures KindOfName("private") == Some(PRIVATE)
    ensures KindOfName("group") == Some(GROUP)
    ensures KindOfName("channel") == Some(CHANNEL)
    ensures KindOfName("supergroup") == Some(SUPERGROUP)
    ensures KindOfName(name).None? <==> name !in {"private", "group", "channel", "supergroup"}
  {
    NameAt(1);
    NameAt(2);
    NameAt(3);
    assert name in ChatTypeNames <==> name in {"private", "group", "channel", "supergroup"};
  }

  /** The four platform names differ pairwise (by their first letter). */
  lemma NamesDiffer()
    ensures "private" != "group" && "private" != "channel" && "private" != "supergroup"
    ensures "group" != "channel" && "group" != "supergroup" && "channel" != "supergroup"
  {
    assert "private"[0] == 'p' && "group"[0] == 'g' && "channel"[0] == 'c' && "supergroup"[0] == 's';
  }

  /** The `i`-th platform name is not among the ones before it. */
  lemma NameAt(i: nat)
    requires 0 < i < |ChatTypeNames|
    ensures ChatTypeNames[i] !in ChatTypeNames[..i]
  {
    assert ChatTypeNames[..i] == ChatTypeNames[..i - 1] + [ChatTypeNames[i - 1]];
    NamesDiffer();
    if i > 1 {
      NameAt(i - 1);
    }
  }

  /** No platform name classifies a chat as the wildcard ANY or as NONE. */
  lemma NameNeverWildcard(name: string)
    ensures KindOfName(name) != Some(ANY)
    ensures KindOfName(name) != Some(NONE)
    ensures KindOfName(name).Some? ==> IsChatType(KindOfName(name).value)
  {
  }
}
