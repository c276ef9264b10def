/** What chatstate/state.py and chatstate/chatstate.py share line for line:
    the event lookup of `handle_event` and the idle eviction of
    `_clean_idle_states`, stated on values. */
module Sessions {
  import opened Base
  import opened Dicts
  import opened Effects
  import opened Reflection

  /** `table.get(key) or list()`: an absent key and an empty list both give
      no handlers. */
  function Listed(table: map<TagValue, seq<HandlerId>>, key: TagValue): seq<HandlerId> {
    if key in table then table[key] else []
  }

  /** The event dict handed to `handle_event`; its 'name' entry selects the
      subscribers. */
  type Event = map<string, string>

  /** `self._event_handlers.get(event['name']) or list()`: KeyError when the
      event has no name. */
  function EventHandlers(events: map<TagValue, seq<HandlerId>>, event: Event): (r: Result<seq<HandlerId>>)
    ensures r.Err? <==> "name" !in event
    ensures r.Err? ==> r.error == KeyError
    ensures r.Ok? && Name(event["name"]) !in events ==> r.value == []
    ensures r.Ok? && Name(event["name"]) in events ==> r.value == events[Name(event["name"])]
  {
    if "name" !in event then Err(KeyError) else Ok(Listed(events, Name(event["name"])))
  }

  /** An event nobody subscribed to runs no handler, and only the subscribers
      of the event's own name ever run. */
  lemma UnknownEventRunsNothing(events: map<TagValue, seq<HandlerId>>, event: Event, h: HandlerId)
    requires "name" in event
    ensures Name(event["name"]) !in events ==> EventHandlers(events, event) == Ok([])
    ensures h in EventHandlers(events, event).value ==> Name(event["name"]) in events && h in events[Name(event["name"])]
  {
  }

  // ----- The idle sweep -----

  /** What `_clean_idle_states` reads of a chat state: its chat id, when it
      was last active and its deactivate handler. */
  datatype Session = Session(chatId: int, lastActive: int, deactivate: Option<HandlerId>)

  /** `time.time() - self._max_idle_minutes * 60`, in integer seconds. */
  function IdleLimit(now: int, maxIdleMinutes: int): (r: int)
    ensures maxIdleMinutes >= 0 ==> r <= now
  {
    now - maxIdleMinutes * 60
  }

  /** `state.last_active < limit` */
  predicate Expired(s: Session, limit: int) {
    s.lastActive < limit
  }

  /** `deactivation_list`: the chat ids of the expired sessions, in table order. */
  function ExpiredIds(ss: seq<Session>, limit: int): seq<int> {
    if ss == [] then []
    else
      var s := ss[|ss| - 1];
      ExpiredIds(ss[..|ss| - 1], limit) + (if Expired(s, limit) then [s.chatId] else [])
  }

  /** The deactivate handlers `on_deactivate` calls along the way. */
  function DeactivateCalls(ss: seq<Session>, limit: int): seq<Call> {
    if ss == [] then []
    else
      var s := ss[|ss| - 1];
      DeactivateCalls(ss[..|ss| - 1], limit)
        + (if Expired(s, limit) && s.deactivate.Some? then [Call(s.chatId, s.deactivate.value)] else [])
  }

  /** One more session extends the deactivation list and the calls by its own. */
  lemma ExpiredStep(ss: seq<Session>, i: nat, limit: int)
    requires i < |ss|
    ensures ExpiredIds(ss[..i + 1], limit) == ExpiredIds(ss[..i], limit) + (if Expired(ss[i], limit) then [ss[i].chatId] else [])
    ensures DeactivateCalls(ss[..i + 1], limit) == DeactivateCalls(ss[..i], limit)
      + (if Expired(ss[i], limit) && ss[i].deactivate.Some? then [Call(ss[i].chatId, ss[i].deactivate.value)] else [])
  {
    assert ss[..i + 1][..i] == ss[..i];
  }

  ghost predicate DistinctIds(ss: seq<Session>) {
    forall i, j :: 0 <= i < j < |ss| ==> ss[i].chatId != ss[j].chatId
  }

  /** The deactivation list holds exactly the chat ids of the expired
      sessions, and holds each once when the chat ids are distinct. */
  lemma {:induction false} ExpiredIdsExactly(ss: seq<Session>, limit: int)
    ensures forall id :: id in ExpiredIds(ss, limit) <==>
      exists i :: 0 <= i < |ss| && ss[i].chatId == id && Expired(ss[i], limit)
    ensures DistinctIds(ss) ==> Distinct(ExpiredIds(ss, limit))
  {
    if ss != [] {
      var p, s := ss[..|ss| - 1], ss[|ss| - 1];
      ExpiredIdsExactly(p, limit);
      assert forall i :: 0 <= i < |p| ==> p[i] == ss[i];
      if DistinctIds(ss) {
        assert DistinctIds(p);
        assert s.chatId !in ExpiredIds(p, limit);
      }
    }
  }

  /** `on_deactivate` runs a deactivate handler only for an expired session,
      and runs the one of every expired session that has one. */
  lemma {:induction false} DeactivateCallsExactly(ss: seq<Session>, limit: int)
    ensures forall c :: c in DeactivateCalls(ss, limit) <==>
      exists i :: 0 <= i < |ss| && Expired(ss[i], limit) && ss[i].chatId == c.chatId && ss[i].deactivate == Some(c.handler)
  {
    if ss != [] {
      var p := ss[..|ss| - 1];
      DeactivateCallsExactly(p, limit);
      assert forall i :: 0 <= i < |p| ==> p[i] == ss[i];
    }
  }

  /** `ss` are the sessions of the table's values, in its order. */
  predicate SessionsOfTable<V>(d: Dict<int, V>, ss: seq<Session>) {
    |ss| == |d.order| && forall i :: 0 <= i < |ss| ==> ss[i].chatId == d.order[i]
  }

  /** The deletions of `_clean_idle_states` as evidently intended: one `del`
      per collected chat id. */
  function CleanIdle<V>(d: Dict<int, V>, ss: seq<Session>, limit: int): (Dict<int, V>, Outcome) {
    DeleteEach(d, ExpiredIds(ss, limit))
  }

  /** The sweep raises nothing, removes exactly the expired sessions and keeps
      every other one with the same value. */
  lemma CleanIdleEvictsExactlyExpired<V>(d: Dict<int, V>, ss: seq<Session>, limit: int)
    requires SessionsOfTable(d, ss)
    ensures CleanIdle(d, ss, limit).1 == Done
    ensures var after := CleanIdle(d, ss, limit).0;
      && (forall i :: 0 <= i < |ss| ==> (ss[i].chatId in after.items <==> !Expired(ss[i], limit)))
      && (forall k :: k in after.items ==> k in d.items && after.items[k] == d.items[k])
  {
    var ids := ExpiredIds(ss, limit);
    assert DistinctIds(ss);
    ExpiredIdsExactly(ss, limit);
    assert forall k :: k in ids ==> k in d.items;
    DeleteEachPresent(d, ids);
  }

  /** The deletions as written: after the first `del`, the log line names the
      undefined `chat_id` and raises NameError; with nothing to delete, the
      rescheduling through the never-assigned `_scheduler` raises
      AttributeError. */
  function CleanIdleAsWritten<V>(d: Dict<int, V>, ss: seq<Session>, limit: int): (r: (Dict<int, V>, Outcome))
    ensures r.1 != Done
  {
    var ids := ExpiredIds(ss, limit);
    if ids == [] then (d, Raised(AttributeError))
    else if ids[0] !in d.items then (d, Raised(KeyError))
    else (Remove(d, ids[0]), Raised(NameError))
  }

  /** With two expired sessions the sweep as written evicts only the first
      and raises, while the intended one evicts both. */
  lemma CleanIdleAsWrittenKeepsExpired<V>(d: Dict<int, V>)
    requires d.order == [1, 2]
    ensures var ss := [Session(1, 0, None), Session(2, 0, None)];
      && CleanIdleAsWritten(d, ss, 10).1 == Raised(NameError)
      && 2 in CleanIdleAsWritten(d, ss, 10).0.items
      && CleanIdle(d, ss, 10).1 == Done
      && CleanIdle(d, ss, 10).0.items == map[]
  {
    var ss := [Session(1, 0, None), Session(2, 0, None)];
    assert ss[..1] == [ss[0]] && ss[..1][..0] == [];
    assert ExpiredIds(ss, 10) == [1, 2];
    assert 1 in d.items && 2 in d.items;
    CleanIdleEvictsExactlyExpired(d, ss, 10);
    var after := CleanIdle(d, ss, 10).0;
    assert ss[0].chatId == 1 && ss[1].chatId == 2;
    assert forall k :: k in after.items ==> k in d.order;
    assert after.items == map[];
  }
}
