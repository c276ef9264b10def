/** What running the dispatch code leaves behind, in the order it happens: the
    tasks handed to the worker pool, and the calls made into application handlers. */
module Effects {
  import opened Base

  /** The worker pool as a FIFO log of submitted tasks: `notify` appends one
      task, and the workers that would run them are not modelled. */
  class Pool<T> {
    var tasks: seq<T>
    var running: bool

    constructor ()
      ensures tasks == [] && !running
    {
      tasks := [];
      running := false;
    }

    method Notify(task: T)
      modifies this
      ensures tasks == old(tasks) + [task] && running == old(running)
    {
      tasks := tasks + [task];
    }

    method Start()
      modifies this
      ensures running && tasks == old(tasks)
    {
      running := true;
    }

    method Stop()
      modifies this
      ensures !running && tasks == old(tasks)
    {
      running := false;
    }
  }

  /** One call of an application handler on behalf of a chat. */
  datatype Call = Call(chatId: int, handler: HandlerId)

  /** The calls made into application handlers, oldest first. */
  class Journal {
    var calls: seq<Call>

    constructor ()
      ensures calls == []
    {
      calls := [];
    }

    method Record(chatId: int, handler: HandlerId)
      modifies this
      ensures calls == old(calls) + [Call(chatId, handler)]
    {
      calls := calls + [Call(chatId, handler)];
    }
  }

  /** The journal entries of calling `handlers` in turn for one chat. */
  function CallsOf(chatId: int, handlers: seq<HandlerId>): (r: seq<Call>)
    ensures |r| == |handlers|
    ensures forall i :: 0 <= i < |r| ==> r[i] == Call(chatId, handlers[i])
  {
    seq(|handlers|, i requires 0 <= i < |handlers| => Call(chatId, handlers[i]))
  }
}
