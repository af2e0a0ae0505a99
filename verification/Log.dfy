// The history of a run: an append-only list of what happened to which container.
module Logs {
  import opened Types

  datatype Kind =
    | StartOk      // Docker started it
    | Healthy      // its healthcheck returned nil
    | Initialized  // its initialize action returned nil
    | ResetOk      // its reset action returned nil
    | ReadySeen    // the pool received its Ready
    | ExitSeen     // the pool received its Exit
    | Put          // the ready buffer accepted it
    | HandedOut    // a checkout received it

  datatype Event = Event(kind: Kind, id: Id)

  type Log = seq<Event>

  function Count(log: Log, kind: Kind, id: Id): nat {
    multiset(log)[Event(kind, id)]
  }

  /** Appending counts the new events and nothing else. */
  lemma CountAppend(log: Log, more: Log, kind: Kind, id: Id)
    ensures Count(log + more, kind, id) == Count(log, kind, id) + Count(more, kind, id)
  {
  }

  lemma CountOne(log: Log, e: Event, kind: Kind, id: Id)
    ensures Count(log + [e], kind, id) == Count(log, kind, id) + Bit(e == Event(kind, id))
  {
  }

  /** The containers of one kind of event, in order. */
  function Ids(log: Log, kind: Kind): seq<Id> {
    if log == [] then []
    else
      var e := log[|log| - 1];
      Ids(log[..|log| - 1], kind) + if e.kind == kind then [e.id] else []
  }

  lemma IdsAppend(log: Log, e: Event, kind: Kind)
    ensures Ids(log + [e], kind) == if e.kind == kind then Ids(log, kind) + [e.id] else Ids(log, kind)
  {
    assert (log + [e])[..|log|] == log;
  }

  lemma {:induction false} IdsCount(log: Log, kind: Kind, id: Id)
    ensures multiset(Ids(log, kind))[id] == Count(log, kind, id)
  {
    if log != [] {
      var before, e := log[..|log| - 1], log[|log| - 1];
      IdsCount(before, kind, id);
      assert log == before + [e];
    }
  }
}
