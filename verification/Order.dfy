// Order: checkouts get containers in the order the pool saw them become ready, and one container's
// messages to the pool are Ready, any number of times, then at most one Exit, then nothing.
module Order {
  import opened Types
  import opened Logs
  import opened Items
  import opened System
  import opened Structure
  import opened Footprint
  import Pools
  import Buffer

  // ---------------------------------------------------------------- first in, first out

  function BeingPut(s: State): seq<Id> {
    if s.pool.pc.Putting? then [s.pool.pc.id] else []
  }

  /** The buffer refines an ideal queue, fed with every Ready of a running pool and read by every checkout. */
  predicate Fifo(s: State) {
    && s.buffer.accepted == Ids(s.hist.log, Put)
    && s.buffer.handed == Ids(s.hist.log, HandedOut)
    && s.buffer.accepted == s.buffer.handed + s.buffer.queue
    && (!Pools.Shut(s.pool) ==> Ids(s.hist.log, ReadySeen) == s.buffer.accepted + BeingPut(s))
    && (Pools.Shut(s.pool) ==> s.buffer.accepted <= Ids(s.hist.log, ReadySeen))
  }

  lemma FifoReady(s: State, id: Id)
    requires Inv(s) && Fifo(s) && Enabled(s, GetReady(id))
    ensures Fifo(DoGetReady(s, id))
  {
    hide ItemStep, Ask, Ids;
    assert Site(s, id);
    IdsAppend(s.hist.log, Event(ReadySeen, id), Put);
    IdsAppend(s.hist.log, Event(ReadySeen, id), HandedOut);
    IdsAppend(s.hist.log, Event(ReadySeen, id), ReadySeen);
  }

  lemma FifoPut(s: State)
    requires Inv(s) && Fifo(s) && Enabled(s, PutReady)
    ensures Fifo(DoPutReady(s))
  {
    hide Ids, Site, LedgerOk;
    IdsAppend(s.hist.log, Event(Put, s.pool.pc.id), Put);
    IdsAppend(s.hist.log, Event(Put, s.pool.pc.id), HandedOut);
    IdsAppend(s.hist.log, Event(Put, s.pool.pc.id), ReadySeen);
  }

  lemma FifoTake(s: State, t: State)
    requires Fifo(s) && s.buffer.queue != []
    requires t.pool == s.pool && t.buffer == Buffer.Take(s.buffer)
    requires t.hist.log == s.hist.log + [Event(HandedOut, s.buffer.queue[0])]
    ensures Fifo(t)
  {
    hide Ids;
    IdsAppend(s.hist.log, Event(HandedOut, s.buffer.queue[0]), Put);
    IdsAppend(s.hist.log, Event(HandedOut, s.buffer.queue[0]), HandedOut);
    IdsAppend(s.hist.log, Event(HandedOut, s.buffer.queue[0]), ReadySeen);
  }

  /** The buffer and the put in progress are as before. */
  predicate FifoSame(s: State, t: State) {
    && t.buffer.queue == s.buffer.queue && t.buffer.accepted == s.buffer.accepted && t.buffer.handed == s.buffer.handed
    && (Pools.Shut(s.pool) ==> Pools.Shut(t.pool))
    && BeingPut(t) == BeingPut(s)
  }

  predicate Unordered(more: Log) {
    more == [] || (|more| == 1 && !more[0].kind.Put? && !more[0].kind.HandedOut? && !more[0].kind.ReadySeen?)
  }

  lemma FifoFrame(s: State, t: State, more: Log)
    requires Fifo(s) && FifoSame(s, t) && t.hist.log == s.hist.log + more && Unordered(more)
    ensures Fifo(t)
  {
    hide Ids;
    if more == [] {
      assert t.hist.log == s.hist.log;
    } else {
      assert more == [more[0]];
      IdsAppend(s.hist.log, more[0], Put);
      IdsAppend(s.hist.log, more[0], HandedOut);
      IdsAppend(s.hist.log, more[0], ReadySeen);
    }
  }

  lemma FifoPool(s: State, a: Action)
    requires Inv(s) && Enabled(s, a) && PoolAct(a) && !a.GetReady? && !a.PutReady?
    ensures FifoSame(s, Apply(s, a))
  {
    hide Ask, KillAll, ItemStep, DoItemAct, Site;
  }

  lemma SpawnerFifo(s: State, t: State)
    requires SpawnerFrame(s, t)
    ensures FifoSame(s, t)
  {
  }

  lemma FifoRest(s: State, a: Action)
    requires Enabled(s, a) && !PoolAct(a) && !SpawnAct(a) && !a.HandOut? && !a.HandOutUnusable?
    ensures FifoSame(s, Apply(s, a))
  {
    hide ItemStep, ItemEnabled, DoItemAct;
    if a.ItemAct? { ItemControl(s, a.id, a.x); }
  }

  lemma FifoStep(s: State, a: Action)
    requires Inv(s) && Fifo(s) && Enabled(s, a)
    ensures Fifo(Apply(s, a))
  {
    hide Fifo, Inv, FifoSame, Apply, Enabled, Added, Unordered;
    PoolApplied(s, a);
    if a.GetReady? { FifoReady(s, a.id); }
    else if a.PutReady? { FifoPut(s); }
    else if a.HandOut? || a.HandOutUnusable? { FifoHandOut(s, a); }
    else {
      AddedStep(s, a);
      AddedUnordered(s, a);
      if PoolAct(a) { FifoPool(s, a); }
      else if SpawnAct(a) { FrameSpawner(s, a); SpawnerFifo(s, Apply(s, a)); }
      else { FifoRest(s, a); }
      FifoFrame(s, Apply(s, a), Added(s, a));
    }
  }

  lemma FifoHandOut(s: State, a: Action)
    requires Inv(s) && Fifo(s) && Enabled(s, a) && (a.HandOut? || a.HandOutUnusable?)
    ensures Fifo(Apply(s, a))
  {
    hide Fifo, Site, LedgerOk, Buffer.Take;
    FifoTake(s, Apply(s, a));
  }

  lemma AddedUnordered(s: State, a: Action)
    requires !a.GetReady? && !a.PutReady? && !a.HandOut? && !a.HandOutUnusable?
    ensures Unordered(Added(s, a))
  {
  }

  lemma {:induction false} FifoAlways(cfg: Config, acts: seq<Action>)
    requires Legal(cfg, acts)
    ensures Fifo(After(cfg, acts))
    decreases |acts|
  {
    if acts != [] {
      hide Fifo, Inv, Apply, Enabled;
      var before, s, a := Last(cfg, acts);
      FifoAlways(cfg, before);
      FifoStep(s, a);
    }
  }

  /** Checkouts receive containers exactly in the order they were put, which is the order in which the
      pool saw them become ready; what is left of the puts is the queue. */
  lemma CheckoutOrder(cfg: Config, acts: seq<Action>)
    requires Legal(cfg, acts)
    ensures var s := After(cfg, acts);
      && Ids(s.hist.log, HandedOut) + s.buffer.queue == Ids(s.hist.log, Put)
      && Ids(s.hist.log, Put) <= Ids(s.hist.log, ReadySeen)
      && (!Pools.Shut(s.pool) && !s.pool.pc.Putting? ==> Ids(s.hist.log, Put) == Ids(s.hist.log, ReadySeen))
  {
    FifoAlways(cfg, acts);
  }

  // ---------------------------------------------------------------- one container's messages

  /** The history and the pool's books agree on who has exited. */
  predicate ExitNoted(s: State, id: Id) {
    id in s.hist.exited <==> Event(ExitSeen, id) in s.hist.log
  }

  /** Ready and Exit only from a container that has not exited. */
  ghost predicate Orderly(log: Log) {
    forall j :: 0 <= j < |log| && (log[j].kind.ReadySeen? || log[j].kind.ExitSeen?) ==>
      Event(ExitSeen, log[j].id) !in log[..j]
  }

  lemma OrderlyAppend(log: Log, e: Event)
    requires Orderly(log)
    requires e.kind.ReadySeen? || e.kind.ExitSeen? ==> Event(ExitSeen, e.id) !in log
    ensures Orderly(log + [e])
  {
    forall j | 0 <= j < |log + [e]| && ((log + [e])[j].kind.ReadySeen? || (log + [e])[j].kind.ExitSeen?)
      ensures Event(ExitSeen, (log + [e])[j].id) !in (log + [e])[..j]
    {
      assert (log + [e])[..j] == if j < |log| then log[..j] else log;
    }
  }

  ghost predicate Protocol(s: State) {
    Orderly(s.hist.log) && forall id :: ExitNoted(s, id)
  }

  lemma OrderlyStep(s: State, a: Action)
    requires Inv(s) && Protocol(s) && Enabled(s, a)
    ensures Orderly(Apply(s, a).hist.log)
  {
    hide Orderly, Apply;
    AddedStep(s, a);
    if a.GetReady? || a.GetExit? {
      assert Site(s, a.id) && ExitNoted(s, a.id);
    }
    if Added(s, a) == [] {
      assert s.hist.log + Added(s, a) == s.hist.log;
    } else {
      OrderlyAppend(s.hist.log, Added(s, a)[0]);
    }
  }

  lemma ExitNotedStep(s: State, a: Action, k: Id)
    requires Inv(s) && Enabled(s, a) && ExitNoted(s, k)
    ensures ExitNoted(Apply(s, a), k)
  {
    hide Apply, Enabled, Inv;
    AddedStep(s, a);
  }

  lemma {:induction false} ProtocolAlways(cfg: Config, acts: seq<Action>)
    requires Legal(cfg, acts)
    ensures Protocol(After(cfg, acts))
    decreases |acts|
  {
    if acts != [] {
      hide Inv, Apply, Enabled, Orderly, ExitNoted;
      var before, s, a := Last(cfg, acts);
      ProtocolAlways(cfg, before);
      OrderlyStep(s, a);
      forall k ensures ExitNoted(Apply(s, a), k) {
        assert ExitNoted(s, k);
        ExitNotedStep(s, a, k);
      }
    }
  }

  /** Once the pool has received a container's Exit it receives nothing more from it. */
  lemma NothingAfterExit(cfg: Config, acts: seq<Action>, i: nat, j: nat)
    requires Legal(cfg, acts)
    requires i < j < |After(cfg, acts).hist.log|
    requires After(cfg, acts).hist.log[i].kind.ExitSeen?
    requires After(cfg, acts).hist.log[j].id == After(cfg, acts).hist.log[i].id
    ensures !After(cfg, acts).hist.log[j].kind.ReadySeen? && !After(cfg, acts).hist.log[j].kind.ExitSeen?
  {
    ProtocolAlways(cfg, acts);
    var log := After(cfg, acts).hist.log;
    assert log[..j][i] == log[i];
  }

  /** Every message an item has for the pool names a container the pool tracks: the lookups in the
      Ready arm always succeed, running or draining, and an exit is never of a stranger. */
  lemma MessagesAreFromTracked(cfg: Config, acts: seq<Action>, id: Id)
    requires Legal(cfg, acts)
    requires Enabled(After(cfg, acts), GetReady(id)) || Enabled(After(cfg, acts), GetExit(id))
    ensures id in After(cfg, acts).pool.items
  {
    InvAlways(cfg, acts);
    assert Site(After(cfg, acts), id);
  }

  /** A start event is never swallowed: when it is delivered to an item that still runs, the item has
      been joined and performs the one start of its container. */
  lemma StartNotSwallowed(cfg: Config, acts: seq<Action>, id: Id)
    requires Legal(cfg, acts)
    requires Enabled(After(cfg, acts), ItemAct(id, Deliver(EvStart)))
    ensures var s, t := After(cfg, acts), Apply(After(cfg, acts), ItemAct(id, Deliver(EvStart)));
      && !s.items[id].pc.WaitJoin?
      && (!s.items[id].exitedClosed ==>
            s.items[id].container.start.NotStarted? && t.items[id].container.start.Starting?)
  {
    InvAlways(cfg, acts);
    assert Site(After(cfg, acts), id);
  }
}
