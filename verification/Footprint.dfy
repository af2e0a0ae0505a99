// What the plain steps, the ones that move no container between the buffer, the clients and the
// pool's hands, can do to one container.
module Footprint {
  import opened Types
  import opened Logs
  import opened Items
  import opened System
  import opened Structure
  import Spawner
  import Buffer

  predicate PuttingNow(s: State, id: Id) {
    s.pool.pc.Putting? && s.pool.pc.id == id
  }

  function Queued(queue: seq<Id>, id: Id): nat {
    multiset(queue)[id]
  }

  predicate PlainAct(a: Action) {
    || a.Initialize? || a.TakeNext? || a.SeeNextClosed? || a.JoinItem? || a.GetExit? || a.SendRequest?
    || a.LoopTop? || a.Shutdown? || (SpawnAct(a) && !a.CreateItem?)
    || a.CloseOut? || a.CallStop? || a.StopSeesDone? || a.StopWaitOver?
  }

  /** An item the plain steps have at most joined, asked to stop, or seen to exit. */
  predicate Nudged(cfg: Config, i: ItemState, j: ItemState) {
    || j == i
    || j == ItemStep(cfg, i, AskKill)
    || (i.pc.WaitJoin? && j == ItemStep(cfg, i, Items.Joined))
    || (i.pc.SendingExit? && j == ItemStep(cfg, i, TakeExit))
  }

  /** The buffer's queue and the clients are as before, and no put has begun. */
  predicate SameOutside(s: State, t: State) {
    && t.buffer.queue == s.buffer.queue && t.held == s.held && t.returning == s.returning
    && (t.pool.pc.Putting? ==> t.pool.pc == s.pool.pc)
  }

  predicate PlainEffect(s: State, a: Action, t: State, k: Id) {
    && SameOutside(s, t)
    && (k in t.items <==> k in s.items)
    && (k in s.items ==> Nudged(s.cfg, s.items[k], t.items[k]))
    && t.hist.log == (if a.GetExit? then s.hist.log + [Event(ExitSeen, a.id)] else s.hist.log)
    && t.hist.exited == if a.GetExit? then s.hist.exited + {a.id} else s.hist.exited
  }

  lemma PlainTake(s: State, k: Id)
    requires Inv(s) && Enabled(s, TakeNext)
    ensures PlainEffect(s, TakeNext, DoTakeNext(s), k)
  {
    hide ItemStep, Spawner.Sent, Spawner.Fill, Spawner.Launched;
  }

  lemma PlainJoin(s: State, k: Id)
    requires Inv(s) && Enabled(s, JoinItem)
    ensures PlainEffect(s, JoinItem, DoJoinItem(s), k)
  {
    hide ItemStep;
    assert Site(s, s.pool.pc.id);
  }

  lemma PlainExit(s: State, id: Id, k: Id)
    requires Inv(s) && Enabled(s, GetExit(id))
    ensures PlainEffect(s, GetExit(id), DoGetExit(s, id), k)
  {
    hide ItemStep;
  }

  lemma PlainTop(s: State, k: Id)
    requires Inv(s) && Enabled(s, LoopTop)
    ensures PlainEffect(s, LoopTop, DoLoopTop(s), k)
  {
    hide ItemStep;
  }

  lemma PlainShutdown(s: State, k: Id)
    requires Inv(s) && Enabled(s, Shutdown)
    ensures PlainEffect(s, Shutdown, DoShutdown(s), k)
  {
    hide ItemStep;
  }

  lemma PlainRequest(s: State, k: Id)
    requires Inv(s) && Enabled(s, SpawnRequest)
    ensures PlainEffect(s, SpawnRequest, DoSpawnRequest(s), k)
  {
    hide Spawner.Fill, Spawner.Launched;
  }

  lemma PlainError(s: State, k: Id)
    requires Inv(s) && Enabled(s, SpawnError)
    ensures PlainEffect(s, SpawnError, DoSpawnError(s), k)
  {
    hide Spawner.Fill, Spawner.Launched;
  }

  lemma PlainReceive(s: State, id: Id, k: Id)
    requires Inv(s) && Enabled(s, SpawnItem(id))
    ensures PlainEffect(s, SpawnItem(id), DoSpawnItem(s, id), k)
  {
    hide Spawner.Receive;
  }

  lemma PlainSpawner(s: State, a: Action, k: Id)
    requires Inv(s) && Enabled(s, a) && (a.SpawnRequestsClosed? || a.SpawnDrained? || a.CreateFails?)
    ensures PlainEffect(s, a, Apply(s, a), k)
  {
    hide Inv, DoItemAct;
  }

  lemma PlainInitialize(s: State, k: Id)
    requires Inv(s) && Enabled(s, Initialize)
    ensures PlainEffect(s, Initialize, DoInitialize(s), k)
  {
  }

  lemma PlainSend(s: State, k: Id)
    requires Inv(s) && Enabled(s, SendRequest)
    ensures PlainEffect(s, SendRequest, DoSendRequest(s), k)
  {
  }

  lemma PlainClosed(s: State, k: Id)
    requires Inv(s) && Enabled(s, SeeNextClosed)
    ensures PlainEffect(s, SeeNextClosed, DoSeeNextClosed(s), k)
  {
  }

  lemma PlainRest(s: State, a: Action, k: Id)
    requires Inv(s) && Enabled(s, a) && (a.CloseOut? || a.CallStop? || a.StopSeesDone? || a.StopWaitOver?)
    ensures PlainEffect(s, a, Apply(s, a), k)
  {
    hide Inv, ItemStep, DoItemAct;
  }

  lemma PlainStep(s: State, a: Action, k: Id)
    requires Inv(s) && Enabled(s, a) && PlainAct(a)
    ensures PlainEffect(s, a, Apply(s, a), k)
  {
    hide PlainEffect, Inv, Apply, Enabled;
    PoolApplied(s, a);
    OtherApplied(s, a);
    if a.TakeNext? { PlainTake(s, k); }
    else if a.JoinItem? { PlainJoin(s, k); }
    else if a.GetExit? { PlainExit(s, a.id, k); }
    else if a.LoopTop? { PlainTop(s, k); }
    else if a.Shutdown? { PlainShutdown(s, k); }
    else if a.Initialize? { PlainInitialize(s, k); }
    else if a.SendRequest? { PlainSend(s, k); }
    else if a.SeeNextClosed? { PlainClosed(s, k); }
    else if a.SpawnRequest? { PlainRequest(s, k); }
    else if a.SpawnError? { PlainError(s, k); }
    else if a.SpawnItem? { PlainReceive(s, a.id, k); }
    else if SpawnAct(a) { PlainSpawner(s, a, k); }
    else { PlainRest(s, a, k); }
  }

  /** Taking from the queue takes one occurrence of its head; putting adds one at its end. */
  lemma TakeQueued(b: Buffer.BufferState, k: Id)
    requires b.queue != []
    ensures Queued(Buffer.Take(b).queue, k) == Queued(b.queue, k) - Bit(k == b.queue[0])
  {
    assert b.queue == [b.queue[0]] + b.queue[1..];
  }

  lemma PutQueued(b: Buffer.BufferState, id: Id, k: Id)
    ensures Queued(Buffer.Put(b, id).queue, k) == Queued(b.queue, k) + Bit(k == id)
  {
  }

  /** One client more, or fewer, holds the container; nobody else's holdings change. */
  lemma HoldersAdd(held: map<Id, multiset<Client>>, id: Id, client: Client, k: Id)
    ensures |Holders(held[id := Add(Holders(held, id), client)], k)| == |Holders(held, k)| + Bit(k == id)
  {
  }

  lemma HoldersRemove(held: map<Id, multiset<Client>>, id: Id, client: Client, k: Id)
    requires client in Holders(held, id)
    ensures |Holders(held[id := Remove(Holders(held, id), client)], k)| == |Holders(held, k)| - Bit(k == id)
  {
  }

  lemma BagAdd(m: multiset<Id>, id: Id, k: Id)
    ensures Add(m, id)[k] == m[k] + Bit(k == id)
  {
  }

  lemma BagRemove(m: multiset<Id>, id: Id, k: Id)
    requires id in m
    ensures Remove(m, id)[k] == m[k] - Bit(k == id)
  {
  }

  // ---------------------------------------------------------------- what a step adds to the history

  function Added(s: State, a: Action): Log {
    match a
    case GetReady(id) => [Event(ReadySeen, id)]
    case GetExit(id) => [Event(ExitSeen, id)]
    case PutReady => if s.pool.pc.Putting? && !s.buffer.inClosed then [Event(Put, s.pool.pc.id)] else []
    case HandOut(_) => if s.buffer.queue != [] && !s.buffer.outClosed then [Event(HandedOut, s.buffer.queue[0])] else []
    case HandOutUnusable => if s.buffer.queue != [] && !s.buffer.outClosed then [Event(HandedOut, s.buffer.queue[0])] else []
    case ItemAct(id, x) => (match ItemNote(s.cfg, x) case None => [] case Some(kind) => [Event(kind, id)])
    case _ => []
  }

  lemma AddedReady(s: State, id: Id)
    requires Enabled(s, GetReady(id))
    ensures DoGetReady(s, id).hist.log == s.hist.log + Added(s, GetReady(id))
    ensures DoGetReady(s, id).hist.exited == s.hist.exited
  {
    hide Ask, ItemStep;
  }

  lemma AddedReturned(s: State, id: Id)
    requires Enabled(s, GetReturned(id))
    ensures DoGetReturned(s, id).hist.log == s.hist.log + Added(s, GetReturned(id))
    ensures DoGetReturned(s, id).hist.exited == s.hist.exited
  {
    hide Ask, ItemStep;
    assert s.hist.log + [] == s.hist.log;
  }

  lemma AddedItem(s: State, id: Id, x: ItemInput)
    requires Enabled(s, ItemAct(id, x))
    ensures DoItemAct(s, id, x).hist.log == s.hist.log + Added(s, ItemAct(id, x))
    ensures DoItemAct(s, id, x).hist.exited == s.hist.exited
  {
    hide ItemStep, ItemEnabled, ItemNote;
  }

  lemma AddedPut(s: State)
    requires Enabled(s, PutReady)
    ensures DoPutReady(s).hist.log == s.hist.log + Added(s, PutReady)
    ensures DoPutReady(s).hist.exited == s.hist.exited
  {
    hide Buffer.Put;
    assert s.hist.log + [] == s.hist.log;
  }

  lemma AddedHandOut(s: State, a: Action)
    requires Enabled(s, a) && (a.HandOut? || a.HandOutUnusable?)
    ensures Apply(s, a).hist.log == s.hist.log + Added(s, a)
    ensures Apply(s, a).hist.exited == s.hist.exited
  {
    hide HoldersOf, Buffer.Take, Add;
    if s.buffer.outClosed {
      assert s.hist.log + [] == s.hist.log;
    }
  }

  lemma AddedRest(s: State, a: Action)
    requires Enabled(s, a) && (a.ClientReturn? || a.StrayReturn? || a.DropReturn?)
    ensures Apply(s, a).hist.log == s.hist.log + Added(s, a)
    ensures Apply(s, a).hist.exited == s.hist.exited
  {
    hide HoldersOf, Add, Remove;
    assert s.hist.log + [] == s.hist.log;
  }

  lemma AddedCreate(s: State, id: Id)
    requires Enabled(s, CreateItem(id))
    ensures DoCreateItem(s, id).hist.log == s.hist.log + Added(s, CreateItem(id))
    ensures DoCreateItem(s, id).hist.exited == s.hist.exited
  {
    assert s.hist.log + [] == s.hist.log;
  }

  lemma AddedPlain(s: State, a: Action, t: State, k: Id)
    requires PlainAct(a) && PlainEffect(s, a, t, k)
    ensures t.hist.log == s.hist.log + Added(s, a)
    ensures t.hist.exited == if a.GetExit? then s.hist.exited + {a.id} else s.hist.exited
  {
    hide SameOutside, Nudged;
    assert s.hist.log + [] == s.hist.log;
  }

  lemma AddedStep(s: State, a: Action)
    requires Inv(s) && Enabled(s, a)
    ensures Apply(s, a).hist.log == s.hist.log + Added(s, a)
    ensures Apply(s, a).hist.exited == if a.GetExit? then s.hist.exited + {a.id} else s.hist.exited
  {
    hide Inv, Apply, Enabled, PlainEffect, Added;
    PoolApplied(s, a);
    OtherApplied(s, a);
    if a.GetReady? { AddedReady(s, a.id); }
    else if a.GetReturned? { AddedReturned(s, a.id); }
    else if PlainAct(a) { PlainStep(s, a, 0); AddedPlain(s, a, Apply(s, a), 0); }
    else if a.CreateItem? { AddedCreate(s, a.id); }
    else if a.ItemAct? { AddedItem(s, a.id, a.x); }
    else if a.PutReady? { AddedPut(s); }
    else if a.HandOut? || a.HandOutUnusable? { AddedHandOut(s, a); }
    else { AddedRest(s, a); }
  }
}
