// The invariant behind every other result: where each goroutine can be, which channels are
// closed, and whose container is whose.
module Structure {
  import opened Types
  import opened Logs
  import opened Items
  import opened System
  import Pools
  import Spawner

  // ---------------------------------------------------------------- the invariant

  /** Each channel's state follows from the position of the goroutine that closes it, and nobody panics. */
  predicate ChannelsOk(s: State) {
    && !s.panicked
    && (s.initClosed <==> !s.pool.pc.Initializing?)
    && (s.requestsClosed <==> Pools.Shut(s.pool))
    && (s.buffer.inClosed <==> Pools.Shut(s.pool))
    && (s.buffer.outClosed ==> s.buffer.inClosed)
    && (s.buffer.outClosed <==> s.buffer.ended)
    && (s.doneClosed <==> s.pool.pc.Done?)
    && (s.nextClosed <==> s.spawner.pc.Closed?)
    && |s.requests| <= REQUEST_CAPACITY
    && (Spawner.Stopping(s.spawner) ==> s.requestsClosed && s.requests == [])
    && (s.pool.pc.DrainItemsTop? || s.pool.pc.DrainItems? || s.pool.pc.Done? ==> s.spawner.pc.Closed?)
    && (s.pool.pc.Done? ==> s.pool.items == {})
    && (s.pool.pc.DrainItems? ==> s.pool.items != {})
  }

  /** Every creation ever started has been received, or is one of the `pending` ones. */
  predicate LedgerOk(s: State) {
    && s.spawner.pending == s.creating + |s.created| + s.failures
    && s.hist.started == s.hist.succeeded + s.hist.failed + s.spawner.pending
    && (s.spawner.pc.Closed? ==> s.spawner.pending == 0)
    && (s.spawner.pc.Selecting? || s.spawner.pc.Sending? ==> s.spawner.pending >= s.spawner.needed)
  }

  /** The spawner is blocked offering this container. */
  predicate InHand(s: State, id: Id) {
    Spawner.Offering(s.spawner) && s.spawner.pc.id == id
  }

  /** The pool is blocked joining this container. */
  predicate JoiningNow(s: State, id: Id) {
    s.pool.pc.Joining? && s.pool.pc.id == id
  }

  /** Every container is in exactly one of four hands: waiting for the spawner, offered by it,
      tracked by the pool (until it exits), or drained. The item's position agrees with it. */
  predicate Site(s: State, id: Id) {
    var tracked, exited, drained := id in s.hist.tracked, id in s.hist.exited, id in s.hist.drained;
    && (id in s.items <==> id in s.created || InHand(s, id) || tracked || drained)
    && (id in s.created ==> !InHand(s, id) && !tracked && !drained)
    && (InHand(s, id) ==> !tracked && !drained)
    && (drained ==> !tracked)
    && (exited ==> tracked)
    && (id in s.pool.items <==> tracked && !exited)
    && (JoiningNow(s, id) ==> id in s.pool.items)
    && (s.pool.pc.Putting? && s.pool.pc.id == id ==> id in s.pool.items)
    && (id in s.items ==>
          var i := s.items[id];
          && Shape(i)
          && (i.pc.WaitJoin? <==> !tracked || JoiningNow(s, id))
          && (i.exitedClosed <==> exited)
          && (drained ==> KillSent(i))
          && ((s.pool.pc.DrainSpawner? || s.pool.pc.DrainItems?) && id in s.pool.items ==> KillSent(i)))
  }

  ghost predicate Inv(s: State) {
    && ChannelsOk(s)
    && LedgerOk(s)
    && forall id :: Site(s, id)
  }

  // ---------------------------------------------------------------- every step keeps it

  predicate PoolAct(a: Action) {
    || a.Initialize? || a.TakeNext? || a.SeeNextClosed? || a.JoinItem? || a.GetReady? || a.GetExit?
    || a.GetReturned? || a.PutReady? || a.SendRequest? || a.LoopTop? || a.Shutdown?
  }

  predicate SpawnAct(a: Action) {
    || a.SpawnRequest? || a.SpawnRequestsClosed? || a.SpawnItem? || a.SpawnError? || a.SpawnDrained?
    || a.CreateItem? || a.CreateFails?
  }

  /** The pool's steps that move one container. */
  predicate MeetAct(a: Action) {
    a.TakeNext? || a.JoinItem? || a.GetReady? || a.GetExit? || a.GetReturned?
  }

  /** Everything but the pool's and the spawner's steps leaves their goroutines and channels alone. */
  predicate SameControl(s: State, t: State) {
    && t.cfg == s.cfg && t.pool == s.pool && t.spawner == s.spawner
    && t.requests == s.requests && t.creating == s.creating && t.created == s.created && t.failures == s.failures
    && t.initClosed == s.initClosed && t.requestsClosed == s.requestsClosed && t.nextClosed == s.nextClosed
    && t.doneClosed == s.doneClosed && t.panicked == s.panicked && t.buffer.inClosed == s.buffer.inClosed
    && (t.buffer.outClosed ==> s.buffer.outClosed || s.buffer.inClosed)
    && (s.buffer.outClosed == s.buffer.ended ==> t.buffer.outClosed == t.buffer.ended)
    && t.hist == s.hist.(log := t.hist.log)
  }

  lemma ItemControl(s: State, id: Id, x: ItemInput)
    requires Enabled(s, ItemAct(id, x))
    ensures SameControl(s, DoItemAct(s, id, x)) && DoItemAct(s, id, x).buffer == s.buffer
  {
    hide ItemStep, ItemEnabled;
  }

  lemma ClientControl(s: State, a: Action)
    requires Inv(s) && Enabled(s, a) && !PoolAct(a) && !SpawnAct(a) && !a.ItemAct?
    ensures SameControl(s, Apply(s, a))
  {
    hide DoItemAct, DoTakeNext, DoGetReady, DoGetExit, DoGetReturned, DoShutdown, DoSpawnError, Holders, Add, Remove;
  }

  /** The spawner's steps leave the pool, the buffer and the clients alone. */
  predicate SpawnerFrame(s: State, t: State) {
    && t.pool == s.pool && t.buffer == s.buffer && t.held == s.held && t.returning == s.returning && t.stops == s.stops
    && t.initClosed == s.initClosed && t.requestsClosed == s.requestsClosed && t.doneClosed == s.doneClosed
    && t.hist == s.hist.(started := t.hist.started, succeeded := t.hist.succeeded, failed := t.hist.failed)
  }

  lemma FrameRequest(s: State)
    requires Enabled(s, SpawnRequest)
    ensures SpawnerFrame(s, DoSpawnRequest(s))
  {
  }

  lemma FrameError(s: State)
    requires Enabled(s, SpawnError)
    ensures SpawnerFrame(s, DoSpawnError(s))
  {
  }

  lemma FrameSpawner(s: State, a: Action)
    requires Enabled(s, a) && SpawnAct(a)
    ensures SpawnerFrame(s, Apply(s, a))
  {
    hide DoItemAct, DoSpawnRequest, DoSpawnError;
    if a.SpawnRequest? { FrameRequest(s); }
    if a.SpawnError? { FrameError(s); }
  }

  lemma OutsideControl(s: State, a: Action)
    requires Inv(s) && Enabled(s, a) && !PoolAct(a) && !SpawnAct(a)
    ensures SameControl(s, Apply(s, a))
  {
    if a.ItemAct? { ItemControl(s, a.id, a.x); } else { ClientControl(s, a); }
  }

  lemma ChannelsJoin(s: State)
    requires Inv(s) && Enabled(s, JoinItem)
    ensures ChannelsOk(DoJoinItem(s))
  {
    assert Site(s, s.pool.pc.id);
  }

  lemma ChannelsExit(s: State, id: Id)
    requires Inv(s) && Enabled(s, GetExit(id))
    ensures ChannelsOk(DoGetExit(s, id))
  {
    assert Site(s, id);
  }

  lemma ChannelsPool(s: State, a: Action)
    requires Inv(s) && Enabled(s, a) && PoolAct(a) && !MeetAct(a)
    ensures ChannelsOk(Apply(s, a))
  {
    hide KillAll, DoItemAct, Site;
  }

  lemma ChannelsTake(s: State)
    requires Inv(s) && Enabled(s, TakeNext)
    ensures ChannelsOk(DoTakeNext(s))
  {
    hide Ask, Site;
  }

  lemma ChannelsMessage(s: State, a: Action)
    requires Inv(s) && Enabled(s, a) && (a.GetReady? || a.GetReturned?)
    ensures ChannelsOk(Apply(s, a))
  {
    hide Ask, ItemStep, Site;
  }

  lemma ChannelsSpawner(s: State, a: Action)
    requires Inv(s) && Enabled(s, a) && SpawnAct(a)
    ensures ChannelsOk(Apply(s, a))
  {
  }

  lemma LedgerSpawner(s: State, a: Action)
    requires Inv(s) && Enabled(s, a) && SpawnAct(a) && !a.CreateItem? && !a.SpawnError?
    ensures LedgerOk(Apply(s, a))
  {
    hide DoItemAct, Site, ChannelsOk;
  }

  lemma LedgerError(s: State)
    requires Inv(s) && Enabled(s, SpawnError)
    ensures LedgerOk(DoSpawnError(s))
  {
    hide Site, ChannelsOk, Refill;
    var u := s.(failures := s.failures - 1, hist := s.hist.(failed := s.hist.failed + 1));
    Refilled(u, s.spawner.(pending := s.spawner.pending - 1));
  }

  lemma Refilled(s: State, sp: Spawner.SpawnerState)
    ensures var t := Refill(s, sp);
      && t.spawner.pending >= t.spawner.needed && t.spawner.pc == sp.pc
      && t.spawner.pending - sp.pending == t.creating - s.creating == t.hist.started - s.hist.started
      && t.created == s.created && t.failures == s.failures
      && t.hist.succeeded == s.hist.succeeded && t.hist.failed == s.hist.failed
  {
  }

  lemma LedgerCreate(s: State, id: Id)
    requires Inv(s) && Enabled(s, CreateItem(id))
    ensures LedgerOk(DoCreateItem(s, id))
  {
    assert Site(s, id);
  }

  lemma LedgerTake(s: State)
    requires Inv(s) && Enabled(s, TakeNext)
    ensures LedgerOk(DoTakeNext(s))
  {
  }

  lemma LedgerPool(s: State, a: Action)
    requires Inv(s) && Enabled(s, a) && PoolAct(a) && !a.TakeNext?
    ensures LedgerOk(Apply(s, a))
  {
  }

  lemma ControlStep(s: State, a: Action)
    requires Inv(s) && Enabled(s, a)
    ensures ChannelsOk(Apply(s, a)) && LedgerOk(Apply(s, a))
  {
    hide ChannelsOk, LedgerOk, Apply, Enabled;
    PoolApplied(s, a);
    OtherApplied(s, a);
    if a.JoinItem? { ChannelsJoin(s); LedgerPool(s, a); }
    else if a.GetExit? { ChannelsExit(s, a.id); LedgerPool(s, a); }
    else if a.TakeNext? { ChannelsTake(s); LedgerTake(s); }
    else if a.GetReady? || a.GetReturned? { ChannelsMessage(s, a); LedgerPool(s, a); }
    else if PoolAct(a) { ChannelsPool(s, a); LedgerPool(s, a); }
    else if a.CreateItem? { ChannelsSpawner(s, a); LedgerCreate(s, a.id); }
    else if a.SpawnError? { ChannelsSpawner(s, a); LedgerError(s); }
    else if SpawnAct(a) { ChannelsSpawner(s, a); LedgerSpawner(s, a); }
    else { OutsideControl(s, a); ControlKept(s, Apply(s, a)); }
  }

  lemma ControlKept(s: State, t: State)
    requires ChannelsOk(s) && LedgerOk(s) && SameControl(s, t)
    ensures ChannelsOk(t) && LedgerOk(t)
  {
  }

  lemma SiteTake(s: State, k: Id)
    requires Inv(s) && Enabled(s, TakeNext)
    ensures Site(DoTakeNext(s), k)
  {
    assert Site(s, k);
  }

  lemma SiteJoin(s: State, k: Id)
    requires Inv(s) && Enabled(s, JoinItem)
    ensures Site(DoJoinItem(s), k)
  {
    assert Site(s, k);
  }

  lemma SiteReady(s: State, id: Id, k: Id)
    requires Inv(s) && Enabled(s, GetReady(id))
    ensures Site(DoGetReady(s, id), k)
  {
    assert Site(s, k);
  }

  lemma SiteExit(s: State, id: Id, k: Id)
    requires Inv(s) && Enabled(s, GetExit(id))
    ensures Site(DoGetExit(s, id), k)
  {
    hide ChannelsOk, LedgerOk;
    assert Site(s, k);
  }

  lemma SiteReturned(s: State, id: Id, k: Id)
    requires Inv(s) && Enabled(s, GetReturned(id))
    ensures Site(DoGetReturned(s, id), k)
  {
    assert Site(s, k);
  }

  lemma SitePool(s: State, a: Action, k: Id)
    requires Inv(s) && Enabled(s, a) && PoolAct(a) && !MeetAct(a)
    ensures Site(Apply(s, a), k)
  {
    assert Site(s, k);
  }

  lemma SiteCreate(s: State, id: Id, k: Id)
    requires Inv(s) && Enabled(s, CreateItem(id))
    ensures Site(DoCreateItem(s, id), k)
  {
    assert Site(s, k);
  }

  lemma SiteReceive(s: State, id: Id, k: Id)
    requires Inv(s) && Enabled(s, SpawnItem(id))
    ensures Site(DoSpawnItem(s, id), k)
  {
    assert Site(s, k);
  }

  lemma SiteSpawner(s: State, a: Action, k: Id)
    requires Inv(s) && Enabled(s, a) && SpawnAct(a) && !a.CreateItem? && !a.SpawnItem?
    ensures Site(Apply(s, a), k)
  {
    assert Site(s, k);
  }

  /** An item's own step touches its entry and the history. */
  predicate ItemEffect(s: State, id: Id, x: ItemInput, t: State)
    requires Enabled(s, ItemAct(id, x))
  {
    && t.items == s.items[id := ItemStep(s.cfg, s.items[id], x)]
    && t.cfg == s.cfg && t.pool == s.pool && t.buffer == s.buffer && t.held == s.held && t.returning == s.returning
    && t.hist.log == (match ItemNote(s.cfg, x) case None => s.hist.log case Some(kind) => s.hist.log + [Event(kind, id)])
  }

  lemma ItemEffects(s: State, id: Id, x: ItemInput)
    requires Enabled(s, ItemAct(id, x))
    ensures ItemEffect(s, id, x, DoItemAct(s, id, x))
  {
    hide ItemStep, ItemEnabled, ItemNote;
  }

  lemma SiteItem(s: State, id: Id, x: ItemInput, k: Id)
    requires Inv(s) && Enabled(s, ItemAct(id, x))
    ensures Site(DoItemAct(s, id, x), k)
  {
    hide DoItemAct, ItemStep, ItemEnabled, ItemNote, Shape, ChannelsOk, LedgerOk;
    ItemControl(s, id, x);
    ItemEffects(s, id, x);
    assert Site(s, id) && Site(s, k);
    LocalStep(s.cfg, s.items[id], x);
  }

  lemma SiteClients(s: State, a: Action, k: Id)
    requires Inv(s) && Enabled(s, a) && !PoolAct(a) && !SpawnAct(a) && !a.ItemAct?
    ensures Site(Apply(s, a), k)
  {
    assert Site(s, k);
  }

  lemma SiteStep(s: State, a: Action, k: Id)
    requires Inv(s) && Enabled(s, a)
    ensures Site(Apply(s, a), k)
  {
    hide Site, Inv, Apply, Enabled;
    PoolApplied(s, a);
    OtherApplied(s, a);
    if a.TakeNext? { SiteTake(s, k); }
    else if a.JoinItem? { SiteJoin(s, k); }
    else if a.GetReady? { SiteReady(s, a.id, k); }
    else if a.GetExit? { SiteExit(s, a.id, k); }
    else if a.GetReturned? { SiteReturned(s, a.id, k); }
    else if a.CreateItem? { SiteCreate(s, a.id, k); }
    else if a.SpawnItem? { SiteReceive(s, a.id, k); }
    else if a.ItemAct? { SiteItem(s, a.id, a.x, k); }
    else if PoolAct(a) { SitePool(s, a, k); }
    else if SpawnAct(a) { SiteSpawner(s, a, k); }
    else { SiteClients(s, a, k); }
  }

  lemma InvStep(s: State, a: Action)
    requires Inv(s) && Enabled(s, a)
    ensures Inv(Apply(s, a))
  {
    ControlStep(s, a);
    forall k ensures Site(Apply(s, a), k) {
      SiteStep(s, a, k);
    }
  }

  lemma {:induction false} InvAlways(cfg: Config, acts: seq<Action>)
    requires Legal(cfg, acts)
    ensures Inv(After(cfg, acts))
    decreases |acts|
  {
    if acts != [] {
      InvAlways(cfg, acts[..|acts| - 1]);
      InvStep(After(cfg, acts[..|acts| - 1]), acts[|acts| - 1]);
    }
  }

  /** The last step of a run: what an induction over runs works with. */
  lemma Last(cfg: Config, acts: seq<Action>) returns (before: seq<Action>, s: State, a: Action)
    requires Legal(cfg, acts) && acts != []
    ensures acts == before + [a] && |before| < |acts|
    ensures Legal(cfg, before) && s == After(cfg, before) && Inv(s)
    ensures Enabled(s, a) && After(cfg, acts) == Apply(s, a)
  {
    before, a := acts[..|acts| - 1], acts[|acts| - 1];
    s := After(cfg, before);
    InvAlways(cfg, before);
  }
}
