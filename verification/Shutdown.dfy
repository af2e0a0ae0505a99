// Shutdown: no channel is misused, every container is accounted for when the pool is done, and
// Stop returns only then, however many callers there are.
module Shutdown {
  import opened Types
  import opened Logs
  import opened Items
  import opened System
  import opened Structure
  import Pools
  import Spawner

  /** Nothing has gone wrong, and no step that can happen now would send on a closed channel, close one again,
      or, in the running loop, receive the nil item of a closed `nextch`. */
  ghost predicate ChannelsSafe(s: State) {
    && !s.panicked
    && (Enabled(s, SeeNextClosed) ==> s.pool.pc.DrainSpawner?)
    && (Enabled(s, PutReady) ==> !s.buffer.inClosed)
    && (forall c :: Enabled(s, HandOut(c)) ==> !s.buffer.outClosed)
    && (Enabled(s, HandOutUnusable) || Enabled(s, CloseOut) ==> !s.buffer.outClosed)
    && (Enabled(s, SendRequest) ==> !s.requestsClosed)
    && (Enabled(s, TakeNext) || Enabled(s, SpawnDrained) ==> !s.nextClosed)
    && (Enabled(s, JoinItem) ==> !s.items[s.pool.pc.id].joinClosed)
    && (forall id :: Enabled(s, GetExit(id)) ==> !s.items[id].exitedClosed)
    && (Enabled(s, Shutdown) ==> !s.buffer.inClosed && !s.requestsClosed)
    && (Enabled(s, Initialize) ==> !s.initClosed)
    && (Enabled(s, LoopTop) ==> !s.doneClosed)
  }

  lemma InvMakesSafe(s: State)
    requires Inv(s)
    ensures ChannelsSafe(s)
  {
    if s.pool.pc.Joining? { assert Site(s, s.pool.pc.id); }
    forall id | Enabled(s, GetExit(id)) ensures !s.items[id].exitedClosed { assert Site(s, id); }
  }

  /** No run ever sends on a closed channel, closes one twice, or uses the nil item of a closed `nextch`. */
  lemma ChannelSafety(cfg: Config, acts: seq<Action>)
    requires Legal(cfg, acts)
    ensures ChannelsSafe(After(cfg, acts))
  {
    hide Inv, ChannelsSafe;
    InvAlways(cfg, acts);
    InvMakesSafe(After(cfg, acts));
  }

  /** The pool's items are at every moment the containers it has tracked less those seen to exit. */
  lemma ItemsAreTrackedLessExited(cfg: Config, acts: seq<Action>)
    requires Legal(cfg, acts)
    ensures var s := After(cfg, acts); s.pool.items == s.hist.tracked - s.hist.exited && s.hist.exited <= s.hist.tracked
  {
    InvAlways(cfg, acts);
    var s := After(cfg, acts);
    forall id ensures id in s.pool.items <==> id in s.hist.tracked - s.hist.exited { assert Site(s, id); }
    forall id | id in s.hist.exited ensures id in s.hist.tracked { assert Site(s, id); }
  }

  /** When `donech` closes nothing is tracked, pending or being created, and every container ever created
      was either tracked, with its exit processed, or received while draining and told to stop: never both. */
  lemma ShutdownConservation(cfg: Config, acts: seq<Action>)
    requires Legal(cfg, acts) && After(cfg, acts).doneClosed
    ensures var s := After(cfg, acts);
      && s.pool.items == {} && s.spawner.pending == 0 && s.creating == 0 && s.failures == 0
      && s.items.Keys == s.hist.tracked + s.hist.drained
      && s.hist.tracked !! s.hist.drained
      && s.hist.exited == s.hist.tracked
      && (forall id :: id in s.hist.tracked ==> s.items[id].exitedClosed)
      && (forall id :: id in s.hist.drained ==> s.items[id].pc.WaitJoin? && KillSent(s.items[id]))
  {
    InvAlways(cfg, acts);
    var s := After(cfg, acts);
    assert s.created == {};
    forall id
      ensures id in s.items <==> id in s.hist.tracked + s.hist.drained
      ensures !(id in s.hist.tracked && id in s.hist.drained)
      ensures id in s.hist.exited <==> id in s.hist.tracked
      ensures id in s.hist.tracked ==> id in s.items && s.items[id].exitedClosed
      ensures id in s.hist.drained ==> id in s.items && s.items[id].pc.WaitJoin? && KillSent(s.items[id])
    {
      assert Site(s, id);
    }
  }

  /** While the pool waits for its items to go, each of them has been told to. */
  lemma DrainKillsEveryItem(cfg: Config, acts: seq<Action>, id: Id)
    requires Legal(cfg, acts)
    requires After(cfg, acts).pool.pc.DrainSpawner? || After(cfg, acts).pool.pc.DrainItems?
    requires id in After(cfg, acts).pool.items
    ensures id in After(cfg, acts).items && KillSent(After(cfg, acts).items[id])
    ensures !After(cfg, acts).items[id].exitedClosed
  {
    InvAlways(cfg, acts);
    assert Site(After(cfg, acts), id);
  }

  // ---------------------------------------------------------------- Stop

  predicate StopsOk(s: State) {
    && s.hist.handshakes == Bit(Pools.Shut(s.pool))
    && s.stops.sent <= s.hist.handshakes
    && (s.stops.returned > 0 ==> s.doneClosed)
    && (Pools.Shut(s.pool) && !s.doneClosed ==> s.stops.sent == 1)
  }

  /** Steps that leave Stop's callers and the handshake alone. */
  predicate StopsSame(s: State, t: State) {
    && t.stops == s.stops && t.hist.handshakes == s.hist.handshakes
    && (Pools.Shut(t.pool) <==> Pools.Shut(s.pool))
    && (s.doneClosed ==> t.doneClosed)
  }

  lemma StopsFrame(s: State, t: State)
    requires StopsOk(s) && StopsSame(s, t)
    ensures StopsOk(t)
  {
  }

  lemma StopsSpawner(s: State, t: State)
    requires StopsOk(s) && SpawnerFrame(s, t)
    ensures StopsOk(t)
  {
  }

  lemma StopsMeet(s: State, a: Action)
    requires Inv(s) && Enabled(s, a) && MeetAct(a)
    ensures StopsSame(s, Apply(s, a))
  {
    hide Ask, ItemStep, DoItemAct, Site, Spawner.Fill, Spawner.Launched, Spawner.Sent;
  }

  lemma StopsPool(s: State, a: Action)
    requires Inv(s) && Enabled(s, a) && PoolAct(a) && !MeetAct(a) && !a.Shutdown?
    ensures StopsSame(s, Apply(s, a))
  {
    hide KillAll, ItemStep, DoItemAct, Site;
  }

  lemma StopsShutdown(s: State)
    requires Inv(s) && StopsOk(s) && Enabled(s, Shutdown)
    ensures StopsOk(DoShutdown(s))
  {
    hide KillAll, Site;
  }

  lemma StopsClients(s: State, a: Action)
    requires Inv(s) && StopsOk(s) && Enabled(s, a) && !PoolAct(a) && !SpawnAct(a)
    ensures StopsOk(Apply(s, a))
  {
    hide ItemStep, ItemEnabled, Site;
    OutsideControl(s, a);
  }

  lemma StopsStep(s: State, a: Action)
    requires Inv(s) && StopsOk(s) && Enabled(s, a)
    ensures StopsOk(Apply(s, a))
  {
    hide Apply, Inv, Enabled, StopsOk, StopsSame;
    PoolApplied(s, a);
    OtherApplied(s, a);
    if a.Shutdown? { StopsShutdown(s); }
    else if MeetAct(a) { StopsMeet(s, a); StopsFrame(s, Apply(s, a)); }
    else if PoolAct(a) { StopsPool(s, a); StopsFrame(s, Apply(s, a)); }
    else if SpawnAct(a) { FrameSpawner(s, a); StopsSpawner(s, Apply(s, a)); }
    else { StopsClients(s, a); }
  }

  lemma {:induction false} StopsAlways(cfg: Config, acts: seq<Action>)
    requires Legal(cfg, acts)
    ensures StopsOk(After(cfg, acts))
    decreases |acts|
  {
    if acts != [] {
      hide StopsOk, Inv, Apply, Enabled;
      var before, s, a := Last(cfg, acts);
      StopsAlways(cfg, before);
      StopsStep(s, a);
    }
  }

  /** Any number of concurrent Stop calls consume one shutdown message at most, and none returns before
      every tracked item is gone. */
  lemma StopIsSafe(cfg: Config, acts: seq<Action>)
    requires Legal(cfg, acts)
    ensures var s := After(cfg, acts);
      && s.hist.handshakes <= 1
      && (s.stops.returned > 0 ==> s.pool.pc.Done? && s.pool.items == {} && s.hist.exited == s.hist.tracked)
      && (Pools.Shut(s.pool) && !s.doneClosed ==> s.stops.sent == 1)
  {
    StopsAlways(cfg, acts);
    InvAlways(cfg, acts);
    if After(cfg, acts).doneClosed { ShutdownConservation(cfg, acts); }
  }

  // ---------------------------------------------------------------- no call of Stop is lost

  /** Calls of Stop that have been made, wherever they are now. */
  function StopCalls(s: State): nat {
    s.stops.waiting + s.stops.sent + s.stops.returned
  }

  lemma CallsClients(s: State, a: Action)
    requires Enabled(s, a)
    requires a.CallStop? || a.StopSeesDone? || a.StopWaitOver? || a.CloseOut? || a.StrayReturn? || a.DropReturn?
    ensures StopCalls(Apply(s, a)) == StopCalls(s) + Bit(a.CallStop?)
  {
    hide Add, Remove;
  }

  lemma CallsHandOut(s: State, client: Client)
    requires Enabled(s, HandOut(client))
    ensures DoHandOut(s, client).stops == s.stops
  {
    hide HoldersOf, Add;
  }

  lemma CallsUnusable(s: State)
    requires Enabled(s, HandOutUnusable)
    ensures DoHandOutUnusable(s).stops == s.stops
  {
    hide Add;
  }

  lemma CallsReturn(s: State, client: Client, id: Id)
    requires Enabled(s, ClientReturn(client, id))
    ensures DoClientReturn(s, client, id).stops == s.stops
  {
    hide HoldersOf, Add, Remove;
  }

  lemma CallsItem(s: State, id: Id, x: ItemInput)
    requires Enabled(s, ItemAct(id, x))
    ensures DoItemAct(s, id, x).stops == s.stops
  {
    hide ItemStep, ItemEnabled;
  }

  lemma CallsShutdown(s: State)
    requires Enabled(s, Shutdown)
    ensures StopCalls(DoShutdown(s)) == StopCalls(s)
  {
    hide KillAll;
  }

  lemma CallsGoroutines(s: State, a: Action)
    requires Inv(s) && Enabled(s, a) && ((PoolAct(a) && !a.Shutdown?) || SpawnAct(a))
    ensures Apply(s, a).stops == s.stops
  {
    hide Apply, Inv, Enabled;
    if MeetAct(a) { StopsMeet(s, a); }
    else if PoolAct(a) { StopsPool(s, a); }
    else { FrameSpawner(s, a); }
  }

  lemma CallsStep(s: State, a: Action)
    requires Inv(s) && Enabled(s, a)
    ensures StopCalls(Apply(s, a)) == StopCalls(s) + Bit(a.CallStop?)
  {
    hide Apply, Inv, Enabled;
    PoolApplied(s, a);
    OtherApplied(s, a);
    if a.Shutdown? { CallsShutdown(s); }
    else if PoolAct(a) || SpawnAct(a) { CallsGoroutines(s, a); }
    else if a.ItemAct? { CallsItem(s, a.id, a.x); }
    else if a.HandOut? { CallsHandOut(s, a.client); }
    else if a.HandOutUnusable? { CallsUnusable(s); }
    else if a.ClientReturn? { CallsReturn(s, a.client, a.id); }
    else { CallsClients(s, a); }
  }

  /** Every call of Stop is at its select, waiting for the end, or has returned. */
  lemma {:induction false} NoStopIsLost(cfg: Config, acts: seq<Action>)
    requires Legal(cfg, acts)
    ensures StopCalls(After(cfg, acts)) == multiset(acts)[CallStop]
    decreases |acts|
  {
    if acts != [] {
      hide StopCalls, Inv, Apply, Enabled;
      var before, s, a := Last(cfg, acts);
      NoStopIsLost(cfg, before);
      CallsStep(s, a);
    } else {
      assert StopCalls(Init(cfg)) == 0;
    }
  }
}
