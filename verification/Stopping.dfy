// Stopping: from every reachable state the pool can still be brought to its end, unless it and its spawner
// are blocked on each other. A draining pool never is.
module Stopping {
  import opened Types
  import opened Items
  import opened System
  import opened Structure
  import opened Supply
  import opened Limits
  import opened Shutdown
  import Pools
  import Spawner

  /** Some continuation closes `donech`. */
  ghost predicate CanFinish(cfg: Config, acts: seq<Action>) {
    exists all :: acts <= all && Legal(cfg, all) && After(cfg, all).doneClosed
  }

  // ---------------------------------------------------------------- to the shutdown

  lemma JoinGoesOn(s: State)
    requires Inv(s) && s.pool.pc.Joining?
    ensures Enabled(s, JoinItem) && DoJoinItem(s).pool.pc.Running?
  {
    hide ItemStep;
    assert Site(s, s.pool.pc.id);
  }

  lemma PutGoesOn(s: State)
    requires Inv(s) && s.pool.pc.Putting?
    ensures Enabled(s, PutReady) && DoPutReady(s).pool.pc.Running?
  {
  }

  lemma SendGoesOn(s: State)
    requires Inv(s) && s.pool.pc.Requesting? && |s.requests| < REQUEST_CAPACITY
    ensures Enabled(s, SendRequest) && DoSendRequest(s).pool.pc.Running?
  {
  }

  lemma ReadGoesOn(s: State)
    requires Inv(s) && s.pool.pc.Requesting? && |s.requests| >= REQUEST_CAPACITY && !MutualBlock(s)
    ensures Enabled(s, SpawnRequest)
    ensures DoSpawnRequest(s).pool == s.pool && |DoSpawnRequest(s).requests| < REQUEST_CAPACITY
  {
  }

  lemma BeginGoesOn(s: State)
    requires Inv(s) && SupplyInv(s) && s.pool.pc.Initializing?
    ensures Enabled(s, Initialize) && !MutualBlock(DoInitialize(s))
    ensures DoInitialize(s).pool.pc.Running? || DoInitialize(s).pool.pc.Requesting?
  {
  }

  lemma Send(cfg: Config, acts: seq<Action>, s: State) returns (all: seq<Action>, t: State)
    requires Legal(cfg, acts) && s == After(cfg, acts) && s.pool.pc.Requesting? && !MutualBlock(s)
    ensures acts <= all && Legal(cfg, all) && t == After(cfg, all) && t.pool.pc.Running?
  {
    hide Legal, After, Inv, Apply, Enabled, MutualBlock;
    InvAlways(cfg, acts);
    all, t := acts, s;
    if |s.requests| >= REQUEST_CAPACITY {
      ReadGoesOn(s);
      OtherApplied(s, SpawnRequest);
      all, t := Go(cfg, acts, s, SpawnRequest);
      InvAlways(cfg, all);
    }
    SendGoesOn(t);
    PoolApplied(t, SendRequest);
    all, t := Go(cfg, all, t, SendRequest);
  }

  /** A pool that is not shutting down gets back to its select, unless it is blocked. */
  lemma ToSelect(cfg: Config, acts: seq<Action>, s: State) returns (all: seq<Action>, t: State)
    requires Legal(cfg, acts) && s == After(cfg, acts) && !Pools.Shut(s.pool) && !MutualBlock(s)
    ensures acts <= all && Legal(cfg, all) && t == After(cfg, all) && t.pool.pc.Running?
  {
    hide Legal, After, Inv, SupplyInv, Apply, Enabled, MutualBlock;
    InvAlways(cfg, acts);
    SupplyAlways(cfg, acts);
    all, t := acts, s;
    if s.pool.pc.Initializing? {
      BeginGoesOn(s);
      PoolApplied(s, Initialize);
      all, t := Go(cfg, acts, s, Initialize);
    } else if s.pool.pc.Joining? {
      JoinGoesOn(s);
      PoolApplied(s, JoinItem);
      all, t := Go(cfg, acts, s, JoinItem);
    } else if s.pool.pc.Putting? {
      PutGoesOn(s);
      PoolApplied(s, PutReady);
      all, t := Go(cfg, acts, s, PutReady);
    }
    if t.pool.pc.Requesting? {
      var more;
      more, t := Send(cfg, all, t);
      all := more;
    }
  }

  /** One more call of Stop is heard. */
  lemma Stop(cfg: Config, acts: seq<Action>, s: State) returns (all: seq<Action>, t: State)
    requires Legal(cfg, acts) && s == After(cfg, acts) && s.pool.pc.Running?
    ensures acts <= all && Legal(cfg, all) && t == After(cfg, all) && t.pool.pc.DrainSpawnerTop?
  {
    hide KillAll;
    all, t := Go(cfg, acts, s, CallStop);
    all, t := Go(cfg, all, t, Shutdown);
  }

  // ---------------------------------------------------------------- through the spawner

  /** How far the spawner is from closing its channel. */
  function Stage(s: State): nat {
    if s.spawner.pc.Closed? then 0 else if Spawner.Stopping(s.spawner) then 1 else 2
  }

  function Work(s: State): nat {
    2 * (4 * s.creating + 3 * |s.created| + 3 * s.failures + Offered(s)) + Bit(s.pool.pc.DrainSpawnerTop?)
  }

  predicate Drains(s: State) {
    s.pool.pc.DrainSpawnerTop? || s.pool.pc.DrainSpawner?
  }

  predicate Nearer(t: State, s: State) {
    || Stage(t) < Stage(s)
    || (Stage(t) == Stage(s) && |t.requests| < |s.requests|)
    || (Stage(t) == Stage(s) && |t.requests| == |s.requests| && Work(t) < Work(s))
  }

  predicate Advances(s: State, t: State) {
    t.pool.pc.DrainItemsTop? || (Drains(t) && Nearer(t, s))
  }

  lemma TopAdvances(s: State)
    requires Inv(s) && s.pool.pc.DrainSpawnerTop?
    ensures Enabled(s, LoopTop) && Advances(s, DoLoopTop(s))
  {
    hide KillAll;
  }

  lemma TakeAdvances(s: State)
    requires Inv(s) && s.pool.pc.DrainSpawner? && Spawner.Offering(s.spawner)
    ensures Enabled(s, TakeNext) && Advances(s, DoTakeNext(s))
  {
    hide Ask;
  }

  lemma ReadAdvances(s: State)
    requires Inv(s) && s.pool.pc.DrainSpawner? && s.spawner.pc.Selecting? && s.requests != []
    ensures Enabled(s, SpawnRequest) && Advances(s, DoSpawnRequest(s))
  {
  }

  lemma CloseAdvances(s: State)
    requires Inv(s) && s.pool.pc.DrainSpawner? && s.spawner.pc.Selecting? && s.requests == []
    ensures Enabled(s, SpawnRequestsClosed) && Advances(s, Apply(s, SpawnRequestsClosed))
  {
  }

  lemma ReceiveAdvances(s: State, id: Id)
    requires Inv(s) && s.pool.pc.DrainSpawner? && s.spawner.pc.DrainSelect? && id in s.created
    ensures Enabled(s, SpawnItem(id)) && Advances(s, DoSpawnItem(s, id))
  {
    assert s.created == (s.created - {id}) + {id};
  }

  lemma ErrorAdvances(s: State)
    requires Inv(s) && s.pool.pc.DrainSpawner? && s.spawner.pc.DrainSelect? && s.failures > 0
    ensures Enabled(s, SpawnError) && Advances(s, DoSpawnError(s))
  {
  }

  lemma FailureAdvances(s: State)
    requires Inv(s) && s.pool.pc.DrainSpawner? && s.spawner.pc.DrainSelect? && s.creating > 0
    ensures Enabled(s, CreateFails) && Advances(s, Apply(s, CreateFails))
  {
  }

  lemma ClosedAdvances(s: State)
    requires Inv(s) && s.pool.pc.DrainSpawner? && s.spawner.pc.DrainSelect?
    requires s.created == {} && s.failures == 0 && s.creating == 0
    ensures Enabled(s, SpawnDrained) && Advances(s, DoSpawnDrained(s))
  {
  }

  lemma LeaveAdvances(s: State)
    requires Inv(s) && s.pool.pc.DrainSpawner? && s.spawner.pc.Closed?
    ensures Enabled(s, SeeNextClosed) && Advances(s, DoSeeNextClosed(s))
  {
  }

  /** Some step of the pool, the spawner or a creating goroutine is possible and brings the end nearer. */
  lemma SomethingAdvances(s: State) returns (a: Action)
    requires Inv(s) && Drains(s)
    ensures Enabled(s, a) && Advances(s, Apply(s, a))
  {
    hide Inv, Enabled, Advances, Apply;
    var pc := s.spawner.pc;
    if s.pool.pc.DrainSpawnerTop? { TopAdvances(s); a := LoopTop; }
    else if pc.Sending? || pc.DrainSending? { TakeAdvances(s); a := TakeNext; }
    else if pc.Closed? { LeaveAdvances(s); a := SeeNextClosed; }
    else if pc.Selecting? {
      if s.requests != [] { ReadAdvances(s); a := SpawnRequest; } else { CloseAdvances(s); a := SpawnRequestsClosed; }
    }
    else if s.created != {} { var id :| id in s.created; ReceiveAdvances(s, id); a := SpawnItem(id); }
    else if s.failures > 0 { ErrorAdvances(s); a := SpawnError; }
    else if s.creating > 0 { FailureAdvances(s); a := CreateFails; }
    else { ClosedAdvances(s); a := SpawnDrained; }
    PoolApplied(s, a);
    OtherApplied(s, a);
  }

  lemma {:induction false} ThroughSpawner(cfg: Config, acts: seq<Action>, s: State) returns (all: seq<Action>, t: State)
    requires Legal(cfg, acts) && s == After(cfg, acts) && Drains(s)
    ensures acts <= all && Legal(cfg, all) && t == After(cfg, all) && t.pool.pc.DrainItemsTop?
    decreases Stage(s), |s.requests|, Work(s)
  {
    hide Legal, After, Inv, Enabled, Apply, Stage, Work;
    InvAlways(cfg, acts);
    var a := SomethingAdvances(s);
    var u;
    all, u := Go(cfg, acts, s, a);
    if u.pool.pc.DrainItemsTop? {
      t := u;
    } else {
      var more;
      more, t := ThroughSpawner(cfg, all, u);
      all := more;
    }
  }

  // ---------------------------------------------------------------- through the items

  /** The pool waits for its items, and this one has a step left that it can make alone or with the pool. */
  lemma TrackedCanExit(s: State, id: Id)
    requires Inv(s) && s.pool.pc.DrainItems? && id in s.pool.items
    ensures id in s.items
    ensures s.items[id].pc.MainLoop? || s.items[id].pc.SendingReady? || s.items[id].pc.SendingExit?
  {
    assert Site(s, id);
  }

  lemma TakeReadyEffect(s: State, id: Id)
    requires Enabled(s, GetReady(id)) && s.pool.pc.DrainItems?
    ensures var t := DoGetReady(s, id);
      t.pool == Pools.PoolState(Pools.DrainItemsTop, s.pool.items) && id in t.items && t.items[id].pc.MainLoop?
  {
  }

  lemma DieEffect(s: State, id: Id)
    requires id in s.items && s.items[id].pc.MainLoop?
    ensures Enabled(s, ItemAct(id, ContainerExited))
    ensures var t := DoItemAct(s, id, ContainerExited);
      t.pool == s.pool && id in t.items && t.items[id].pc.SendingExit?
  {
  }

  lemma ExitEffects(s: State, id: Id)
    requires s.pool.pc.DrainItems? && id in s.items && s.items[id].pc.SendingExit?
    ensures Enabled(s, GetExit(id))
    ensures DoGetExit(s, id).pool == Pools.PoolState(Pools.DrainItemsTop, s.pool.items - {id})
  {
    hide ItemStep;
  }

  lemma TopEffect(s: State, id: Id)
    requires s.pool.pc.DrainItemsTop? && id in s.pool.items && id in s.items
    ensures Enabled(s, LoopTop)
    ensures var t := DoLoopTop(s);
      && t.pool == Pools.PoolState(Pools.DrainItems, s.pool.items)
      && id in t.items && t.items[id].pc == s.items[id].pc
  {
  }

  /** The ready report, if the item is blocked on one, is received. */
  lemma Unblock(cfg: Config, acts: seq<Action>, s: State, id: Id) returns (all: seq<Action>, t: State)
    requires Legal(cfg, acts) && s == After(cfg, acts) && s.pool.pc.DrainItems? && id in s.pool.items
    ensures acts <= all && Legal(cfg, all) && t == After(cfg, all)
    ensures t.pool == s.pool && id in t.items && (t.items[id].pc.MainLoop? || t.items[id].pc.SendingExit?)
  {
    hide Legal, After, Inv, Apply, DoGetReady, DoLoopTop;
    InvAlways(cfg, acts);
    TrackedCanExit(s, id);
    all, t := acts, s;
    if s.items[id].pc.SendingReady? {
      TakeReadyEffect(s, id);
      PoolApplied(s, GetReady(id));
      all, t := Go(cfg, acts, s, GetReady(id));
      TopEffect(t, id);
      PoolApplied(t, LoopTop);
      all, t := Go(cfg, all, t, LoopTop);
    }
  }

  /** One tracked item exits. */
  lemma ExitOne(cfg: Config, acts: seq<Action>, s: State, id: Id) returns (all: seq<Action>, t: State)
    requires Legal(cfg, acts) && s == After(cfg, acts) && s.pool.pc.DrainItems? && id in s.pool.items
    ensures acts <= all && Legal(cfg, all) && t == After(cfg, all)
    ensures t.pool == Pools.PoolState(Pools.DrainItemsTop, s.pool.items - {id})
  {
    hide Legal, After, Inv, Apply, Enabled, DoItemAct, DoGetExit;
    all, t := Unblock(cfg, acts, s, id);
    if t.items[id].pc.MainLoop? {
      DieEffect(t, id);
      OtherApplied(t, ItemAct(id, ContainerExited));
      all, t := Go(cfg, all, t, ItemAct(id, ContainerExited));
    }
    ExitEffects(t, id);
    PoolApplied(t, GetExit(id));
    all, t := Go(cfg, all, t, GetExit(id));
  }

  lemma TopStep(s: State)
    requires s.pool.pc.DrainItemsTop?
    ensures Enabled(s, LoopTop)
    ensures s.pool.items == {} ==> DoLoopTop(s).doneClosed
    ensures s.pool.items != {} ==> DoLoopTop(s).pool == Pools.PoolState(Pools.DrainItems, s.pool.items)
  {
    hide KillAll;
  }

  lemma {:induction false} ThroughItems(cfg: Config, acts: seq<Action>, s: State) returns (all: seq<Action>, t: State)
    requires Legal(cfg, acts) && s == After(cfg, acts) && (s.pool.pc.DrainItemsTop? || s.pool.pc.DrainItems?)
    ensures acts <= all && Legal(cfg, all) && t == After(cfg, all) && t.doneClosed
    decreases |s.pool.items|, Bit(s.pool.pc.DrainItemsTop?)
  {
    hide Legal, After, Site, Apply, Enabled, DoLoopTop;
    var u, more;
    if s.pool.pc.DrainItemsTop? {
      TopStep(s);
      PoolApplied(s, LoopTop);
      all, u := Go(cfg, acts, s, LoopTop);
      if s.pool.items == {} {
        t := u;
        return;
      }
    } else {
      InvAlways(cfg, acts);
      var id :| id in s.pool.items;
      all, u := ExitOne(cfg, acts, s, id);
      assert s.pool.items == (s.pool.items - {id}) + {id};
    }
    more, t := ThroughItems(cfg, all, u);
    all := more;
  }

  // ---------------------------------------------------------------- the whole way

  /** A pool that is shutting down can always be brought to its end. */
  lemma DrainCanFinish(cfg: Config, acts: seq<Action>)
    requires Legal(cfg, acts) && Pools.Shut(After(cfg, acts).pool)
    ensures CanFinish(cfg, acts)
  {
    hide Legal, Site;
    var all, s := acts, After(cfg, acts);
    hide After;
    InvAlways(cfg, acts);
    var more;
    if Drains(s) {
      all, s := ThroughSpawner(cfg, acts, s);
    }
    if !s.pool.pc.Done? {
      more, s := ThroughItems(cfg, all, s);
      all := more;
    }
    assert acts <= all && Legal(cfg, all) && After(cfg, all).doneClosed;
  }

  /** Whatever has happened, the pool can still be stopped exactly if it and its spawner are not blocked on each other. */
  lemma CanBeStoppedExactly(cfg: Config, acts: seq<Action>)
    requires Legal(cfg, acts)
    ensures CanFinish(cfg, acts) <==> !MutualBlock(After(cfg, acts))
  {
    hide Legal, After;
    var s := After(cfg, acts);
    if MutualBlock(s) {
      forall all | acts <= all && Legal(cfg, all) ensures !After(cfg, all).doneClosed {
        var rest := all[|acts|..];
        assert all == acts + rest;
        BlockedForever(cfg, acts, rest);
        InvAlways(cfg, all);
      }
    } else if Pools.Shut(s.pool) {
      DrainCanFinish(cfg, acts);
    } else {
      var all, t := ToSelect(cfg, acts, s);
      var shut, u := Stop(cfg, all, t);
      DrainCanFinish(cfg, shut);
      var end :| shut <= end && Legal(cfg, end) && After(cfg, end).doneClosed;
      assert acts <= end;
    }
  }

  // ---------------------------------------------------------------- and everybody who waits is let go

  /** The pool is at its end, every call of Stop made on the way has returned, no call of Return is left blocked,
      and the ready buffer has closed, so that nobody waits for a checkout. */
  ghost predicate EverybodyLeaves(cfg: Config, acts: seq<Action>) {
    exists all :: acts <= all && Legal(cfg, all) && Deserted(After(cfg, all), multiset(all)[CallStop])
  }

  predicate Deserted(s: State, stopCalls: nat) {
    s.doneClosed && s.stops.returned == stopCalls && s.returning == multiset{} && s.buffer.outClosed
  }

  /** Those still waiting, and the buffer's goroutine. */
  function Waiting(s: State): nat {
    s.stops.waiting + s.stops.sent + |s.returning| + Bit(!s.buffer.outClosed)
  }

  lemma StopLeaves(s: State) returns (a: Action)
    requires s.doneClosed && s.stops.waiting + s.stops.sent > 0
    ensures Enabled(s, a) && Apply(s, a).doneClosed && Waiting(Apply(s, a)) < Waiting(s)
  {
    a := if s.stops.waiting > 0 then StopSeesDone else StopWaitOver;
  }

  lemma ReturnLeaves(s: State, id: Id)
    requires s.doneClosed && id in s.returning
    ensures Enabled(s, DropReturn(id)) && Apply(s, DropReturn(id)).doneClosed
    ensures Waiting(Apply(s, DropReturn(id))) < Waiting(s)
  {
  }

  lemma BufferLeaves(s: State)
    requires Inv(s) && s.doneClosed && !s.buffer.outClosed
    ensures Enabled(s, CloseOut) && Apply(s, CloseOut).doneClosed && Waiting(Apply(s, CloseOut)) < Waiting(s)
  {
    hide Site, LedgerOk;
  }

  lemma {:induction false} LetGo(cfg: Config, acts: seq<Action>, s: State) returns (all: seq<Action>, t: State)
    requires Legal(cfg, acts) && s == After(cfg, acts) && s.doneClosed
    ensures acts <= all && Legal(cfg, all) && t == After(cfg, all) && t.doneClosed && Waiting(t) == 0
    decreases Waiting(s)
  {
    hide Legal, After, Apply, Enabled, Inv;
    all, t := acts, s;
    if Waiting(s) > 0 {
      InvAlways(cfg, acts);
      var a;
      if s.stops.waiting + s.stops.sent > 0 { a := StopLeaves(s); }
      else if !s.buffer.outClosed { BufferLeaves(s); a := CloseOut; }
      else { var id :| id in s.returning; ReturnLeaves(s, id); a := DropReturn(id); }
      var next, u := Go(cfg, acts, s, a);
      all, t := LetGo(cfg, next, u);
    }
  }

  /** Whatever has happened, the pool can come to its end with every caller of Stop and Return let go, and the buffer
      closed, exactly if it and its spawner are not blocked on each other. */
  lemma EverybodyCanLeaveExactly(cfg: Config, acts: seq<Action>)
    requires Legal(cfg, acts)
    ensures EverybodyLeaves(cfg, acts) <==> !MutualBlock(After(cfg, acts))
  {
    hide Legal, After;
    CanBeStoppedExactly(cfg, acts);
    if !MutualBlock(After(cfg, acts)) {
      var end :| acts <= end && Legal(cfg, end) && After(cfg, end).doneClosed;
      var all, t := LetGo(cfg, end, After(cfg, end));
      NoStopIsLost(cfg, all);
      assert t.returning == multiset{};
      assert acts <= all && Deserted(t, multiset(all)[CallStop]);
    }
  }
}
