// The pool's loops and the pool's steps in the whole system are the same: each call the loops make is what
// the step does to the items, the buffer and the spawner, or the blocking send it leads to.
module PoolSteps {
  import opened Types
  import opened Items
  import opened System
  import opened Structure
  import Pools
  import PoolLoop

  /** The steps by which the pool receives something. */
  predicate Receives(a: Action) {
    a.TakeNext? || a.SeeNextClosed? || a.GetReady? || a.GetExit? || a.GetReturned? || a.Shutdown?
  }

  function InputOf(s: State, a: Action): PoolLoop.PoolInput
    requires Receives(a) && (a.TakeNext? ==> Enabled(s, a))
  {
    if a.TakeNext? then PoolLoop.Next(s.spawner.pc.id)
    else if a.SeeNextClosed? then PoolLoop.NextClosed
    else if a.GetReady? then PoolLoop.Ready(a.id)
    else if a.GetExit? then PoolLoop.Exited(a.id)
    else if a.GetReturned? then PoolLoop.Returned(a.id)
    else PoolLoop.ShutdownMessage
  }

  /** Container k has been sent just the kills and resets among these calls. */
  predicate Sent(s: State, t: State, calls: multiset<PoolLoop.Call>, k: Id) {
    k in s.items ==>
      && k in t.items
      && t.items[k].kills == s.items[k].kills + calls[PoolLoop.Kill(k)]
      && t.items[k].resets == s.items[k].resets + calls[PoolLoop.Reset(k)]
  }

  /** The call the pool now blocks on is the one among these; stopping closes the channels. */
  ghost predicate Begun(s: State, t: State, calls: multiset<PoolLoop.Call>) {
    && (forall id :: PoolLoop.Join(id) in calls <==> t.pool.pc == Pools.Joining(id))
    && (forall id :: PoolLoop.Put(id) in calls <==> t.pool.pc == Pools.Putting(id))
    && (forall n :: PoolLoop.Request(n) in calls <==> t.pool.pc == Pools.Requesting(n))
    && (t.buffer.inClosed <==> s.buffer.inClosed || PoolLoop.StopBuffer in calls)
    && (t.requestsClosed <==> s.requestsClosed || PoolLoop.StopSpawner in calls)
  }

  ghost predicate Matches(s: State, t: State, x: PoolLoop.PoolInput, k: Id) {
    var calls := PoolLoop.ArmCalls(s.cfg.size, s.pool, x);
    t.pool == PoolLoop.React(s.cfg.size, s.pool, x) && Sent(s, t, calls, k) && Begun(s, t, calls)
  }

  lemma MatchNext(s: State, k: Id)
    requires Inv(s) && Enabled(s, TakeNext)
    ensures Matches(s, DoTakeNext(s), InputOf(s, TakeNext), k)
  {
    hide LedgerOk, Site;
  }

  lemma MatchClosed(s: State, k: Id)
    requires Inv(s) && Enabled(s, SeeNextClosed)
    ensures Matches(s, DoSeeNextClosed(s), InputOf(s, SeeNextClosed), k)
  {
    hide LedgerOk, Site;
  }

  lemma MatchReady(s: State, id: Id, k: Id)
    requires Inv(s) && Enabled(s, GetReady(id))
    ensures Matches(s, DoGetReady(s, id), InputOf(s, GetReady(id)), k)
  {
    hide LedgerOk, Site;
  }

  lemma MatchExit(s: State, id: Id, k: Id)
    requires Inv(s) && Enabled(s, GetExit(id))
    ensures Matches(s, DoGetExit(s, id), InputOf(s, GetExit(id)), k)
  {
    hide LedgerOk, Site;
  }

  lemma MatchReturned(s: State, id: Id, k: Id)
    requires Inv(s) && Enabled(s, GetReturned(id))
    ensures Matches(s, DoGetReturned(s, id), InputOf(s, GetReturned(id)), k)
  {
    hide LedgerOk, Site, Ask, Remove;
    AskEffect(s.items, s.cfg, id, AskReset, k);
    AskEffect(s.items, s.cfg, id, AskKill, k);
  }

  lemma AskEffect(items: map<Id, ItemState>, cfg: Config, id: Id, x: ItemInput, k: Id)
    requires x.AskReset? || x.AskKill?
    ensures k in items ==>
      && k in Ask(items, cfg, id, x)
      && Ask(items, cfg, id, x)[k].kills == items[k].kills + Bit(x.AskKill? && k == id)
      && Ask(items, cfg, id, x)[k].resets == items[k].resets + Bit(x.AskReset? && k == id)
  {
  }

  lemma KillsCount(ids: set<Id>, k: Id)
    ensures PoolLoop.Kills(ids)[PoolLoop.Kill(k)] == Bit(k in ids)
    ensures forall c :: c in PoolLoop.Kills(ids) ==> c.Kill?
  {
  }

  lemma MatchShutdown(s: State, k: Id)
    requires Inv(s) && Enabled(s, Shutdown)
    ensures Matches(s, DoShutdown(s), InputOf(s, Shutdown), k)
  {
    hide LedgerOk, Site, PoolLoop.Kills;
    KillsCount(s.pool.items, k);
  }

  /** Receiving does in the system what the loops' arm asks for: same books, same kills and resets, and the
      same call to block on. */
  lemma StepMakesArmCalls(s: State, a: Action, k: Id)
    requires Inv(s) && Enabled(s, a) && Receives(a)
    ensures Matches(s, Apply(s, a), InputOf(s, a), k)
  {
    hide Inv, Apply, Enabled, Matches;
    PoolApplied(s, a);
    if a.TakeNext? { MatchNext(s, k); }
    else if a.SeeNextClosed? { MatchClosed(s, k); }
    else if a.GetReady? { MatchReady(s, a.id, k); }
    else if a.GetExit? { MatchExit(s, a.id, k); }
    else if a.GetReturned? { MatchReturned(s, a.id, k); }
    else { MatchShutdown(s, k); }
  }

  /** The head of a drain loop asks what it asks there, and the pool is done when it is. */
  lemma StepMakesTopCalls(s: State, k: Id)
    requires Inv(s) && Enabled(s, LoopTop)
    ensures var t := Apply(s, LoopTop);
      && t.pool == PoolLoop.Settle(s.pool) && Sent(s, t, PoolLoop.TopCalls(s.pool), k)
      && (t.doneClosed <==> PoolLoop.Settle(s.pool).pc.Done?)
  {
    hide LedgerOk, Site, PoolLoop.Kills;
    KillsCount(s.pool.items, k);
  }

  /** And a call it has blocked on is carried out: the join with the start, the put, or the request. */
  lemma StepEndsSend(s: State, a: Action)
    requires Inv(s) && Enabled(s, a) && (a.JoinItem? || a.PutReady? || a.SendRequest?)
    ensures var t := Apply(s, a);
      && t.pool == PoolLoop.Settle(s.pool)
      && (a.JoinItem? ==> t.items == s.items[s.pool.pc.id := ItemStep(s.cfg, s.items[s.pool.pc.id], Joined)])
      && (a.PutReady? ==> t.buffer.queue == s.buffer.queue + [s.pool.pc.id])
      && (a.SendRequest? ==> t.requests == s.requests + [s.pool.pc.count])
  {
    hide LedgerOk, Site, ItemStep;
    if a.JoinItem? { NotYetJoined(s); }
  }

  lemma NotYetJoined(s: State)
    requires Inv(s) && Enabled(s, JoinItem)
    ensures !s.items[s.pool.pc.id].joinClosed
  {
    assert Site(s, s.pool.pc.id);
  }
}
