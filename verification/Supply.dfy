// Supply: requests that overwrite each other, creations that fail and items that exit never
// lose a container the pool should have, and never pile up more than six times its size.
module Supply {
  import opened Types
  import opened Items
  import opened System
  import opened Structure
  import Pools
  import Spawner

  function Sum(q: seq<int>): int {
    if q == [] then 0 else q[0] + Sum(q[1..])
  }

  lemma {:induction false} SumAppend(q: seq<int>, n: int)
    ensures Sum(q + [n]) == Sum(q) + n
  {
    if q == [] {
      assert [] + [n] == [n];
    } else {
      assert (q + [n])[1..] == q[1..] + [n];
      SumAppend(q[1..], n);
    }
  }

  lemma {:induction false} SumBound(q: seq<int>, most: int)
    requires forall k :: 0 <= k < |q| ==> 0 <= q[k] <= most
    ensures 0 <= Sum(q) <= |q| * most
  {
    if q != [] {
      SumBound(q[1..], most);
    }
  }

  /** Between the priming of the backlog and the shutdown. */
  predicate Alive(s: State) {
    !s.pool.pc.Initializing? && !Pools.Shut(s.pool)
  }

  /** The item in the spawner's hand. */
  function Offered(s: State): nat {
    Bit(Spawner.Offering(s.spawner))
  }

  /** What the spawner will be told last: the request the pool is blocked sending, else the
      newest queued one, else the one it is already working on. */
  function LastWord(s: State): int {
    if s.pool.pc.Requesting? then s.pool.pc.count
    else if s.requests != [] then s.requests[|s.requests| - 1]
    else s.spawner.needed
  }

  /** A request the pool is blocked sending. */
  function Blocked(s: State): int {
    if s.pool.pc.Requesting? then s.pool.pc.count else 0
  }

  /** Every container the pool tracks, is about to receive, or has asked for. */
  function Pipeline(s: State): int {
    |s.pool.items| + Offered(s) + s.spawner.pending + Sum(s.requests)
  }

  predicate RequestsSane(s: State) {
    && (forall k :: 0 <= k < |s.requests| ==> 0 < s.requests[k] <= s.cfg.size)
    && 0 <= s.spawner.needed <= s.cfg.size
    && s.spawner.pending + Offered(s) <= s.cfg.size
    && (s.pool.pc.Requesting? ==> s.pool.pc.count == s.cfg.size - |s.pool.items| && s.pool.pc.count > 0)
    && (s.pool.pc.Initializing? ==>
          s.pool.items == {} && s.requests == [] && s.spawner == Spawner.NewSpawner())
  }

  predicate Enough(s: State) {
    Alive(s) ==> LastWord(s) + Offered(s) + |s.pool.items| >= s.cfg.size
  }

  /** A pool of one has exactly one container, wanted or had. */
  predicate ExactlyOne(s: State) {
    s.cfg.size == 1 && Alive(s) ==> s.spawner.needed == s.spawner.pending && Pipeline(s) + Blocked(s) == 1
  }

  ghost predicate SupplyInv(s: State) {
    RequestsSane(s) && Enough(s) && ExactlyOne(s) && Pipeline(s) <= 6 * s.cfg.size
  }

  // ---------------------------------------------------------------- one step

  /** The step leaves supply alone, and the pool is not blocked on a request afterwards. */
  predicate Quiet(s: State, t: State) {
    && t.cfg == s.cfg && t.pool.items == s.pool.items && t.spawner == s.spawner && t.requests == s.requests
    && (t.pool.pc == s.pool.pc || (!t.pool.pc.Requesting? && !t.pool.pc.Initializing? && !s.pool.pc.Requesting?))
    && (Alive(t) ==> Alive(s))
  }

  predicate QuietAct(a: Action) {
    || a.SeeNextClosed? || a.JoinItem? || a.GetReady? || a.GetReturned? || a.PutReady? || a.LoopTop? || a.Shutdown?
    || a.CreateItem? || a.CreateFails? || (!PoolAct(a) && !SpawnAct(a))
  }

  lemma QuietMessage(s: State, a: Action)
    requires Inv(s) && Enabled(s, a) && (a.GetReady? || a.GetReturned?)
    ensures Quiet(s, Apply(s, a))
  {
    hide Ask, ItemStep, Site;
  }

  lemma QuietPool(s: State, a: Action)
    requires Inv(s) && Enabled(s, a)
    requires a.SeeNextClosed? || a.JoinItem? || a.PutReady? || a.LoopTop? || a.Shutdown?
    ensures Quiet(s, Apply(s, a))
  {
    hide KillAll, ItemStep, Site;
  }

  lemma QuietCreate(s: State, a: Action)
    requires Inv(s) && Enabled(s, a) && (a.CreateItem? || a.CreateFails?)
    ensures Quiet(s, Apply(s, a))
  {
    hide Site;
  }

  lemma QuietStep(s: State, a: Action)
    requires Inv(s) && Enabled(s, a) && QuietAct(a)
    ensures Quiet(s, Apply(s, a))
  {
    hide ItemStep, Site, DoItemAct, Apply;
    PoolApplied(s, a);
    OtherApplied(s, a);
    if !PoolAct(a) && !SpawnAct(a) { OutsideControl(s, a); }
    else if a.GetReady? || a.GetReturned? { QuietMessage(s, a); }
    else if a.CreateItem? || a.CreateFails? { QuietCreate(s, a); }
    else { QuietPool(s, a); }
  }

  lemma SupplyInitialize(s: State)
    requires Inv(s) && SupplyInv(s) && Enabled(s, Initialize)
    ensures SupplyInv(DoInitialize(s)) && Pipeline(DoInitialize(s)) <= Pipeline(s)
  {
    assert Sum([]) == 0;
  }

  /** The item goes from the spawner's hand to the pool's books, or out of both when draining. */
  lemma TakeEffect(s: State)
    requires Inv(s) && Enabled(s, TakeNext)
    ensures var t := DoTakeNext(s);
      && t.cfg == s.cfg && t.requests == s.requests && t.spawner == Spawner.Sent(s.spawner)
      && !t.pool.pc.Requesting? && !t.pool.pc.Initializing? && !s.pool.pc.Requesting?
      && (Alive(t) <==> s.pool.pc.Running?) && (Alive(t) ==> Alive(s))
      && |t.pool.items| == |s.pool.items| + Bit(s.pool.pc.Running?)
  {
    hide Ask, ItemStep;
    assert Site(s, s.spawner.pc.id);
  }

  lemma SupplyTake(s: State)
    requires Inv(s) && SupplyInv(s) && Enabled(s, TakeNext)
    ensures SupplyInv(DoTakeNext(s)) && Pipeline(DoTakeNext(s)) <= Pipeline(s)
  {
    hide DoTakeNext, Sum, Site;
    TakeEffect(s);
  }

  lemma ExitEffect(s: State, id: Id)
    requires Inv(s) && Enabled(s, GetExit(id))
    ensures var t := DoGetExit(s, id);
      && t.cfg == s.cfg && t.requests == s.requests && t.spawner == s.spawner
      && t.pool == Pools.OnExit(s.cfg.size, s.pool, id)
      && |t.pool.items| == |s.pool.items| - 1
  {
    hide ItemStep;
    assert Site(s, id);
  }

  /** An exit makes the pool ask again for everything it lacks, even for what is already on its way. */
  lemma SupplyExit(s: State, id: Id)
    requires Inv(s) && SupplyInv(s) && Enabled(s, GetExit(id))
    ensures SupplyInv(DoGetExit(s, id)) && Pipeline(DoGetExit(s, id)) <= Pipeline(s)
  {
    hide DoGetExit, Sum, Site;
    ExitEffect(s, id);
    SumBound(s.requests, s.cfg.size);
  }

  /** The request fits: at most four others are queued, and the pool asks only for what it lacks. */
  lemma SupplyRequest(s: State)
    requires Inv(s) && SupplyInv(s) && Enabled(s, SendRequest)
    ensures SupplyInv(DoSendRequest(s)) && Pipeline(DoSendRequest(s)) == Pipeline(s) + Blocked(s)
  {
    SumAppend(s.requests, s.pool.pc.count);
    SumBound(s.requests, s.cfg.size);
    assert |s.requests| * s.cfg.size <= 4 * s.cfg.size;
  }

  /** Overwriting the target with a newer request drops none: the newest one is as large as the pool's need. */
  lemma SupplySpawnRequest(s: State)
    requires Inv(s) && SupplyInv(s) && Enabled(s, SpawnRequest)
    ensures SupplyInv(DoSpawnRequest(s)) && Pipeline(DoSpawnRequest(s)) <= Pipeline(s)
  {
    SumBound(s.requests[1..], s.cfg.size);
  }

  lemma SupplySpawner(s: State, a: Action)
    requires Inv(s) && SupplyInv(s) && Enabled(s, a)
    requires a.SpawnRequestsClosed? || a.SpawnItem? || a.SpawnError? || a.SpawnDrained?
    ensures SupplyInv(Apply(s, a)) && Pipeline(Apply(s, a)) <= Pipeline(s)
  {
    hide Site, Sum;
    SumBound(s.requests, s.cfg.size);
  }

  lemma SupplyStep(s: State, a: Action)
    requires Inv(s) && SupplyInv(s) && Enabled(s, a)
    ensures SupplyInv(Apply(s, a))
    ensures Pipeline(Apply(s, a)) <= Pipeline(s) + if a.SendRequest? then Blocked(s) else 0
  {
    hide Apply, Inv, Enabled, RequestsSane, Enough, ExactlyOne;
    PoolApplied(s, a);
    OtherApplied(s, a);
    if a.Initialize? { SupplyInitialize(s); }
    else if a.TakeNext? { SupplyTake(s); }
    else if a.GetExit? { SupplyExit(s, a.id); }
    else if a.SendRequest? { SupplyRequest(s); }
    else if a.SpawnRequest? { SupplySpawnRequest(s); }
    else if QuietAct(a) { QuietStep(s, a); SupplyQuiet(s, Apply(s, a)); }
    else { SupplySpawner(s, a); }
  }

  lemma SupplyQuiet(s: State, t: State)
    requires SupplyInv(s) && Quiet(s, t)
    ensures SupplyInv(t) && Pipeline(t) == Pipeline(s)
  {
    hide Sum;
  }

  // ---------------------------------------------------------------- whole runs

  lemma {:induction false} SupplyAlways(cfg: Config, acts: seq<Action>)
    requires Legal(cfg, acts)
    ensures SupplyInv(After(cfg, acts))
    decreases |acts|
  {
    if acts != [] {
      hide Inv, SupplyInv, Apply, Enabled;
      var before, s, a := Last(cfg, acts);
      SupplyAlways(cfg, before);
      SupplyStep(s, a);
    }
  }

  /** A primed, running pool never loses supply: what it tracks, what it is being offered and what was
      last asked for make up its size. Once the spawner has caught up, so do the creations in progress. */
  lemma SupplyNeverLost(cfg: Config, acts: seq<Action>)
    requires Legal(cfg, acts)
    requires Alive(After(cfg, acts))
    ensures var s := After(cfg, acts);
      && LastWord(s) + Offered(s) + |s.pool.items| >= cfg.size
      && (s.requests == [] && !s.pool.pc.Requesting? && (s.spawner.pc.Selecting? || s.spawner.pc.Sending?) ==>
            s.creating + |s.created| + s.failures + Offered(s) + |s.pool.items| >= cfg.size)
  {
    InvAlways(cfg, acts);
    SupplyAlways(cfg, acts);
  }

  /** Supply is bounded: containers tracked, offered, being created or asked for never exceed six times
      the size, and the spawner alone never has more than `size` on its way. */
  lemma SupplyBounded(cfg: Config, acts: seq<Action>)
    requires Legal(cfg, acts)
    ensures var s := After(cfg, acts);
      && |s.pool.items| + Offered(s) + s.spawner.pending + Sum(s.requests) <= 6 * cfg.size
      && s.spawner.pending + Offered(s) <= cfg.size
  {
    SupplyAlways(cfg, acts);
  }

  /** Every creation started was received, has failed, or is still pending; and what is pending is just what
      the creating goroutines have not delivered yet. */
  lemma SpawnerLedger(cfg: Config, acts: seq<Action>)
    requires Legal(cfg, acts)
    ensures var s := After(cfg, acts);
      && s.hist.started == s.hist.succeeded + s.hist.failed + s.spawner.pending
      && s.spawner.pending == s.creating + |s.created| + s.failures
      && (s.spawner.pc.Selecting? || s.spawner.pc.Sending? ==> s.spawner.pending >= s.spawner.needed)
      && (s.nextClosed ==> s.spawner.pending == 0)
  {
    InvAlways(cfg, acts);
  }

  /** With size one there is always exactly one container, tracked or on its way. */
  lemma SizeOneExact(cfg: Config, acts: seq<Action>)
    requires Legal(cfg, acts)
    requires cfg.size == 1 && Alive(After(cfg, acts))
    ensures Pipeline(After(cfg, acts)) + Blocked(After(cfg, acts)) == 1
  {
    SupplyAlways(cfg, acts);
  }
}
