// What the pool does not promise, and exactly when: it can track more items than its size, and it can
// block forever against its spawner, if and only if its size is at least two.
module Limits {
  import opened Types
  import opened Items
  import opened System
  import opened Structure
  import opened Supply
  import opened Drain
  import opened Shutdown
  import Pools
  import Spawner

  // ---------------------------------------------------------------- runs in which items only come and go

  /** The pool is at its select tracking `ids`; the spawner is at its own, aiming at `m` with `m` creations
      in progress; `queue` is waiting for it; containers from `next` on are new. */
  ghost predicate Calm(s: State, ids: set<Id>, queue: seq<int>, m: nat, next: Id) {
    && s.pool == Pools.PoolState(Pools.Running, ids)
    && s.spawner == Spawner.SpawnerState(Spawner.Selecting, m, m)
    && s.creating == m && s.created == {} && s.requests == queue
    && !s.requestsClosed && !s.nextClosed
    && (forall k :: k in s.items ==> k < next)
    && (forall k :: k in ids ==> k in s.items && s.items[k].pc.MainLoop?)
  }

  /** The pool has asked for all it maintains. */
  lemma Begin(cfg: Config) returns (acts: seq<Action>, s: State)
    requires cfg.size > 0
    ensures Legal(cfg, acts) && s == After(cfg, acts) && Calm(s, {}, [cfg.size], 0, 0)
  {
    acts, s := [], Init(cfg);
    acts, s := Go(cfg, acts, s, Initialize);
    acts, s := Go(cfg, acts, s, SendRequest);
  }

  /** The spawner reads the oldest request, which then is what it aims at. */
  lemma Read(cfg: Config, acts: seq<Action>, s: State, ids: set<Id>, queue: seq<int>, m: nat, next: Id)
    returns (more: seq<Action>, t: State)
    requires Legal(cfg, acts) && s == After(cfg, acts) && Calm(s, ids, queue, m, next)
    requires queue != [] && m <= queue[0]
    ensures Legal(cfg, more) && t == After(cfg, more) && Calm(t, ids, queue[1..], queue[0], next)
  {
    more, t := Go(cfg, acts, s, SpawnRequest);
  }

  /** A container is created and the spawner has it in hand. */
  predicate Offering(s: State, ids: set<Id>, queue: seq<int>, m: nat, next: Id) {
    && s.pool == Pools.PoolState(Pools.Running, ids)
    && s.spawner == Spawner.SpawnerState(Spawner.Sending(next), m, m)
    && s.creating == m && s.created == {} && s.requests == queue
    && !s.requestsClosed && !s.nextClosed
    && (forall k :: k in s.items ==> k <= next)
    && (forall k :: k in ids ==> k in s.items && s.items[k].pc.MainLoop?)
    && next in s.items && s.items[next] == NewItem()
  }

  lemma Offer(cfg: Config, acts: seq<Action>, s: State, ids: set<Id>, queue: seq<int>, m: nat, next: Id)
    returns (more: seq<Action>, t: State)
    requires Legal(cfg, acts) && s == After(cfg, acts) && Calm(s, ids, queue, m, next) && m > 0
    ensures Legal(cfg, more) && t == After(cfg, more) && Offering(t, ids, queue, m - 1, next)
  {
    more, t := Go(cfg, acts, s, CreateItem(next));
    more, t := Go(cfg, more, t, SpawnItem(next));
    assert {next} - {next} == {};
  }

  /** The spawner delivers one more container. */
  lemma Arrive(cfg: Config, acts: seq<Action>, s: State, ids: set<Id>, queue: seq<int>, m: nat, next: Id)
    returns (more: seq<Action>, t: State)
    requires Legal(cfg, acts) && s == After(cfg, acts) && Calm(s, ids, queue, m, next) && m > 0
    ensures Legal(cfg, more) && t == After(cfg, more) && Calm(t, ids + {next}, queue, m - 1, next + 1)
  {
    more, t := Offer(cfg, acts, s, ids, queue, m, next);
    more, t := Go(cfg, more, t, TakeNext);
    more, t := Go(cfg, more, t, JoinItem);
  }

  /** The spawner's side of two states is the same, and so are the items but one. */
  predicate SameBut(s: State, t: State, id: Id) {
    && t.spawner == s.spawner && t.creating == s.creating && t.created == s.created && t.requests == s.requests
    && t.requestsClosed == s.requestsClosed && t.nextClosed == s.nextClosed
    && t.items.Keys == s.items.Keys && forall k :: k in s.items && k != id ==> t.items[k] == s.items[k]
  }

  /** A container dies, and its item is about to say so. */
  lemma Die(cfg: Config, acts: seq<Action>, s: State, id: Id) returns (more: seq<Action>, t: State)
    requires Legal(cfg, acts) && s == After(cfg, acts) && id in s.items && s.items[id].pc.MainLoop?
    ensures Legal(cfg, more) && t == After(cfg, more) && SameBut(s, t, id)
    ensures t.pool == s.pool && id in t.items && t.items[id].pc.SendingExit?
  {
    more, t := Go(cfg, acts, s, ItemAct(id, ContainerExited));
  }

  /** The pool learns of it and is about to ask for what it now lacks. */
  lemma Notice(cfg: Config, acts: seq<Action>, s: State, ids: set<Id>, id: Id) returns (more: seq<Action>, t: State)
    requires Legal(cfg, acts) && s == After(cfg, acts) && id in s.items && s.items[id].pc.SendingExit?
    requires s.pool == Pools.PoolState(Pools.Running, ids) && id in ids && |ids| <= cfg.size
    ensures Legal(cfg, more) && t == After(cfg, more) && SameBut(s, t, id)
    ensures t.pool == Pools.PoolState(Pools.Requesting(cfg.size - |ids - {id}|), ids - {id})
  {
    hide Legal, After, SameBut, DoGetExit;
    more, t := Go(cfg, acts, s, GetExit(id));
    NoticeEffect(s, ids, id);
  }

  lemma NoticeEffect(s: State, ids: set<Id>, id: Id)
    requires Enabled(s, GetExit(id))
    requires s.pool == Pools.PoolState(Pools.Running, ids) && id in ids && |ids| <= s.cfg.size
    ensures SameBut(s, DoGetExit(s, id), id)
    ensures DoGetExit(s, id).pool == Pools.PoolState(Pools.Requesting(s.cfg.size - |ids - {id}|), ids - {id})
  {
    hide ItemStep;
    assert ids == (ids - {id}) + {id};
  }

  lemma Send(cfg: Config, acts: seq<Action>, s: State) returns (more: seq<Action>, t: State)
    requires Legal(cfg, acts) && s == After(cfg, acts)
    requires s.pool.pc.Requesting? && !s.requestsClosed && |s.requests| < REQUEST_CAPACITY
    ensures Legal(cfg, more) && t == After(cfg, more) && t == DoSendRequest(s)
  {
    more, t := Go(cfg, acts, s, SendRequest);
  }

  lemma Leave(cfg: Config, acts: seq<Action>, s: State, ids: set<Id>, queue: seq<int>, m: nat, next: Id, id: Id)
    returns (more: seq<Action>, t: State)
    requires Legal(cfg, acts) && s == After(cfg, acts) && Calm(s, ids, queue, m, next)
    requires id in ids && |ids| <= cfg.size && |queue| < REQUEST_CAPACITY
    ensures Legal(cfg, more) && t == After(cfg, more)
    ensures Calm(t, ids - {id}, queue + [cfg.size - |ids - {id}|], m, next)
  {
    hide Legal, After, Apply, Enabled, DoSendRequest;
    var u, v;
    more, u := Die(cfg, acts, s, id);
    more, v := Notice(cfg, more, u, ids, id);
    more, t := Send(cfg, more, v);
    CalmAgain(s, u, v, t, ids, queue, m, next, id);
  }

  lemma CalmAgain(s: State, u: State, v: State, t: State, ids: set<Id>, queue: seq<int>, m: nat, next: Id, id: Id)
    requires Calm(s, ids, queue, m, next) && SameBut(s, u, id) && SameBut(u, v, id)
    requires v.pool.pc.Requesting? && v.pool.items == ids - {id} && Enabled(v, SendRequest) && t == DoSendRequest(v)
    ensures Calm(t, ids - {id}, queue + [v.pool.pc.count], m, next)
  {
  }

  // ---------------------------------------------------------------- more items than the size

  lemma {:induction false} ArriveAll(cfg: Config, acts: seq<Action>, s: State, ids: set<Id>, queue: seq<int>, m: nat, next: Id)
    returns (more: seq<Action>, t: State)
    requires Legal(cfg, acts) && s == After(cfg, acts) && Calm(s, ids, queue, m, next)
    ensures Legal(cfg, more) && t == After(cfg, more)
    ensures |t.pool.items| == |ids| + m
    decreases m
  {
    hide Legal, After;
    if m == 0 {
      more, t := acts, s;
    } else {
      assert next !in ids;
      more, t := Arrive(cfg, acts, s, ids, queue, m, next);
      more, t := ArriveAll(cfg, more, t, ids + {next}, queue, m - 1, next + 1);
    }
  }

  /** A request counts what is missing from the pool's books, but not what the spawner is already making:
      when the first container dies while others are on their way, one too many is asked for. */
  lemma Overshoot(cfg: Config) returns (acts: seq<Action>)
    requires cfg.size >= 2
    ensures Legal(cfg, acts) && |After(cfg, acts).pool.items| == cfg.size + 1
  {
    hide Legal, After, Calm;
    var n := cfg.size;
    var s;
    acts, s := Begin(cfg);
    acts, s := Read(cfg, acts, s, {}, [n], 0, 0);
    acts, s := Arrive(cfg, acts, s, {}, [], n, 0);
    assert {} + {0} == {0} && {0} - {0} == {};
    acts, s := Leave(cfg, acts, s, {0}, [], n - 1, 1, 0);
    assert [] + [n] == [n];
    acts, s := Arrive(cfg, acts, s, {}, [n], n - 1, 1);
    assert {} + {1} == {1};
    acts, s := Read(cfg, acts, s, {1}, [n], n - 2, 2);
    acts, s := ArriveAll(cfg, acts, s, {1}, [], n, 2);
  }

  /** A draining pool tracks nothing new, and the shutdown itself changes nothing it tracks. */
  lemma ShutKeeps(s: State, a: Action)
    requires Inv(s) && Enabled(s, a) && Pools.Shut(Apply(s, a).pool)
    ensures Apply(s, a).pool.items <= s.pool.items
  {
    hide Inv;
    if Pools.Shut(s.pool) { DrainStays(s, a); }
    else if MeetAct(a) { StopsMeet(s, a); }
    else if PoolAct(a) && !a.Shutdown? { StopsPool(s, a); }
    else if SpawnAct(a) { FrameSpawner(s, a); }
    else if !a.Shutdown? { OutsideControl(s, a); }
  }

  /** Before the shutdown this is the bound on all of the pool's supply. */
  lemma SmallSupply(s: State)
    requires Inv(s) && SupplyInv(s) && !Pools.Shut(s.pool) && s.cfg.size <= 1
    ensures |s.pool.items| <= s.cfg.size
  {
    SumBound(s.requests, s.cfg.size);
  }

  lemma {:induction false} SmallNeverOvershoots(cfg: Config, acts: seq<Action>)
    requires Legal(cfg, acts) && cfg.size <= 1
    ensures |After(cfg, acts).pool.items| <= cfg.size
    decreases |acts|
  {
    hide Apply, Enabled, Inv, SupplyInv;
    if acts != [] {
      var before, s, a := Last(cfg, acts);
      SupplyAlways(cfg, acts);
      InvAlways(cfg, acts);
      if Pools.Shut(After(cfg, acts).pool) {
        SmallNeverOvershoots(cfg, before);
        ShutKeeps(s, a);
        SubsetSize(After(cfg, acts).pool.items, s.pool.items);
      } else {
        SmallSupply(After(cfg, acts));
      }
    }
  }

  /** The pool never tracks more items than its size, whatever happens, if and only if that size is at most one. */
  lemma SizeIsALimitExactly(cfg: Config)
    ensures (forall acts :: Legal(cfg, acts) ==> |After(cfg, acts).pool.items| <= cfg.size) <==> cfg.size <= 1
  {
    if cfg.size <= 1 {
      forall acts | Legal(cfg, acts) ensures |After(cfg, acts).pool.items| <= cfg.size {
        SmallNeverOvershoots(cfg, acts);
      }
    } else {
      var acts := Overshoot(cfg);
    }
  }

  // ---------------------------------------------------------------- the pool and the spawner blocked on each other

  /** The pool cannot send its request, because the queue is full; the spawner cannot deliver its item,
      because the pool is not listening. */
  predicate MutualBlock(s: State) {
    s.pool.pc.Requesting? && |s.requests| == REQUEST_CAPACITY && s.spawner.pc.Sending?
  }

  predicate StillBlocked(s: State, t: State) {
    MutualBlock(t) && t.pool == s.pool && t.hist.handshakes == s.hist.handshakes
  }

  lemma BlockedStep(s: State, a: Action)
    requires Inv(s) && Enabled(s, a) && MutualBlock(s)
    ensures StillBlocked(s, Apply(s, a))
  {
    if !PoolAct(a) && !SpawnAct(a) { OutsideControl(s, a); }
  }

  /** Once blocked, they stay blocked whatever happens: no Stop is ever heard or returns. */
  lemma {:induction false} BlockedForever(cfg: Config, acts: seq<Action>, more: seq<Action>)
    requires Legal(cfg, acts) && Legal(cfg, acts + more) && MutualBlock(After(cfg, acts))
    ensures StillBlocked(After(cfg, acts), After(cfg, acts + more))
    decreases |more|
  {
    if more == [] {
      assert acts + more == acts;
    } else {
      hide Legal, After, Apply, Enabled, Inv;
      var less, s, a := LastMore(cfg, acts, more);
      BlockedForever(cfg, acts, less);
      BlockedStep(s, a);
    }
  }

  /** An item comes and dies, and is asked for anew. */
  lemma Pass(cfg: Config, acts: seq<Action>, s: State, ids: set<Id>, queue: seq<int>, m: nat, next: Id)
    returns (more: seq<Action>, t: State)
    requires Legal(cfg, acts) && s == After(cfg, acts) && Calm(s, ids, queue, m, next)
    requires m > 0 && |ids| < cfg.size && |queue| < REQUEST_CAPACITY && next !in ids
    ensures Legal(cfg, more) && t == After(cfg, more) && Calm(t, ids, queue + [cfg.size - |ids|], m - 1, next + 1)
  {
    hide Legal, After, Calm;
    more, t := Arrive(cfg, acts, s, ids, queue, m, next);
    more, t := Leave(cfg, more, t, ids + {next}, queue, m - 1, next + 1, next);
    assert ids + {next} - {next} == ids;
  }

  function Copies(n: int, k: nat): seq<int> {
    seq(k, _ => n)
  }

  /** One request read, two items lost: the queue of an empty pool grows by one. */
  lemma {:induction false} QueueFills(cfg: Config, k: nat) returns (acts: seq<Action>, s: State, m: nat, next: Id)
    requires cfg.size >= 2 && 1 <= k <= REQUEST_CAPACITY
    ensures Legal(cfg, acts) && s == After(cfg, acts) && Calm(s, {}, Copies(cfg.size, k), m, next) && m <= cfg.size
  {
    hide Legal, After, Calm;
    var n := cfg.size;
    if k == 1 {
      acts, s := Begin(cfg);
      m, next := 0, 0;
      assert Copies(n, 1) == [n];
    } else {
      acts, s, m, next := QueueFills(cfg, k - 1);
      acts, s := Read(cfg, acts, s, {}, Copies(n, k - 1), m, next);
      assert Copies(n, k - 1)[1..] == Copies(n, k - 2);
      acts, s := Pass(cfg, acts, s, {}, Copies(n, k - 2), n, next);
      assert Copies(n, k - 2) + [n] == Copies(n, k - 1);
      acts, s := Pass(cfg, acts, s, {}, Copies(n, k - 1), n - 1, next + 1);
      assert Copies(n, k - 1) + [n] == Copies(n, k);
      m, next := n - 2, next + 2;
    }
  }

  /** One container stays while the queue fills up again, and dies while the spawner offers another one. */
  lemma FullAgain(cfg: Config) returns (acts: seq<Action>, s: State, queue: seq<int>, id: Id)
    requires cfg.size >= 2
    ensures Legal(cfg, acts) && s == After(cfg, acts)
    ensures |queue| == REQUEST_CAPACITY && Offering(s, {id}, queue, cfg.size - 2, id + 2)
  {
    hide Legal, After, Calm;
    var n, full := cfg.size, Copies(cfg.size, REQUEST_CAPACITY);
    var m, next;
    acts, s, m, next := QueueFills(cfg, REQUEST_CAPACITY);
    acts, s := Read(cfg, acts, s, {}, full, m, next);
    acts, s := Pass(cfg, acts, s, {}, full[1..], n, next);
    queue, id := full[1..] + [n], next + 1;
    acts, s := Arrive(cfg, acts, s, {}, queue, n - 1, id);
    assert {} + {id} == {id};
    acts, s := Read(cfg, acts, s, {id}, queue, n - 2, id + 1);
    acts, s := Pass(cfg, acts, s, {id}, queue[1..], n, id + 1);
    queue := queue[1..] + [n - 1];
    acts, s := Offer(cfg, acts, s, {id}, queue, n - 1, id + 2);
  }

  lemma BlockHappens(cfg: Config) returns (acts: seq<Action>)
    requires cfg.size >= 2
    ensures Legal(cfg, acts) && MutualBlock(After(cfg, acts))
  {
    hide Legal, After;
    var s, queue, id;
    acts, s, queue, id := FullAgain(cfg);
    assert id in {id};
    acts, s := Die(cfg, acts, s, id);
    acts, s := Notice(cfg, acts, s, {id}, id);
  }

  lemma SmallNeverBlocks(cfg: Config, acts: seq<Action>)
    requires Legal(cfg, acts) && cfg.size <= 1
    ensures !MutualBlock(After(cfg, acts))
  {
    hide Legal, After;
    SupplyAlways(cfg, acts);
    InvAlways(cfg, acts);
    SumBound(After(cfg, acts).requests, cfg.size);
  }

  /** The pool and its spawner can never block each other for good if and only if the pool's size is at most one. */
  lemma FreeOfMutualBlockExactly(cfg: Config)
    ensures (forall acts :: Legal(cfg, acts) ==> !MutualBlock(After(cfg, acts))) <==> cfg.size <= 1
  {
    if cfg.size <= 1 {
      forall acts | Legal(cfg, acts) ensures !MutualBlock(After(cfg, acts)) {
        SmallNeverBlocks(cfg, acts);
      }
    } else {
      var acts := BlockHappens(cfg);
    }
  }
}
