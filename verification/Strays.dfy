// Exclusive use without any discipline: whatever clients return, no two hold the same container if and
// only if the pool never resets one. A second return of the same checkout is what breaks it.
module Strays {
  import opened Types
  import opened Items
  import opened Containers
  import opened System
  import opened Logs
  import opened Structure
  import opened Footprint
  import Exclusive
  import Supply
  import Order
  import Recycling
  import Pools
  import Spawner
  import Buffer

  /** A pool that has containers and resets them. */
  predicate Recycles(cfg: Config) {
    cfg.size > 0 && cfg.hasReset
  }

  /** The pool is at its select, tracking container 7 alone, whose item is `i`. */
  predicate Serving(s: State, i: ItemState, holders: multiset<Client>, returning: multiset<Id>) {
    && s.pool == Pools.PoolState(Pools.Running, {7})
    && 7 in s.items && s.items[7] == i
    && s.buffer.queue == [] && !s.buffer.inClosed && !s.buffer.outClosed && !s.buffer.ended
    && HoldersOf(s, 7) == holders && s.returning == returning
  }

  predicate Empty(s: State) {
    s.buffer == Buffer.NewBuffer() && s.held == map[] && s.returning == multiset{} && !s.nextClosed
  }

  lemma FirstItem(cfg: Config) returns (acts: seq<Action>, s: State)
    requires Recycles(cfg)
    ensures Legal(cfg, acts) && s == After(cfg, acts) && Disciplined(acts) && Empty(s)
    ensures s.pool == Pools.PoolState(Pools.Running, {}) && s.spawner.pc == Spawner.Sending(7)
    ensures 7 in s.items && s.items[7] == NewItem()
  {
    acts, s := [], Init(cfg);
    acts, s := Go(cfg, acts, s, Initialize);
    acts, s := Go(cfg, acts, s, SendRequest);
    acts, s := Go(cfg, acts, s, SpawnRequest);
    acts, s := Go(cfg, acts, s, CreateItem(7));
    acts, s := Go(cfg, acts, s, SpawnItem(7));
  }

  lemma FirstTake(cfg: Config) returns (acts: seq<Action>, s: State)
    requires Recycles(cfg)
    ensures Legal(cfg, acts) && s == After(cfg, acts) && Disciplined(acts) && Empty(s)
    ensures s.pool == Pools.PoolState(Pools.Joining(7), {7})
    ensures 7 in s.items && s.items[7] == NewItem()
  {
    hide NewItem;
    acts, s := FirstItem(cfg);
    acts, s := Go(cfg, acts, s, TakeNext);
    assert {} + {7} == {7};
  }

  lemma FirstJoin(cfg: Config) returns (acts: seq<Action>, s: State)
    requires Recycles(cfg)
    ensures Legal(cfg, acts) && s == After(cfg, acts) && Disciplined(acts)
    ensures Serving(s, ItemStep(cfg, NewItem(), Joined), multiset{}, multiset{})
  {
    hide ItemStep;
    acts, s := FirstTake(cfg);
    acts, s := Go(cfg, acts, s, JoinItem);
  }

  /** The item makes one step by itself. */
  lemma Act(cfg: Config, acts: seq<Action>, s: State, i: ItemState, holders: multiset<Client>, x: ItemInput)
    returns (next: seq<Action>, t: State)
    requires Legal(cfg, acts) && s == After(cfg, acts) && Serving(s, i, holders, multiset{})
    requires Local(x) && ItemEnabled(cfg, i, x)
    ensures Legal(cfg, next) && t == After(cfg, next) && Serving(t, ItemStep(cfg, i, x), holders, multiset{})
    ensures Disciplined(acts) ==> Disciplined(next)
  {
    hide Legal, After, Apply, DoItemAct, ItemStep, ItemEnabled, ItemNote, Local;
    OtherApplied(s, ItemAct(7, x));
    ItemEffects(s, 7, x);
    next, t := Go(cfg, acts, s, ItemAct(7, x));
  }

  /** A ready item goes to the buffer, and from there to the next customer. */
  lemma ServePut(cfg: Config, acts: seq<Action>, s: State, i: ItemState, holders: multiset<Client>)
    returns (next: seq<Action>, t: State)
    requires Legal(cfg, acts) && s == After(cfg, acts)
    requires Serving(s, i, holders, multiset{}) && i.pc.SendingReady?
    ensures Legal(cfg, next) && t == After(cfg, next)
    ensures Serving(t.(buffer := t.buffer.(queue := [])), ItemStep(cfg, i, TakeReady), holders, multiset{})
    ensures t.buffer.queue == [7]
    ensures Disciplined(acts) ==> Disciplined(next)
  {
    hide ItemStep;
    next, t := Go(cfg, acts, s, GetReady(7));
    next, t := Go(cfg, next, t, PutReady);
  }

  lemma Serve(cfg: Config, acts: seq<Action>, s: State, i: ItemState, holders: multiset<Client>, client: Client)
    returns (next: seq<Action>, t: State)
    requires Legal(cfg, acts) && s == After(cfg, acts)
    requires Serving(s, i, holders, multiset{}) && i.pc.SendingReady?
    ensures Legal(cfg, next) && t == After(cfg, next)
    ensures Serving(t, ItemStep(cfg, i, TakeReady), Add(holders, client), multiset{})
    ensures Disciplined(acts) ==> Disciplined(next)
  {
    hide ItemStep;
    next, t := ServePut(cfg, acts, s, i, holders);
    next, t := Go(cfg, next, t, HandOut(client));
  }

  /** Nothing is going on in the item but this many resets on their way. */
  predicate Quiet(i: ItemState, resets: nat) {
    i.pc.MainLoop? && i.starts == 0 && i.resets == resets && i.children.Total() == 0
  }

  lemma Started(cfg: Config) returns (acts: seq<Action>, s: State, i: ItemState)
    requires Recycles(cfg)
    ensures Legal(cfg, acts) && s == After(cfg, acts) && Disciplined(acts)
    ensures Serving(s, i, multiset{}, multiset{}) && !KillSent(i) && i.container.start.Delivered?
    ensures i.pc.MainLoop? && i.starts == 0 && i.resets == 0
    ensures i.children.onStarted == 1 && i.children.Total() == 1
  {
    hide Serving, Legal, After;
    acts, s := FirstJoin(cfg);
    i := ItemStep(cfg, NewItem(), Joined);
    acts, s := Act(cfg, acts, s, i, multiset{}, Deliver(EvStart));
    i := ItemStep(cfg, i, Deliver(EvStart));
    acts, s := Act(cfg, acts, s, i, multiset{}, DoStart(true));
    i := ItemStep(cfg, i, DoStart(true));
    acts, s := Act(cfg, acts, s, i, multiset{}, ContainerStarted);
    i := ItemStep(cfg, i, ContainerStarted);
  }

  lemma Prepared(cfg: Config) returns (acts: seq<Action>, s: State, i: ItemState)
    requires Recycles(cfg)
    ensures Legal(cfg, acts) && s == After(cfg, acts) && Disciplined(acts)
    ensures Serving(s, i, multiset{}, multiset{}) && !KillSent(i) && i.container.start.Delivered?
    ensures i.pc.SendingReady? && i.starts == 0 && i.resets == 0 && i.children.Total() == 0
  {
    hide Serving, Legal, After;
    acts, s, i := Started(cfg);
    acts, s := Act(cfg, acts, s, i, multiset{}, ChildRuns(OnStarted, true));
    i := ItemStep(cfg, i, ChildRuns(OnStarted, true));
    acts, s := Act(cfg, acts, s, i, multiset{}, ChildReports(EvLive));
    i := ItemStep(cfg, i, ChildReports(EvLive));
    acts, s := Act(cfg, acts, s, i, multiset{}, ChildRuns(OnLive, true));
    i := ItemStep(cfg, i, ChildRuns(OnLive, true));
    acts, s := Act(cfg, acts, s, i, multiset{}, ChildReports(EvReady));
    i := ItemStep(cfg, i, ChildReports(EvReady));
  }

  /** One of the resets on their way succeeds, and the next customer gets the container. */
  lemma ResetAndServe(cfg: Config, acts: seq<Action>, s: State, i: ItemState, holders: multiset<Client>, client: Client)
    returns (next: seq<Action>, t: State, j: ItemState)
    requires Recycles(cfg) && Legal(cfg, acts) && s == After(cfg, acts) && Serving(s, i, holders, multiset{})
    requires i.resets > 0 && Quiet(i, i.resets)
    ensures Legal(cfg, next) && t == After(cfg, next) && Serving(t, j, Add(holders, client), multiset{})
    ensures Quiet(j, i.resets - 1)
  {
    hide Serving, Legal, After;
    j := i;
    next, t := Act(cfg, acts, s, j, holders, Deliver(EvReset));
    j := ItemStep(cfg, j, Deliver(EvReset));
    next, t := Act(cfg, next, t, j, holders, ChildRuns(OnReset, true));
    j := ItemStep(cfg, j, ChildRuns(OnReset, true));
    next, t := Act(cfg, next, t, j, holders, ChildReports(EvReady));
    j := ItemStep(cfg, j, ChildReports(EvReady));
    next, t := Serve(cfg, next, t, j, holders, client);
    j := ItemStep(cfg, j, TakeReady);
  }

  /** Client 1 returns its checkout, and then returns it again. */
  lemma ReturnTwice(cfg: Config, acts: seq<Action>, s: State, i: ItemState)
    returns (next: seq<Action>, t: State)
    requires Legal(cfg, acts) && s == After(cfg, acts) && Serving(s, i, multiset{1}, multiset{})
    ensures next == acts + [ClientReturn(1, 7)] + [StrayReturn(7)]
    ensures Legal(cfg, next) && t == After(cfg, next)
    ensures Serving(t, i, multiset{}, multiset{7, 7})
  {
    next, t := Go(cfg, acts, s, ClientReturn(1, 7));
    assert Remove(multiset{1}, 1) == multiset{};
    next, t := Go(cfg, next, t, StrayReturn(7));
    assert Add(Add(multiset{}, 7), 7) == multiset{7, 7};
  }

  /** The pool resets the item for each of the two returns. */
  lemma ResetTwice(cfg: Config, acts: seq<Action>, s: State, i: ItemState)
    returns (next: seq<Action>, t: State, j: ItemState)
    requires Legal(cfg, acts) && s == After(cfg, acts) && Serving(s, i, multiset{}, multiset{7, 7}) && Quiet(i, 0)
    ensures Legal(cfg, next) && t == After(cfg, next)
    ensures Serving(t, j, multiset{}, multiset{}) && Quiet(j, 2)
  {
    next, t := Go(cfg, acts, s, GetReturned(7));
    assert Remove(multiset{7, 7}, 7) == multiset{7};
    next, t := Go(cfg, next, t, GetReturned(7));
    assert Remove(multiset{7}, 7) == multiset{};
    j := i.(resets := 2);
  }

  /** Exclusive use depends on the clients: after one double return, two others hold the same container,
      because the pool resets whatever is returned without asking who holds it. */
  lemma DoubleReturnBreaksExclusiveUse(cfg: Config) returns (acts: seq<Action>)
    requires Recycles(cfg)
    ensures Legal(cfg, acts)
    ensures 2 in HoldersOf(After(cfg, acts), 7) && 3 in HoldersOf(After(cfg, acts), 7)
  {
    hide Legal, After;
    var s, i;
    acts, s, i := Prepared(cfg);
    acts, s := Serve(cfg, acts, s, i, multiset{}, 1);
    i := ItemStep(cfg, i, TakeReady);
    assert Add(multiset{}, 1) == multiset{1};
    acts, s := ReturnTwice(cfg, acts, s, i);
    acts, s, i := ResetTwice(cfg, acts, s, i);
    acts, s, i := ResetAndServe(cfg, acts, s, i, multiset{}, 2);
    acts, s, i := ResetAndServe(cfg, acts, s, i, Add(multiset{}, 2), 3);
  }

  // ---------------------------------------------------------------- without a reset action

  /** Nobody holds a container that was not handed out to them. */
  predicate HeldAreHandedOut(s: State, k: Id) {
    |HoldersOf(s, k)| <= Count(s.hist.log, HandedOut, k)
  }

  /** Only checkouts and clients' own returns change who holds what. */
  lemma HeldElsewhere(s: State, a: Action)
    requires Inv(s) && Enabled(s, a) && PoolAct(a)
    ensures Apply(s, a).held == s.held
  {
    hide Inv, Apply, Enabled, Nudged;
    PoolApplied(s, a);
    if a.GetReady? { HeldReady(s, a.id); }
    else if a.GetReturned? { HeldReturned(s, a.id); }
    else if a.PutReady? { HeldPut(s); }
    else { PlainStep(s, a, 0); }
  }

  lemma HeldReady(s: State, id: Id)
    requires Enabled(s, GetReady(id))
    ensures DoGetReady(s, id).held == s.held
  {
    hide ItemStep, Ask;
  }

  lemma HeldReturned(s: State, id: Id)
    requires Enabled(s, GetReturned(id))
    ensures DoGetReturned(s, id).held == s.held
  {
    hide Remove, Ask;
  }

  lemma HeldPut(s: State)
    requires Enabled(s, PutReady)
    ensures DoPutReady(s).held == s.held
  {
    if s.buffer.inClosed { return; }
    hide Buffer.Put;
  }

  lemma HeldOutside(s: State, a: Action)
    requires Enabled(s, a) && !PoolAct(a) && !SpawnAct(a) && !a.HandOut? && !a.ClientReturn?
    ensures Apply(s, a).held == s.held
  {
    hide DoItemAct, Add, Remove, Buffer.Take;
    if a.ItemAct? { ItemEffects(s, a.id, a.x); }
  }

  lemma HeldHandOut(s: State, client: Client, k: Id)
    requires Enabled(s, HandOut(client)) && HeldAreHandedOut(s, k)
    ensures HeldAreHandedOut(DoHandOut(s, client), k)
  {
    hide Holders, Add, Count, Buffer.Take;
    HoldersAdd(s.held, s.buffer.queue[0], client, k);
    CountOne(s.hist.log, Event(HandedOut, s.buffer.queue[0]), HandedOut, k);
  }

  lemma HeldReturn(s: State, client: Client, id: Id, k: Id)
    requires Enabled(s, ClientReturn(client, id)) && HeldAreHandedOut(s, k)
    ensures HeldAreHandedOut(DoClientReturn(s, client, id), k)
  {
    hide Holders, Remove, Add, Count;
    HoldersRemove(s.held, id, client, k);
  }

  lemma HeldStep(s: State, a: Action, k: Id)
    requires Inv(s) && Enabled(s, a) && HeldAreHandedOut(s, k)
    ensures HeldAreHandedOut(Apply(s, a), k)
  {
    hide Apply, Inv, Enabled, Added, Count, Holders;
    OtherApplied(s, a);
    if a.HandOut? { HeldHandOut(s, a.client, k); }
    else if a.ClientReturn? { HeldReturn(s, a.client, a.id, k); }
    else {
      AddedStep(s, a);
      CountAppend(s.hist.log, Added(s, a), HandedOut, k);
      if PoolAct(a) { HeldElsewhere(s, a); }
      else if SpawnAct(a) { FrameSpawner(s, a); }
      else { HeldOutside(s, a); }
    }
  }

  lemma {:induction false} HeldAlways(cfg: Config, acts: seq<Action>, k: Id)
    requires Legal(cfg, acts)
    ensures HeldAreHandedOut(After(cfg, acts), k)
    decreases |acts|
  {
    if acts != [] {
      hide HeldAreHandedOut, Inv, Apply, Enabled;
      var before, s, a := Last(cfg, acts);
      HeldAlways(cfg, before, k);
      HeldStep(s, a, k);
    }
  }

  // ---------------------------------------------------------------- without containers

  /** Nothing has ever been created, and nothing has happened. */
  predicate Idle(s: State) {
    s.items == map[] && s.hist.log == []
  }

  lemma IdleAdds(s: State, a: Action)
    requires Inv(s) && Order.Fifo(s) && Idle(s) && Enabled(s, a)
    ensures Added(s, a) == []
  {
    hide Inv;
    if a.PutReady? { PutExists(s); }
  }

  lemma PutExists(s: State)
    requires Inv(s) && s.pool.pc.Putting?
    ensures s.pool.pc.id in s.items
  {
    assert Site(s, s.pool.pc.id);
  }

  lemma NothingToCreate(s: State, a: Action)
    requires Inv(s) && Supply.SupplyInv(s) && s.cfg.size == 0 && Enabled(s, a)
    ensures !a.CreateItem?
  {
  }

  lemma {:induction false} IdleAlways(cfg: Config, acts: seq<Action>)
    requires Legal(cfg, acts) && cfg.size == 0
    ensures Idle(After(cfg, acts))
    decreases |acts|
  {
    hide Inv, Apply, Enabled, Order.Fifo, Supply.SupplyInv, Exclusive.TokensOf, Added;
    if acts != [] {
      var before, s, a := Last(cfg, acts);
      IdleAlways(cfg, before);
      Order.FifoAlways(cfg, before);
      Supply.SupplyAlways(cfg, before);
      IdleAdds(s, a);
      NothingToCreate(s, a);
      AddedStep(s, a);
      forall k ensures k !in Apply(s, a).items {
        Exclusive.TokensStep(s, a, k);
      }
    }
  }

  /** Whatever clients do, at most one holds a container that is never reset. */
  lemma ExclusiveWithoutResets(cfg: Config, acts: seq<Action>, id: Id)
    requires Legal(cfg, acts) && (!cfg.hasReset || cfg.size == 0)
    ensures |HoldersOf(After(cfg, acts), id)| <= 1
  {
    HeldAlways(cfg, acts, id);
    if cfg.hasReset { IdleAlways(cfg, acts); } else { Recycling.RecyclingCount(cfg, acts, id); }
  }

  /** Exclusive use can be had without trusting the clients exactly when the pool has no reset action, or
      nothing to hand out. */
  lemma ExclusiveForAnyClientsExactly(cfg: Config)
    ensures (forall acts :: Legal(cfg, acts) ==> forall id :: |HoldersOf(After(cfg, acts), id)| <= 1)
      <==> !cfg.hasReset || cfg.size == 0
  {
    hide Legal, After;
    if !cfg.hasReset || cfg.size == 0 {
      forall acts, id | Legal(cfg, acts) ensures |HoldersOf(After(cfg, acts), id)| <= 1 {
        ExclusiveWithoutResets(cfg, acts, id);
      }
    } else {
      var acts := DoubleReturnBreaksExclusiveUse(cfg);
      var both := HoldersOf(After(cfg, acts), 7);
      TwoHolders(both, 2, 3);
      assert Legal(cfg, acts) && |HoldersOf(After(cfg, acts), 7)| > 1;
    }
  }

  lemma TwoHolders(m: multiset<Client>, x: Client, y: Client)
    requires x in m && y in m && x != y
    ensures |m| > 1
  {
    var rest := Remove(m, x);
    assert y in rest;
    var none := Remove(rest, y);
    assert |rest| == |none| + 1;
  }
}
