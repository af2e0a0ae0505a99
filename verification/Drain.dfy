// Draining ends: every message and every new item the drain loops receive uses up a measure that
// no other step can renew, and an exiting item's own drain always gets its children home.
module Drain {
  import opened Types
  import opened Logs
  import opened Items
  import opened System
  import opened Structure
  import opened Footprint
  import opened Exclusive
  import opened Supply
  import opened Handout
  import Buffer
  import Pools
  import Spawner

  // ---------------------------------------------------------------- the measure

  /** Tokens that have left item and pool: queued, held or being returned. */
  function Out(s: State, k: Id): nat {
    Queued(s.buffer.queue, k) + |HoldersOf(s, k)| + s.returning[k]
  }

  /** Container k can still send the draining pool a Ready or a Returned. */
  predicate Speaks(s: State, k: Id) {
    k in s.items && (Out(s, k) > 0 || (k in s.pool.items && TokensOf(s, k) > 0))
  }

  function Speakers(s: State): set<Id> {
    set k | k in s.items && Speaks(s, k)
  }

  /** One Exit for each tracked item, and one message for each token that is out. */
  function Measure(s: State): nat {
    |s.pool.items| + |Speakers(s)|
  }

  /** Items the spawner can still hand over. */
  function Incoming(s: State): int {
    Offered(s) + s.spawner.pending + Sum(s.requests)
  }

  lemma SubsetSize(a: set<Id>, b: set<Id>)
    requires a <= b
    ensures |a| <= |b|
  {
    assert b == a + (b - a);
  }

  lemma SmallerBy(a: set<Id>, b: set<Id>, x: Id)
    requires a <= b - {x} && x in b
    ensures |a| < |b|
  {
    SubsetSize(a, b - {x});
  }

  ghost predicate OneEach(s: State) {
    forall k :: TokensOf(s, k) <= Bit(k in s.items)
  }

  // ---------------------------------------------------------------- one step of a draining pool

  predicate Message(a: Action) {
    a.GetReady? || a.GetExit? || a.GetReturned?
  }

  /** A pool that drains goes on draining, tracks nothing new, and counts what it receives. */
  predicate StillDraining(s: State, a: Action, t: State) {
    && Pools.Shut(t.pool) && t.hist.tracked == s.hist.tracked
    && t.pool.items == (if a.GetExit? then s.pool.items - {a.id} else s.pool.items)
    && t.hist.drainEvents == s.hist.drainEvents + Bit(Message(a))
    && t.hist.drainItems == s.hist.drainItems + Bit(a.TakeNext?)
  }

  lemma DrainMeet(s: State, a: Action)
    requires Inv(s) && Enabled(s, a) && Pools.Shut(s.pool) && MeetAct(a)
    ensures StillDraining(s, a, Apply(s, a))
  {
    hide Ask, ItemStep, DoItemAct, Site, Spawner.Fill, Spawner.Launched, Spawner.Sent;
  }

  lemma DrainPool(s: State, a: Action)
    requires Inv(s) && Enabled(s, a) && Pools.Shut(s.pool) && PoolAct(a) && !MeetAct(a)
    ensures StillDraining(s, a, Apply(s, a))
  {
    hide KillAll, ItemStep, DoItemAct, Site;
  }

  lemma DrainStays(s: State, a: Action)
    requires Inv(s) && Enabled(s, a) && Pools.Shut(s.pool)
    ensures StillDraining(s, a, Apply(s, a))
  {
    hide Apply, Enabled, Inv;
    if MeetAct(a) { DrainMeet(s, a); }
    else if PoolAct(a) { DrainPool(s, a); }
    else if SpawnAct(a) { FrameSpawner(s, a); }
    else { OutsideControl(s, a); }
  }

  /** A draining pool puts nothing in the buffer any more. */
  lemma OutReturned(s: State, id: Id, k: Id)
    requires Enabled(s, GetReturned(id))
    ensures Out(DoGetReturned(s, id), k) == Out(s, k) - Bit(k == id)
  {
    hide Ask, Holders, Queued, Remove;
    BagRemove(s.returning, id, k);
  }

  lemma OutReady(s: State, id: Id, k: Id)
    requires Enabled(s, GetReady(id))
    ensures Out(DoGetReady(s, id), k) == Out(s, k)
  {
    hide Ask, ItemStep, Holders, Queued;
  }

  lemma OutHandOut(s: State, client: Client, k: Id)
    requires Enabled(s, HandOut(client))
    ensures Out(DoHandOut(s, client), k) == Out(s, k)
  {
    hide Holders, Queued, Buffer.Take, Add;
    TakeQueued(s.buffer, k);
    HoldersAdd(s.held, s.buffer.queue[0], client, k);
  }

  lemma OutUnusable(s: State, k: Id)
    requires Enabled(s, HandOutUnusable)
    ensures Out(DoHandOutUnusable(s), k) == Out(s, k)
  {
    hide Holders, Queued, Buffer.Take, Add;
    TakeQueued(s.buffer, k);
    BagAdd(s.returning, s.buffer.queue[0], k);
  }

  lemma OutReturn(s: State, client: Client, id: Id, k: Id)
    requires Enabled(s, ClientReturn(client, id))
    ensures Out(DoClientReturn(s, client, id), k) == Out(s, k)
  {
    hide Holders, Queued, Add, Remove;
    HoldersRemove(s.held, id, client, k);
    BagAdd(s.returning, id, k);
  }

  lemma OutDrop(s: State, id: Id, k: Id)
    requires Enabled(s, DropReturn(id))
    ensures Out(Apply(s, DropReturn(id)), k) <= Out(s, k)
  {
    hide Holders, Queued, Remove;
    BagRemove(s.returning, id, k);
  }

  lemma OutItem(s: State, id: Id, x: ItemInput, k: Id)
    requires Enabled(s, ItemAct(id, x))
    ensures Out(DoItemAct(s, id, x), k) == Out(s, k)
  {
    hide DoItemAct, ItemStep, ItemEnabled, ItemNote, Holders, Queued;
    ItemEffects(s, id, x);
  }

  lemma OutStep(s: State, a: Action, k: Id)
    requires Inv(s) && Enabled(s, a) && Pools.Shut(s.pool) && !a.StrayReturn?
    ensures Out(Apply(s, a), k) <= Out(s, k)
  {
    hide Inv, Apply, Enabled, PlainEffect, Out;
    NoPutWhileShut(s);
    PoolApplied(s, a);
    OtherApplied(s, a);
    if a.GetReady? { OutReady(s, a.id, k); }
    else if a.GetReturned? { OutReturned(s, a.id, k); }
    else if a.HandOut? { OutHandOut(s, a.client, k); }
    else if a.HandOutUnusable? { OutUnusable(s, k); }
    else if a.ClientReturn? { OutReturn(s, a.client, a.id, k); }
    else if a.DropReturn? { OutDrop(s, a.id, k); }
    else if a.ItemAct? { OutItem(s, a.id, a.x, k); }
    else if a.CreateItem? { OutCreate(s, a.id, k); }
    else { PlainStep(s, a, k); OutPlain(s, a, Apply(s, a), k); }
  }

  lemma NoPutWhileShut(s: State)
    requires Pools.Shut(s.pool)
    ensures !Enabled(s, PutReady)
  {
  }

  lemma OutCreate(s: State, id: Id, k: Id)
    requires Enabled(s, CreateItem(id))
    ensures Out(DoCreateItem(s, id), k) == Out(s, k)
  {
    hide Holders, Queued;
  }

  lemma OutPlain(s: State, a: Action, t: State, k: Id)
    requires PlainEffect(s, a, t, k)
    ensures Out(t, k) == Out(s, k)
  {
    hide Nudged, Holders, Queued;
  }

  lemma NoNewSpeaker(s: State, a: Action, t: State, k: Id)
    requires Inv(s) && StillDraining(s, a, t) && Out(t, k) <= Out(s, k)
    requires Kept(s, a, t, k) && !a.StrayReturn? && (a == CreateItem(k) ==> k !in s.items && Out(s, k) == 0)
    ensures Speaks(t, k) ==> Speaks(s, k)
  {
    hide TokensOf, Out, ChannelsOk, LedgerOk;
    assert Site(s, k);
  }

  /** A Ready or a Returned costs its container's only token. */
  lemma ReadySpends(s: State, id: Id)
    requires Inv(s) && Enabled(s, GetReady(id)) && Pools.Shut(s.pool) && TokensOf(s, id) <= 1
    ensures TokensOf(DoGetReady(s, id), id) == 0 && Speaks(s, id)
  {
    hide Holders, Queued, Out, LedgerOk;
    assert Site(s, id);
    OutWithin(s, id);
    StepTokens(s.cfg, s.items[id], TakeReady);
    StepTokens(s.cfg, ItemStep(s.cfg, s.items[id], TakeReady), AskKill);
  }

  lemma OutWithin(s: State, k: Id)
    ensures Out(s, k) <= TokensOf(s, k)
  {
    hide Holders, Queued, ItemTokens, PuttingNow;
  }

  lemma ReturnSpends(s: State, id: Id)
    requires Inv(s) && Enabled(s, GetReturned(id)) && Pools.Shut(s.pool) && TokensOf(s, id) <= Bit(id in s.items)
    ensures TokensOf(DoGetReturned(s, id), id) == 0 && Speaks(s, id)
  {
    if id in s.items { StepTokens(s.cfg, s.items[id], AskKill); }
  }

  lemma ExitIsTracked(s: State, id: Id)
    requires Inv(s) && Enabled(s, GetExit(id))
    ensures id in s.pool.items
  {
    assert Site(s, id);
  }

  lemma SpeakersShrink(s: State, t: State)
    requires forall k :: Speaks(t, k) ==> Speaks(s, k)
    ensures |Speakers(t)| <= |Speakers(s)|
    ensures forall id :: Speaks(s, id) && !Speaks(t, id) ==> |Speakers(t)| < |Speakers(s)|
  {
    assert Speakers(t) <= Speakers(s) by {
      forall k | k in Speakers(t) ensures k in Speakers(s) { assert Speaks(s, k); }
    }
    SubsetSize(Speakers(t), Speakers(s));
    forall id | Speaks(s, id) && !Speaks(t, id) ensures |Speakers(t)| < |Speakers(s)| {
      assert id in Speakers(s) && id !in Speakers(t);
      SmallerBy(Speakers(t), Speakers(s), id);
    }
  }

  lemma MeasureStep(s: State, a: Action)
    requires Inv(s) && Enabled(s, a) && Pools.Shut(s.pool) && OneEach(s) && !a.StrayReturn?
    ensures Apply(s, a).hist.drainEvents + Measure(Apply(s, a)) <= s.hist.drainEvents + Measure(s)
  {
    hide Apply, Inv, Kept, TokensOf, Out;
    var t := Apply(s, a);
    PoolApplied(s, a);
    OtherApplied(s, a);
    InvStep(s, a);
    DrainStays(s, a);
    forall k | Speaks(t, k) ensures Speaks(s, k) {
      TokensStep(s, a, k);
      OutStep(s, a, k);
      OutWithin(s, k);
      NoNewSpeaker(s, a, t, k);
    }
    SpeakersShrink(s, t);
    forall k ensures Out(t, k) <= TokensOf(t, k) { OutWithin(t, k); }
    if a.GetReady? { ReadySpends(s, a.id); }
    else if a.GetReturned? { ReturnSpends(s, a.id); }
    else if a.GetExit? { ExitIsTracked(s, a.id); }
  }

  lemma IncomingStep(s: State, a: Action)
    requires Inv(s) && SupplyInv(s) && Enabled(s, a) && Pools.Shut(s.pool)
    ensures Apply(s, a).hist.drainItems + Incoming(Apply(s, a)) <= s.hist.drainItems + Incoming(s)
  {
    hide Apply, Inv, SupplyInv, Sum;
    PoolApplied(s, a);
    OtherApplied(s, a);
    DrainStays(s, a);
    if a.TakeNext? { TakeEffect(s); }
    else if a.GetExit? { ExitEffect(s, a.id); }
    else { SupplyStep(s, a); }
  }

  // ---------------------------------------------------------------- the rest of the run

  lemma {:induction false} LegalPrefix(cfg: Config, acts: seq<Action>, more: seq<Action>)
    requires Legal(cfg, acts + more)
    ensures Legal(cfg, acts)
    decreases |more|
  {
    if more == [] {
      assert acts + more == acts;
    } else {
      assert (acts + more)[..|acts + more| - 1] == acts + more[..|more| - 1];
      LegalPrefix(cfg, acts, more[..|more| - 1]);
    }
  }

  /** The last step of the later part of a run. */
  lemma LastMore(cfg: Config, acts: seq<Action>, more: seq<Action>) returns (less: seq<Action>, s: State, a: Action)
    requires Legal(cfg, acts + more) && more != []
    ensures more == less + [a] && |less| < |more|
    ensures Legal(cfg, acts + less) && s == After(cfg, acts + less) && Inv(s)
    ensures Enabled(s, a) && After(cfg, acts + more) == Apply(s, a)
  {
    hide Legal, After, Apply, Enabled, Inv;
    var before;
    before, s, a := Last(cfg, acts + more);
    less := more[..|more| - 1];
    assert before == (acts + more)[..|acts + more| - 1] == acts + less;
    assert a == (acts + more)[|acts + more| - 1] == more[|more| - 1];
  }

  lemma {:induction false} DrainProgress(cfg: Config, acts: seq<Action>, more: seq<Action>)
    requires Legal(cfg, acts) && Legal(cfg, acts + more) && Disciplined(acts + more)
    requires Pools.Shut(After(cfg, acts).pool)
    ensures var s, t := After(cfg, acts), After(cfg, acts + more);
      && Pools.Shut(t.pool)
      && t.hist.drainEvents + Measure(t) <= s.hist.drainEvents + Measure(s)
      && t.hist.drainItems + Incoming(t) <= s.hist.drainItems + Incoming(s)
    decreases |more|
  {
    if more == [] {
      assert acts + more == acts;
    } else {
      hide Inv, SupplyInv, Apply, Enabled, Measure, Incoming, TokensOf;
      var less, s, a := LastMore(cfg, acts, more);
      assert acts + more == (acts + less) + [a];
      assert !(acts + more)[|acts + less|].StrayReturn?;
      DisciplinedPrefix(acts + less, [a]);
      DrainProgress(cfg, acts, less);
      SupplyAlways(cfg, acts + less);
      forall k ensures TokensOf(s, k) <= Bit(k in s.items) { OneToken(cfg, acts + less, k); }
      DrainStays(s, a);
      MeasureStep(s, a);
      IncomingStep(s, a);
    }
  }

  lemma DisciplinedPrefix(acts: seq<Action>, more: seq<Action>)
    requires Disciplined(acts + more)
    ensures Disciplined(acts)
  {
    forall k | 0 <= k < |acts| ensures !acts[k].StrayReturn? {
      assert (acts + more)[k] == acts[k];
    }
  }

  /** Tokens of containers that have already exited: queued, held or being returned. */
  function Leftovers(s: State): set<Id> {
    Speakers(s) - s.pool.items
  }

  /** From the moment of shutdown on, with disciplined clients, the drain loops receive at most two messages
      per tracked item and one per leftover token, and no more items than were being made or asked for. */
  lemma DrainIsBounded(cfg: Config, acts: seq<Action>, more: seq<Action>)
    requires Legal(cfg, acts) && Legal(cfg, acts + more) && Disciplined(acts + more)
    requires Pools.Shut(After(cfg, acts).pool)
    ensures var s, t := After(cfg, acts), After(cfg, acts + more);
      && t.hist.drainEvents - s.hist.drainEvents <= 2 * |s.pool.items| + |Leftovers(s)|
      && t.hist.drainItems - s.hist.drainItems <= Offered(s) + s.spawner.pending + Sum(s.requests)
  {
    DrainProgress(cfg, acts, more);
    SupplyAlways(cfg, acts + more);
    InvAlways(cfg, acts + more);
    var s, t := After(cfg, acts), After(cfg, acts + more);
    SumBound(t.requests, t.cfg.size);
    SubsetSize(Speakers(s), s.pool.items + Leftovers(s));
  }

  // ---------------------------------------------------------------- an exiting item's own drain

  /** Steps the children of an item still have to make: act and report. */
  function Outstanding(i: ItemState): nat {
    var c := i.children;
    2 * (c.onStarted + c.onLive + c.onReset) + c.live + c.liveError + c.ready + c.readyError + c.resetError
  }

  /** The next step of a child. */
  function Homeward(c: Child): ItemInput {
    match c
    case Reporting(e) => ChildReports(e)
    case _ => ChildRuns(c, true)
  }

  /** Every child of a draining item can take its next step, and that brings the end nearer. */
  lemma ChildComesHome(cfg: Config, i: ItemState, c: Child)
    requires i.pc.Draining? && i.children.At(c) > 0
    ensures ItemEnabled(cfg, i, Homeward(c))
    ensures var j := ItemStep(cfg, i, Homeward(c)); j.pc.Draining? && Outstanding(j) < Outstanding(i)
  {
  }

  /** Nothing an exited item does, nor anything the pool still asks of it, brings a new child. */
  lemma NoNewChild(cfg: Config, i: ItemState, x: ItemInput)
    requires Shape(i) && i.exitedClosed && ItemEnabled(cfg, i, x)
    ensures var j := ItemStep(cfg, i, x); j.exitedClosed && Outstanding(j) <= Outstanding(i)
  {
  }

  /** Some child is still out, unless the wait group is at zero. */
  lemma SomeChild(i: ItemState) returns (c: Child)
    requires i.children.Total() > 0
    ensures i.children.At(c) > 0
  {
    var n := i.children;
    c := if n.onStarted > 0 then OnStarted else if n.onLive > 0 then OnLive else if n.onReset > 0 then OnReset
         else Reporting(if n.live > 0 then EvLive else if n.liveError > 0 then EvLiveError
                        else if n.ready > 0 then EvReady else if n.readyError > 0 then EvReadyError else EvResetError);
  }

  /** The drain always finishes: the children's own steps, at most two each, bring the wait group to zero. */
  lemma {:induction false} DrainFinishes(cfg: Config, i: ItemState) returns (xs: seq<ItemInput>)
    requires i.pc.Draining?
    ensures Walk(cfg, i, xs).Some? && Walk(cfg, i, xs).value.pc.Finished?
    ensures Walk(cfg, i, xs).value.children.Total() == 0
    ensures |xs| <= Outstanding(i) + 1
    decreases Outstanding(i)
  {
    if i.children.Total() == 0 {
      xs := [Finish];
      assert xs[1..] == [];
      assert Walk(cfg, ItemStep(cfg, i, Finish), []) == Some(ItemStep(cfg, i, Finish));
    } else {
      var c := SomeChild(i);
      ChildComesHome(cfg, i, c);
      var rest := DrainFinishes(cfg, ItemStep(cfg, i, Homeward(c)));
      xs := [Homeward(c)] + rest;
      assert xs[1..] == rest;
    }
  }

  /** In every run, whoever is still blocked sending an exited item an event is released. */
  lemma SendersReleased(cfg: Config, acts: seq<Action>, id: Id, e: ItemEvent)
    requires Legal(cfg, acts)
    requires id in After(cfg, acts).hist.exited
    ensures id in After(cfg, acts).items
    ensures Senders(After(cfg, acts).items[id], e) > 0 ==> Enabled(After(cfg, acts), ItemAct(id, Release(e)))
    ensures After(cfg, acts).items[id].pc.Finished? ==> After(cfg, acts).items[id].children.Total() == 0
  {
    InvAlways(cfg, acts);
    assert Site(After(cfg, acts), id);
  }
}
