// A failed reset: the item's main loop has no case for it, so the container stays on the pool's books with
// nobody and nothing having the use of it. This can happen if and only if the pool resets containers at all.
module Stranded {
  import opened Types
  import opened Items
  import opened System
  import opened Structure
  import opened Footprint
  import opened Exclusive
  import Buffer
  import Drain
  import Handout
  import Strays
  import Supply

  /** The item is about to go, or has been told to, or is gone. */
  predicate Leaving(i: ItemState) {
    KillSent(i) || i.pc.SendingExit?
  }

  /** Tracked, but of no use to anybody: not being prepared or reset, not ready or queued, not held, not
      being returned, and nobody has told it to stop. */
  predicate IsStranded(s: State, id: Id) {
    id in s.pool.items && id in s.items && TokensOf(s, id) == 0 && !Leaving(s.items[id])
  }

  // ---------------------------------------------------------------- without a reset action nothing is stranded

  predicate NoFailure(s: State, k: Id) {
    k in s.items ==> s.items[k].children.resetError == 0
  }

  predicate Fine(s: State, k: Id) {
    NoFailure(s, k) && !IsStranded(s, k)
  }

  /** What an item does by itself loses its token only on the way out. */
  lemma ItemKeepsUse(cfg: Config, i: ItemState, x: ItemInput)
    requires !cfg.hasReset && Shape(i) && ItemEnabled(cfg, i, x) && Local(x) && !i.exitedClosed
    requires i.children.resetError == 0
    ensures var j := ItemStep(cfg, i, x);
      && (Tokens(i) > 0 || Leaving(i) ==> Tokens(j) > 0 || Leaving(j))
  {
  }

  lemma NoResetFails(cfg: Config, i: ItemState, x: ItemInput)
    requires !cfg.hasReset && ItemEnabled(cfg, i, x) && i.children.resetError == 0
    ensures ItemStep(cfg, i, x).children.resetError == 0
  {
  }

  lemma FineItem(s: State, id: Id, x: ItemInput, k: Id)
    requires Inv(s) && !s.cfg.hasReset && Enabled(s, ItemAct(id, x)) && Fine(s, k)
    ensures Fine(DoItemAct(s, id, x), k)
  {
    hide DoItemAct, ItemStep, ItemEnabled, Tokens, Shape, Leaving, Holders, Queued, ItemNote;
    ItemEffects(s, id, x);
    assert Site(s, k);
    if k == id {
      NoResetFails(s.cfg, s.items[id], x);
      if id in s.pool.items { ItemKeepsUse(s.cfg, s.items[id], x); }
    }
  }

  lemma NudgedKeepsUse(cfg: Config, i: ItemState, j: ItemState)
    requires Nudged(cfg, i, j)
    ensures j.children == i.children
    ensures (Tokens(i) > 0 ==> Tokens(j) > 0) && (Leaving(i) ==> Leaving(j)) && (i.exitedClosed ==> j.exitedClosed)
  {
  }

  /** What the pool takes on is still to be started. */
  lemma NewlyTracked(s: State, t: State, k: Id)
    requires Inv(s) && Inv(t) && k in s.items && k in t.items && Nudged(s.cfg, s.items[k], t.items[k])
    requires k !in s.pool.items && k in t.pool.items
    ensures Tokens(s.items[k]) > 0
  {
    hide ChannelsOk, LedgerOk, Nudged, Shape;
    NudgedKeepsUse(s.cfg, s.items[k], t.items[k]);
    assert Site(s, k) && Site(t, k);
  }

  lemma FinePlain(s: State, a: Action, t: State, k: Id)
    requires Inv(s) && Inv(t) && PlainAct(a) && PlainEffect(s, a, t, k) && Fine(s, k)
    requires PuttingNow(s, k) ==> PuttingNow(t, k)
    ensures Fine(t, k)
  {
    hide Inv, Nudged, Tokens, Leaving, Holders, Queued;
    if k in s.items {
      NudgedKeepsUse(s.cfg, s.items[k], t.items[k]);
      if k in t.pool.items && k !in s.pool.items { NewlyTracked(s, t, k); }
    }
  }

  /** Only the put itself ends a put. */
  lemma PutGoesOn(s: State, a: Action, k: Id)
    requires Inv(s) && Enabled(s, a) && PlainAct(a) && PuttingNow(s, k)
    ensures PuttingNow(Apply(s, a), k)
  {
    hide Apply, Site;
    if SpawnAct(a) { FrameSpawner(s, a); }
    else if !PoolAct(a) { OutsideControl(s, a); }
  }

  lemma FineReady(s: State, id: Id, k: Id)
    requires Inv(s) && Enabled(s, GetReady(id)) && Fine(s, k)
    ensures Fine(DoGetReady(s, id), k)
  {
    hide Tokens, Holders, Queued, ChannelsOk, LedgerOk;
    assert Site(s, id);
  }

  lemma FineReturned(s: State, id: Id, k: Id)
    requires Inv(s) && Enabled(s, GetReturned(id)) && Fine(s, k)
    ensures Fine(DoGetReturned(s, id), k)
  {
    hide Holders, Queued, Remove, ChannelsOk, LedgerOk;
    BagRemove(s.returning, id, k);
    assert Site(s, id);
  }

  lemma FinePut(s: State, k: Id)
    requires Enabled(s, PutReady) && Fine(s, k)
    ensures Fine(DoPutReady(s), k)
  {
    hide ItemTokens, Holders, Queued, Buffer.Put;
    PutQueued(s.buffer, s.pool.pc.id, k);
    if s.buffer.inClosed { return; }
  }

  lemma FineHandOut(s: State, client: Client, k: Id)
    requires Enabled(s, HandOut(client)) && Fine(s, k)
    ensures Fine(DoHandOut(s, client), k)
  {
    hide ItemTokens, Holders, Queued, Buffer.Take, Add, Leaving;
    TakeQueued(s.buffer, k);
    HoldersAdd(s.held, s.buffer.queue[0], client, k);
  }

  lemma FineUnusable(s: State, k: Id)
    requires Enabled(s, HandOutUnusable) && Fine(s, k)
    ensures Fine(DoHandOutUnusable(s), k)
  {
    hide ItemTokens, Holders, Queued, Buffer.Take, Add, Leaving;
    TakeQueued(s.buffer, k);
    BagAdd(s.returning, s.buffer.queue[0], k);
  }

  lemma FineReturn(s: State, client: Client, id: Id, k: Id)
    requires Enabled(s, ClientReturn(client, id)) && Fine(s, k)
    ensures Fine(DoClientReturn(s, client, id), k)
  {
    hide ItemTokens, Holders, Queued, Add, Remove, Leaving;
    HoldersRemove(s.held, id, client, k);
    BagAdd(s.returning, id, k);
  }

  lemma FineStray(s: State, id: Id, k: Id)
    requires Fine(s, k)
    ensures Fine(Apply(s, StrayReturn(id)), k)
  {
    hide ItemTokens, Holders, Queued, Add, Leaving;
    BagAdd(s.returning, id, k);
  }

  lemma FineDrop(s: State, id: Id, k: Id)
    requires Inv(s) && Enabled(s, DropReturn(id)) && Fine(s, k)
    ensures Fine(Apply(s, DropReturn(id)), k)
  {
    hide TokensOf, Site, Remove, Leaving;
  }

  lemma FineCreate(s: State, id: Id, k: Id)
    requires Inv(s) && Enabled(s, CreateItem(id)) && Fine(s, k)
    ensures Fine(DoCreateItem(s, id), k)
  {
    hide Holders, Queued, Leaving, ChannelsOk, LedgerOk;
    assert Site(s, id);
  }

  lemma FineStep(s: State, a: Action, k: Id)
    requires Inv(s) && !s.cfg.hasReset && Enabled(s, a) && Fine(s, k)
    ensures Fine(Apply(s, a), k)
  {
    hide Fine, Inv, PlainEffect, PuttingNow, Apply, Enabled;
    PoolApplied(s, a);
    OtherApplied(s, a);
    if a.GetReady? { FineReady(s, a.id, k); }
    else if a.GetReturned? { FineReturned(s, a.id, k); }
    else if a.PutReady? { FinePut(s, k); }
    else if a.CreateItem? { FineCreate(s, a.id, k); }
    else if a.HandOut? { FineHandOut(s, a.client, k); }
    else if a.HandOutUnusable? { FineUnusable(s, k); }
    else if a.ClientReturn? { FineReturn(s, a.client, a.id, k); }
    else if a.StrayReturn? { FineStray(s, a.id, k); }
    else if a.DropReturn? { FineDrop(s, a.id, k); }
    else if a.ItemAct? { FineItem(s, a.id, a.x, k); }
    else {
      PlainStep(s, a, k);
      InvStep(s, a);
      if PuttingNow(s, k) { PutGoesOn(s, a, k); }
      FinePlain(s, a, Apply(s, a), k);
    }
  }

  lemma {:induction false} FineAlways(cfg: Config, acts: seq<Action>, k: Id)
    requires Legal(cfg, acts) && !cfg.hasReset
    ensures Fine(After(cfg, acts), k)
    decreases |acts|
  {
    if acts != [] {
      hide Fine, Inv, Apply, Enabled;
      var before, s, a := Last(cfg, acts);
      FineAlways(cfg, before, k);
      FineStep(s, a, k);
    }
  }

  // ---------------------------------------------------------------- with one, a single failure is enough

  /** Client 1 returns its checkout, and the pool asks for the reset. */
  lemma ReturnOnce(cfg: Config, acts: seq<Action>, s: State, i: ItemState) returns (next: seq<Action>, t: State)
    requires Legal(cfg, acts) && s == After(cfg, acts) && Strays.Serving(s, i, multiset{1}, multiset{})
    ensures Legal(cfg, next) && t == After(cfg, next) && (Disciplined(acts) ==> Disciplined(next))
    ensures Strays.Serving(t, i.(resets := i.resets + 1), multiset{}, multiset{})
  {
    hide Legal, After, Strays.Serving;
    next, t := ComesBack(cfg, acts, s, i);
    next, t := IsReset(cfg, next, t, i);
  }

  lemma ComesBack(cfg: Config, acts: seq<Action>, s: State, i: ItemState) returns (next: seq<Action>, t: State)
    requires Legal(cfg, acts) && s == After(cfg, acts) && Strays.Serving(s, i, multiset{1}, multiset{})
    ensures Legal(cfg, next) && t == After(cfg, next) && (Disciplined(acts) ==> Disciplined(next))
    ensures Strays.Serving(t, i, multiset{}, multiset{7})
  {
    next, t := Go(cfg, acts, s, ClientReturn(1, 7));
    assert Remove(multiset{1}, 1) == multiset{} && Add(multiset{}, 7) == multiset{7};
  }

  lemma IsReset(cfg: Config, acts: seq<Action>, s: State, i: ItemState) returns (next: seq<Action>, t: State)
    requires Legal(cfg, acts) && s == After(cfg, acts) && Strays.Serving(s, i, multiset{}, multiset{7})
    ensures Legal(cfg, next) && t == After(cfg, next) && (Disciplined(acts) ==> Disciplined(next))
    ensures Strays.Serving(t, i.(resets := i.resets + 1), multiset{}, multiset{})
  {
    next, t := Go(cfg, acts, s, GetReturned(7));
    assert Remove(multiset{7}, 7) == multiset{};
  }

  /** The reset action of an item that does nothing else fails. */
  lemma ResetFails(cfg: Config, acts: seq<Action>, s: State, i: ItemState)
    returns (next: seq<Action>, t: State, j: ItemState)
    requires Strays.Recycles(cfg) && Legal(cfg, acts) && s == After(cfg, acts) && Disciplined(acts)
    requires Strays.Serving(s, i, multiset{}, multiset{})
    requires Strays.Quiet(i, 1) && !KillSent(i) && i.container.start.Delivered?
    ensures Legal(cfg, next) && t == After(cfg, next) && Disciplined(next)
    ensures Strays.Serving(t, j, multiset{}, multiset{})
    ensures Tokens(j) == 0 && !Leaving(j)
  {
    hide Strays.Serving, Legal, After;
    j := i;
    next, t := Strays.Act(cfg, acts, s, j, multiset{}, Deliver(EvReset));
    j := ItemStep(cfg, j, Deliver(EvReset));
    next, t := Strays.Act(cfg, next, t, j, multiset{}, ChildRuns(OnReset, false));
    j := ItemStep(cfg, j, ChildRuns(OnReset, false));
    next, t := Strays.Act(cfg, next, t, j, multiset{}, ChildReports(EvResetError));
    j := ItemStep(cfg, j, ChildReports(EvResetError));
  }

  /** One client, one checkout, one return, one failed reset. */
  lemma FailureStrands(cfg: Config) returns (acts: seq<Action>)
    requires cfg.size > 0 && cfg.hasReset
    ensures Legal(cfg, acts) && Disciplined(acts) && IsStranded(After(cfg, acts), 7)
  {
    hide Legal, After;
    var s, i;
    acts, s, i := Strays.Prepared(cfg);
    acts, s := Strays.Serve(cfg, acts, s, i, multiset{}, 1);
    i := ItemStep(cfg, i, TakeReady);
    assert Add(multiset{}, 1) == multiset{1};
    acts, s := ReturnOnce(cfg, acts, s, i);
    acts, s, i := ResetFails(cfg, acts, s, i.(resets := i.resets + 1));
  }

  lemma NothingStrandedWithoutResets(cfg: Config, acts: seq<Action>, id: Id)
    requires Legal(cfg, acts) && (!cfg.hasReset || cfg.size == 0)
    ensures !IsStranded(After(cfg, acts), id)
  {
    if cfg.hasReset { Strays.IdleAlways(cfg, acts); } else { FineAlways(cfg, acts, id); }
  }

  /** A container can be stranded, with disciplined clients or with any, exactly when the pool has containers
      and resets them. */
  lemma NothingStrandedExactly(cfg: Config)
    ensures (forall acts :: Legal(cfg, acts) && Disciplined(acts) ==> forall id :: !IsStranded(After(cfg, acts), id))
      <==> !cfg.hasReset || cfg.size == 0
    ensures (forall acts :: Legal(cfg, acts) ==> forall id :: !IsStranded(After(cfg, acts), id))
      <==> !cfg.hasReset || cfg.size == 0
  {
    hide Legal, After, IsStranded;
    if !cfg.hasReset || cfg.size == 0 {
      forall acts, id | Legal(cfg, acts) ensures !IsStranded(After(cfg, acts), id) {
        NothingStrandedWithoutResets(cfg, acts, id);
      }
    } else {
      var acts := FailureStrands(cfg);
      assert Legal(cfg, acts) && Disciplined(acts) && IsStranded(After(cfg, acts), 7);
    }
  }

  // ---------------------------------------------------------------- and it is for good

  lemma OnlyExitRemoves(s: State, a: Action, id: Id)
    requires Inv(s) && Enabled(s, a) && id in s.pool.items && a != GetExit(id)
    ensures id in Apply(s, a).pool.items
  {
    hide Inv, Apply, Enabled;
    PoolApplied(s, a);
    if Supply.QuietAct(a) { Supply.QuietStep(s, a); }
    else if SpawnAct(a) { FrameSpawner(s, a); }
    else if a.TakeNext? { TakeKeeps(s, id); }
    else if a.GetExit? { ExitKeeps(s, a.id, id); }
    else if a.Initialize? { BeginKeeps(s); }
    else { SendKeeps(s); }
  }

  lemma TakeKeeps(s: State, id: Id)
    requires Enabled(s, TakeNext) && id in s.pool.items
    ensures id in DoTakeNext(s).pool.items
  {
    hide Ask;
  }

  lemma ExitKeeps(s: State, gone: Id, id: Id)
    requires Enabled(s, GetExit(gone)) && id in s.pool.items && id != gone
    ensures id in DoGetExit(s, gone).pool.items
  {
    hide ItemStep;
  }

  lemma BeginKeeps(s: State)
    requires Enabled(s, Initialize)
    ensures DoInitialize(s).pool.items == s.pool.items
  {
  }

  lemma SendKeeps(s: State)
    requires Enabled(s, SendRequest)
    ensures DoSendRequest(s).pool.items == s.pool.items
  {
  }

  /** A container of no use stays so, and is tracked until it exits. */
  lemma {:induction false} NeverAgain(cfg: Config, acts: seq<Action>, more: seq<Action>, k: Id)
    requires Legal(cfg, acts) && Legal(cfg, acts + more) && Disciplined(acts + more)
    requires k in After(cfg, acts).items && TokensOf(After(cfg, acts), k) == 0
    ensures k in After(cfg, acts + more).items && TokensOf(After(cfg, acts + more), k) == 0
    ensures k in After(cfg, acts).pool.items && GetExit(k) !in more ==> k in After(cfg, acts + more).pool.items
    decreases |more|
  {
    if more == [] {
      assert acts + more == acts;
    } else {
      hide Legal, After, Apply, Inv, TokensOf, Enabled;
      var less, s, a := Drain.LastMore(cfg, acts, more);
      assert acts + more == (acts + less) + [a];
      assert !(acts + more)[|acts + less|].StrayReturn?;
      Drain.DisciplinedPrefix(acts + less, [a]);
      NeverAgain(cfg, acts, less, k);
      TokensStep(s, a, k);
      assert a in more && forall b :: b in less ==> b in more;
      if k in s.pool.items && a != GetExit(k) { OnlyExitRemoves(s, a, k); }
    }
  }

  /** The report of a failed reset takes the container's only token with it. */
  lemma ResetErrorSpends(s: State, id: Id)
    requires Enabled(s, ItemAct(id, ChildReports(EvResetError))) && TokensOf(s, id) <= 1
    ensures TokensOf(DoItemAct(s, id, ChildReports(EvResetError)), id) == 0
    ensures id in DoItemAct(s, id, ChildReports(EvResetError)).items
  {
    hide Holders;
  }

  lemma SpentAt(cfg: Config, acts: seq<Action>, id: Id, more: seq<Action>)
    requires var now := acts + [ItemAct(id, ChildReports(EvResetError))]; Legal(cfg, now) && Disciplined(now + more)
    ensures var s := After(cfg, acts + [ItemAct(id, ChildReports(EvResetError))]); id in s.items && TokensOf(s, id) == 0
  {
    hide Apply, Inv, TokensOf;
    var now := acts + [ItemAct(id, ChildReports(EvResetError))];
    var before, s, a := Last(cfg, now);
    assert before == acts && a == now[|acts|];
    Drain.DisciplinedPrefix(now, more);
    Drain.DisciplinedPrefix(acts, [a]);
    Handout.OneToken(cfg, acts, id);
    OtherApplied(s, a);
    ResetErrorSpends(s, id);
  }

  /** With disciplined clients, once a failed reset has been reported the container is never again ready, queued,
      held or returned; and if the pool tracks it, it goes on doing so until the container exits. */
  lemma FailedResetStrands(cfg: Config, acts: seq<Action>, more: seq<Action>, id: Id)
    requires var now := acts + [ItemAct(id, ChildReports(EvResetError))];
      Legal(cfg, now) && Legal(cfg, now + more) && Disciplined(now + more)
    ensures var now := acts + [ItemAct(id, ChildReports(EvResetError))];
      var t := After(cfg, now + more);
      && id in t.items && !t.items[id].pc.SendingReady? && t.items[id].resets == 0
      && id !in t.buffer.queue && HoldersOf(t, id) == multiset{} && id !in t.returning
      && (id in After(cfg, now).pool.items && GetExit(id) !in more ==> id in t.pool.items)
  {
    var now := acts + [ItemAct(id, ChildReports(EvResetError))];
    SpentAt(cfg, acts, id, more);
    NeverAgain(cfg, now, more, id);
    assert TokensOf(After(cfg, now + more), id) == 0;
  }
}
