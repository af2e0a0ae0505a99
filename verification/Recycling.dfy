// Recycling, whatever the clients do: a container is put in the ready buffer at most once for its
// creation and once for each reset that succeeded.
module Recycling {
  import opened Types
  import opened Logs
  import opened Items
  import opened System
  import opened Structure
  import opened Footprint
  import Buffer
  import Order

  /** Ready messages the item may still send without another successful reset. */
  function Promise(i: ItemState): nat {
    Bit(i.pc.WaitJoin?) + i.starts + Bit(i.container.start.Starting? || i.container.start.UpPending?)
    + i.children.onStarted + i.children.live + i.children.onLive + i.children.ready + Bit(i.pc.SendingReady?)
  }

  function Promised(items: map<Id, ItemState>, id: Id): nat {
    if id in items then Promise(items[id]) else 0
  }

  predicate Recycled(s: State, k: Id) {
    Count(s.hist.log, Put, k) + Bit(PuttingNow(s, k)) + Promised(s.items, k)
      <= Bit(k in s.items) + Count(s.hist.log, ResetOk, k)
  }

  lemma PromiseEvent(i: ItemState, e: ItemEvent)
    requires Listening(i)
    ensures Promise(OnEvent(i, e)) <= Promise(i) + Bit(e.EvStart? || e.EvLive? || e.EvReady?)
  {
  }

  lemma PromiseDeliver(i: ItemState, e: ItemEvent)
    requires Senders(i, e) > 0 && Listening(i)
    ensures Promise(OnEvent(DropSender(i, e), e)) <= Promise(i)
  {
    PromiseEvent(DropSender(i, e), e);
  }

  lemma PromiseReport(i: ItemState, e: ItemEvent)
    requires i.children.At(Reporting(e)) > 0 && Listening(i)
    ensures Promise(OnEvent(i.(children := i.children.Leave(Reporting(e))), e)) <= Promise(i)
  {
    PromiseEvent(i.(children := i.children.Leave(Reporting(e))), e);
  }

  lemma PromiseRelease(i: ItemState, e: ItemEvent)
    requires Senders(i, e) > 0
    ensures Promise(DropSender(i, e)) <= Promise(i)
  {
  }

  lemma PromiseChild(cfg: Config, i: ItemState, c: Child, ok: bool)
    requires i.children.At(c) > 0 && !c.Reporting?
    ensures Promise(ChildResult(cfg, i, c, ok)) <= Promise(i) + Bit(ItemNote(cfg, ChildRuns(c, ok)) == Some(ResetOk))
  {
  }

  /** Only a successful reset renews the promise; a failed one, or a return without a reset, does not. */
  lemma PromiseStep(cfg: Config, i: ItemState, x: ItemInput)
    requires ItemEnabled(cfg, i, x)
    ensures Promise(ItemStep(cfg, i, x)) + Bit(x.TakeReady?) <= Promise(i) + Bit(ItemNote(cfg, x) == Some(ResetOk))
  {
    hide OnEvent, ChildResult, DropSender;
    match x
    case Deliver(e) => PromiseDeliver(i, e);
    case Release(e) => PromiseRelease(i, e);
    case ChildRuns(c, ok) => PromiseChild(cfg, i, c, ok);
    case ChildReports(e) => PromiseReport(i, e);
    case _ =>
  }

  lemma RecycledItem(s: State, id: Id, x: ItemInput, k: Id)
    requires Enabled(s, ItemAct(id, x)) && Recycled(s, k)
    ensures Recycled(DoItemAct(s, id, x), k)
  {
    hide DoItemAct, ItemStep, ItemEnabled, Promise, ItemNote, Count;
    ItemEffects(s, id, x);
    PromiseStep(s.cfg, s.items[id], x);
    NoteNotPut(s.cfg, x);
    if ItemNote(s.cfg, x).Some? {
      CountOne(s.hist.log, Event(ItemNote(s.cfg, x).value, id), Put, k);
      CountOne(s.hist.log, Event(ItemNote(s.cfg, x).value, id), ResetOk, k);
    }
  }

  lemma NoteNotPut(cfg: Config, x: ItemInput)
    ensures ItemNote(cfg, x) != Some(Put)
  {
  }

  lemma RecycledReady(s: State, id: Id, k: Id)
    requires Enabled(s, GetReady(id)) && Recycled(s, k)
    ensures Recycled(DoGetReady(s, id), k)
  {
    hide ItemStep, Promise;
    PromiseStep(s.cfg, s.items[id], TakeReady);
    PromiseStep(s.cfg, ItemStep(s.cfg, s.items[id], TakeReady), AskKill);
  }

  lemma RecycledReturned(s: State, id: Id, k: Id)
    requires Enabled(s, GetReturned(id)) && Recycled(s, k)
    ensures Recycled(DoGetReturned(s, id), k)
  {
    hide ItemStep, Promise;
    if id in s.items {
      PromiseStep(s.cfg, s.items[id], AskReset);
      PromiseStep(s.cfg, s.items[id], AskKill);
    }
  }

  lemma RecycledPut(s: State, k: Id)
    requires Inv(s) && Enabled(s, PutReady) && Recycled(s, k)
    ensures Recycled(DoPutReady(s), k)
  {
    hide Promised;
  }

  lemma RecycledCreate(s: State, id: Id, k: Id)
    requires Enabled(s, CreateItem(id)) && Recycled(s, k)
    ensures Recycled(DoCreateItem(s, id), k)
  {
  }

  lemma RecycledPlain(s: State, a: Action, t: State, k: Id)
    requires PlainAct(a) && PlainEffect(s, a, t, k) && Recycled(s, k)
    ensures Recycled(t, k)
  {
    hide Nudged, Promise;
    if k in s.items { PromiseNudged(s.cfg, s.items[k], t.items[k]); }
  }

  lemma PromiseNudged(cfg: Config, i: ItemState, j: ItemState)
    requires Nudged(cfg, i, j)
    ensures Promise(j) <= Promise(i)
  {
    hide Promise;
    PromiseStep(cfg, i, AskKill);
    if i.pc.WaitJoin? { PromiseStep(cfg, i, Items.Joined); }
    if i.pc.SendingExit? { PromiseStep(cfg, i, TakeExit); }
  }

  lemma RecycledFrame(s: State, t: State, k: Id)
    requires Recycled(s, k) && t.pool == s.pool && t.items == s.items
    requires t.hist.log == s.hist.log || (s.buffer.queue != [] && t.hist.log == s.hist.log + [Event(HandedOut, s.buffer.queue[0])])
    ensures Recycled(t, k)
  {
    hide Promised, Count;
    if s.buffer.queue != [] {
      CountOne(s.hist.log, Event(HandedOut, s.buffer.queue[0]), Put, k);
      CountOne(s.hist.log, Event(HandedOut, s.buffer.queue[0]), ResetOk, k);
    }
  }

  lemma RecycledClients(s: State, a: Action, k: Id)
    requires Enabled(s, a) && Recycled(s, k)
    requires a.ClientReturn? || a.StrayReturn? || a.DropReturn?
    ensures Recycled(Apply(s, a), k)
  {
    hide Recycled, HoldersOf, Add, Remove;
    RecycledFrame(s, Apply(s, a), k);
  }

  lemma RecycledHandOut(s: State, client: Client, k: Id)
    requires Enabled(s, HandOut(client)) && Recycled(s, k)
    ensures Recycled(DoHandOut(s, client), k)
  {
    hide Recycled, HoldersOf, Buffer.Take, Add;
    if s.buffer.outClosed { RecycledFrame(s, Panic(s), k); return; }
    RecycledFrame(s, DoHandOut(s, client), k);
  }

  lemma RecycledUnusable(s: State, k: Id)
    requires Enabled(s, HandOutUnusable) && Recycled(s, k)
    ensures Recycled(DoHandOutUnusable(s), k)
  {
    hide Recycled, Buffer.Take, Add;
    if s.buffer.outClosed { RecycledFrame(s, Panic(s), k); return; }
    RecycledFrame(s, DoHandOutUnusable(s), k);
  }

  lemma RecycledStep(s: State, a: Action, k: Id)
    requires Inv(s) && Enabled(s, a) && Recycled(s, k)
    ensures Recycled(Apply(s, a), k)
  {
    hide Recycled, Inv, PlainEffect, Apply, Enabled;
    PoolApplied(s, a);
    OtherApplied(s, a);
    if a.GetReady? { RecycledReady(s, a.id, k); }
    else if a.GetReturned? { RecycledReturned(s, a.id, k); }
    else if a.PutReady? { RecycledPut(s, k); }
    else if a.CreateItem? { RecycledCreate(s, a.id, k); }
    else if a.ItemAct? { RecycledItem(s, a.id, a.x, k); }
    else if PlainAct(a) { PlainStep(s, a, k); RecycledPlain(s, a, Apply(s, a), k); }
    else if a.HandOut? { RecycledHandOut(s, a.client, k); }
    else if a.HandOutUnusable? { RecycledUnusable(s, k); }
    else { RecycledClients(s, a, k); }
  }

  lemma {:induction false} RecycledAlways(cfg: Config, acts: seq<Action>, k: Id)
    requires Legal(cfg, acts)
    ensures Recycled(After(cfg, acts), k)
    decreases |acts|
  {
    if acts != [] {
      hide Recycled, Inv, Apply, Enabled;
      var before, s, a := Last(cfg, acts);
      RecycledAlways(cfg, before, k);
      RecycledStep(s, a, k);
    }
  }

  /** Without a reset action there are no successful resets. */
  lemma {:induction false} NoResetNoted(cfg: Config, acts: seq<Action>, k: Id)
    requires Legal(cfg, acts) && !cfg.hasReset
    ensures Count(After(cfg, acts).hist.log, ResetOk, k) == 0
    decreases |acts|
  {
    if acts != [] {
      hide Inv, Apply;
      var before, s, a := Last(cfg, acts);
      NoResetNoted(cfg, before, k);
      AddedStep(s, a);
    }
  }

  /** For any clients, returning anything any number of times: puts, and hence checkouts, of one container
      number at most one more than its successful resets. Without a reset action nobody gets it twice. */
  lemma RecyclingCount(cfg: Config, acts: seq<Action>, id: Id)
    requires Legal(cfg, acts)
    ensures var log := After(cfg, acts).hist.log;
      && Count(log, HandedOut, id) <= Count(log, Put, id) <= 1 + Count(log, ResetOk, id)
      && (!cfg.hasReset ==> Count(log, HandedOut, id) <= 1)
  {
    RecycledAlways(cfg, acts, id);
    Order.FifoAlways(cfg, acts);
    IdsCount(After(cfg, acts).hist.log, Put, id);
    IdsCount(After(cfg, acts).hist.log, HandedOut, id);
    if !cfg.hasReset { NoResetNoted(cfg, acts, id); }
  }
}
