// Exclusive use: the right to use a container is a token that moves from its creation through
// its preparation, the ready buffer, one client and its reset, and is never copied.
module Exclusive {
  import opened Types
  import opened Items
  import opened System
  import opened Structure
  import opened Footprint
  import Buffer

  function ItemTokens(items: map<Id, ItemState>, id: Id): nat {
    if id in items then Items.Tokens(items[id]) else 0
  }

  /** Every place the right to use a container can be: inside its item (unstarted, starting, being checked,
      initialized or reset, reporting ready), on its way to the buffer, in it, with a client, or coming back. */
  function TokensOf(s: State, id: Id): nat {
    ItemTokens(s.items, id) + Bit(PuttingNow(s, id)) + Queued(s.buffer.queue, id) + |HoldersOf(s, id)| + s.returning[id]
  }

  /** A step makes a token only by creating the container, or by a return from somebody who does not hold it. */
  function Made(a: Action, id: Id): nat {
    Bit(a == CreateItem(id)) + Bit(a == StrayReturn(id))
  }

  /** Nothing new for container k: no token copied, and it exists afterwards just if it did before or was created. */
  predicate Kept(s: State, a: Action, t: State, k: Id) {
    && TokensOf(t, k) <= TokensOf(s, k) + Made(a, k)
    && (k in t.items <==> k in s.items || a == CreateItem(k))
  }

  lemma NudgedTokens(cfg: Config, i: ItemState, j: ItemState)
    requires Nudged(cfg, i, j)
    ensures Items.Tokens(j) <= Items.Tokens(i)
  {
    StepTokens(cfg, i, AskKill);
    if i.pc.WaitJoin? { StepTokens(cfg, i, Items.Joined); }
    if i.pc.SendingExit? { StepTokens(cfg, i, TakeExit); }
  }

  lemma TokensPlain(s: State, a: Action, t: State, k: Id)
    requires PlainAct(a) && PlainEffect(s, a, t, k)
    ensures Kept(s, a, t, k)
  {
    hide Items.Tokens, Nudged, Holders, Queued;
    if k in s.items { NudgedTokens(s.cfg, s.items[k], t.items[k]); }
  }

  lemma ItemTokensUpdate(items: map<Id, ItemState>, id: Id, j: ItemState, k: Id)
    ensures ItemTokens(items[id := j], k) == if k == id then Items.Tokens(j) else ItemTokens(items, k)
  {
  }

  lemma ItemTokensAt(items: map<Id, ItemState>, id: Id)
    requires id in items
    ensures ItemTokens(items, id) == Items.Tokens(items[id])
  {
  }

  lemma NewTokens(i: ItemState)
    requires i == NewItem()
    ensures Items.Tokens(i) == 1
  {
  }

  lemma TokensItem(s: State, id: Id, x: ItemInput, k: Id)
    requires Enabled(s, ItemAct(id, x))
    ensures Kept(s, ItemAct(id, x), DoItemAct(s, id, x), k)
  {
    hide DoItemAct, ItemStep, ItemEnabled, Items.Tokens, ItemTokens, Holders, Queued, ItemNote;
    ItemEffects(s, id, x);
    StepTokens(s.cfg, s.items[id], x);
    ItemTokensUpdate(s.items, id, ItemStep(s.cfg, s.items[id], x), k);
    ItemTokensAt(s.items, id);
  }

  /** The item's token becomes the pool's put, or nothing. */
  lemma TokensReady(s: State, id: Id, k: Id)
    requires Enabled(s, GetReady(id))
    ensures Kept(s, GetReady(id), DoGetReady(s, id), k)
  {
    hide ItemStep, Items.Tokens, ItemTokens, Holders, Queued;
    var j := ItemStep(s.cfg, s.items[id], TakeReady);
    StepTokens(s.cfg, s.items[id], TakeReady);
    StepTokens(s.cfg, j, AskKill);
    ItemTokensAt(s.items, id);
    ItemTokensUpdate(s.items, id, j, k);
    ItemTokensUpdate(s.items[id := j], id, ItemStep(s.cfg, j, AskKill), k);
  }

  /** Only asking for a reset takes a token, and it takes one. */
  lemma AskTokens(items: map<Id, ItemState>, cfg: Config, id: Id, x: ItemInput, k: Id)
    requires x.AskReset? || x.AskKill?
    ensures k in Ask(items, cfg, id, x) <==> k in items
    ensures ItemTokens(Ask(items, cfg, id, x), k) <= ItemTokens(items, k) + Bit(x.AskReset? && k == id)
  {
    hide ItemStep, Items.Tokens, ItemTokens;
    if id in items {
      StepTokens(cfg, items[id], x);
      ItemTokensUpdate(items, id, ItemStep(cfg, items[id], x), k);
      ItemTokensAt(items, id);
    }
  }

  /** The returned token becomes the item's reset, or nothing. */
  lemma TokensReturned(s: State, id: Id, k: Id)
    requires Enabled(s, GetReturned(id))
    ensures Kept(s, GetReturned(id), DoGetReturned(s, id), k)
  {
    hide Ask, ItemTokens, Holders, Queued, Remove;
    BagRemove(s.returning, id, k);
    AskTokens(s.items, s.cfg, id, AskReset, k);
    AskTokens(s.items, s.cfg, id, AskKill, k);
  }

  lemma TokensPut(s: State, k: Id)
    requires Enabled(s, PutReady)
    ensures Kept(s, PutReady, DoPutReady(s), k)
  {
    hide ItemTokens, Holders, Queued, Buffer.Put;
    if s.buffer.inClosed { return; }
    PutQueued(s.buffer, s.pool.pc.id, k);
  }

  /** The queue's token becomes the client's, or goes straight back. */
  lemma TokensHandOut(s: State, client: Client, k: Id)
    requires Enabled(s, HandOut(client))
    ensures Kept(s, HandOut(client), DoHandOut(s, client), k)
  {
    hide ItemTokens, Holders, Queued, Buffer.Take, Add;
    TakeQueued(s.buffer, k);
    HoldersAdd(s.held, s.buffer.queue[0], client, k);
  }

  lemma TokensUnusable(s: State, k: Id)
    requires Enabled(s, HandOutUnusable)
    ensures Kept(s, HandOutUnusable, DoHandOutUnusable(s), k)
  {
    hide ItemTokens, Holders, Queued, Buffer.Take, Add;
    TakeQueued(s.buffer, k);
    BagAdd(s.returning, s.buffer.queue[0], k);
  }

  lemma TokensReturn(s: State, client: Client, id: Id, k: Id)
    requires Enabled(s, ClientReturn(client, id))
    ensures Kept(s, ClientReturn(client, id), DoClientReturn(s, client, id), k)
  {
    hide ItemTokens, Holders, Queued, Add, Remove;
    HoldersRemove(s.held, id, client, k);
    BagAdd(s.returning, id, k);
  }

  lemma TokensStray(s: State, id: Id, k: Id)
    ensures Kept(s, StrayReturn(id), Apply(s, StrayReturn(id)), k)
  {
    hide ItemTokens, Holders, Queued, Add;
    BagAdd(s.returning, id, k);
  }

  lemma TokensDrop(s: State, id: Id, k: Id)
    requires Enabled(s, DropReturn(id))
    ensures Kept(s, DropReturn(id), Apply(s, DropReturn(id)), k)
  {
    hide ItemTokens, Holders, Queued, Remove;
    BagRemove(s.returning, id, k);
  }

  lemma TokensCreate(s: State, id: Id, k: Id)
    requires Enabled(s, CreateItem(id))
    ensures Kept(s, CreateItem(id), DoCreateItem(s, id), k)
  {
    hide ItemTokens, Holders, Queued, Items.Tokens, NewItem;
    ItemTokensUpdate(s.items, id, NewItem(), k);
    NewTokens(NewItem());
  }

  lemma TokensStep(s: State, a: Action, k: Id)
    requires Inv(s) && Enabled(s, a)
    ensures Kept(s, a, Apply(s, a), k)
  {
    hide Kept, Inv, Apply, Enabled;
    PoolApplied(s, a);
    OtherApplied(s, a);
    if a.GetReady? { TokensReady(s, a.id, k); }
    else if a.GetReturned? { TokensReturned(s, a.id, k); }
    else if a.PutReady? { TokensPut(s, k); }
    else if a.CreateItem? { TokensCreate(s, a.id, k); }
    else if a.HandOut? { TokensHandOut(s, a.client, k); }
    else if a.HandOutUnusable? { TokensUnusable(s, k); }
    else if a.ClientReturn? { TokensReturn(s, a.client, a.id, k); }
    else if a.StrayReturn? { TokensStray(s, a.id, k); }
    else if a.DropReturn? { TokensDrop(s, a.id, k); }
    else if a.ItemAct? { TokensItem(s, a.id, a.x, k); }
    else { PlainStep(s, a, k); TokensPlain(s, a, Apply(s, a), k); }
  }

  /** How often somebody who does not hold a container has returned it. */
  function StrayReturns(acts: seq<Action>, id: Id): nat {
    multiset(acts)[StrayReturn(id)]
  }

  lemma StrayAppend(acts: seq<Action>, a: Action, id: Id)
    ensures StrayReturns(acts + [a], id) == StrayReturns(acts, id) + Bit(a == StrayReturn(id))
  {
  }

  /** For arbitrary clients: each stray return of a container copies its token at most once. */
  lemma {:induction false} TokensBounded(cfg: Config, acts: seq<Action>, id: Id)
    requires Legal(cfg, acts)
    ensures TokensOf(After(cfg, acts), id) <= Bit(id in After(cfg, acts).items) + StrayReturns(acts, id)
    decreases |acts|
  {
    if acts != [] {
      hide TokensOf, StrayReturns, Apply, Enabled, Inv;
      var before, s, a := Last(cfg, acts);
      TokensBounded(cfg, before, id);
      TokensStep(s, a, id);
      StrayAppend(before, a, id);
    }
  }

  /** No two clients hold the same container; a held container is not also queued, returned, or being
      worked on; and the ready buffer holds no container twice. */
  lemma ExclusiveUse(cfg: Config, acts: seq<Action>)
    requires Legal(cfg, acts) && Disciplined(acts)
    ensures var s := After(cfg, acts);
      && (forall id, c1, c2 :: c1 in HoldersOf(s, id) && c2 in HoldersOf(s, id) ==> c1 == c2)
      && (forall id, c :: c in HoldersOf(s, id) ==>
            && HoldersOf(s, id)[c] == 1
            && id !in s.buffer.queue && id !in s.returning
            && (id in s.items ==> s.items[id].resets == 0 && s.items[id].children.Total() == 0))
      && (forall i, j :: 0 <= i < j < |s.buffer.queue| ==> s.buffer.queue[i] != s.buffer.queue[j])
  {
    var s := After(cfg, acts);
    forall id ensures TokensOf(s, id) <= 1 {
      TokensBounded(cfg, acts, id);
    }
    forall id, c1, c2 | c1 in HoldersOf(s, id) && c2 in HoldersOf(s, id) ensures c1 == c2 && HoldersOf(s, id)[c1] == 1 {
      assert TokensOf(s, id) <= 1;
      AtMostOne(HoldersOf(s, id), c1, c2);
    }
    forall id, c | c in HoldersOf(s, id)
      ensures id !in s.buffer.queue && id !in s.returning
      ensures id in s.items ==> s.items[id].resets == 0 && s.items[id].children.Total() == 0
    {
      assert TokensOf(s, id) <= 1;
    }
    forall i, j | 0 <= i < j < |s.buffer.queue| ensures s.buffer.queue[i] != s.buffer.queue[j] {
      assert TokensOf(s, s.buffer.queue[i]) <= 1;
      Distinct(s.buffer.queue, i, j);
    }
  }

  lemma AtMostOne<T>(m: multiset<T>, x: T, y: T)
    requires x in m && y in m && |m| <= 1
    ensures x == y && m[x] == 1
  {
    var rest := Remove(m, x);
    assert |rest| == 0;
    assert x != y ==> y in rest;
  }

  lemma Distinct(q: seq<Id>, i: nat, j: nat)
    requires i < j < |q| && multiset(q)[q[i]] <= 1
    ensures q[i] != q[j]
  {
    var x := q[i];
    assert q == q[..j] + q[j..];
    assert x in q[..j] && q[j] in q[j..];
  }
}
