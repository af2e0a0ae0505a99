// The whole pool as a state machine: every goroutine's position, every channel, every message in flight.
module System {
  import opened Types
  import opened Logs
  import opened Items
  import Pools
  import Spawner
  import Buffer

  /** Calls of Stop: at their select, past the handshake and waiting for `donech`, returned. */
  datatype Stops = Stops(waiting: nat, sent: nat, returned: nat)

  /** What a reader of the whole run would have noted down. No step depends on it. */
  datatype History = History(
    tracked: set<Id>,     // ever put in the pool's items
    exited: set<Id>,      // whose Exit the pool has processed
    drained: set<Id>,     // received from the spawner while draining
    log: Log,
    started: nat,         // creations started, and how they ended
    succeeded: nat,
    failed: nat,
    handshakes: nat,      // shutdown messages consumed
    drainEvents: nat,     // item messages received while draining
    drainItems: nat)      // items received from the spawner while draining

  datatype State = State(
    cfg: Config,
    pool: Pools.PoolState,
    spawner: Spawner.SpawnerState,
    requests: seq<int>,   // the buffered requestch
    creating: nat,        // goroutines inside createPoolItem
    created: set<Id>,     // ... blocked sending their item to the spawner
    failures: nat,        // ... blocked sending their error
    buffer: Buffer.BufferState,
    items: map<Id, ItemState>,           // every container ever created
    held: map<Id, multiset<Client>>,     // who has checked it out
    returning: multiset<Id>,             // blocked calls of Return
    stops: Stops,
    initClosed: bool,
    requestsClosed: bool,
    nextClosed: bool,
    doneClosed: bool,
    panicked: bool,       // a send on a closed channel, a second close, or a nil item used
    hist: History)

  const REQUEST_CAPACITY := 5

  datatype Action =
    // the pool's goroutine, alone or meeting another one
    | Initialize
    | TakeNext
    | SeeNextClosed
    | JoinItem
    | GetReady(id: Id)
    | GetExit(id: Id)
    | GetReturned(id: Id)
    | PutReady
    | SendRequest
    | LoopTop
    | Shutdown
    // the spawner and the goroutines that create items
    | SpawnRequest
    | SpawnRequestsClosed
    | SpawnItem(id: Id)
    | SpawnError
    | SpawnDrained
    | CreateItem(id: Id)
    | CreateFails
    // the ready buffer and its customers
    | HandOut(client: Client)
    | HandOutUnusable
    | CloseOut
    | ClientReturn(client: Client, id: Id)
    | StrayReturn(id: Id)
    | DropReturn(id: Id)
    | CallStop
    | StopSeesDone
    | StopWaitOver
    // one item, its children and its container
    | ItemAct(id: Id, x: ItemInput)

  function Init(cfg: Config): State {
    State(cfg, Pools.NewPool(), Spawner.NewSpawner(), [], 0, {}, 0, Buffer.NewBuffer(), map[], map[], multiset{},
          Stops(0, 0, 0), false, false, false, false, false,
          History({}, {}, {}, [], 0, 0, 0, 0, 0, 0))
  }

  function Holders(held: map<Id, multiset<Client>>, id: Id): multiset<Client> {
    if id in held then held[id] else multiset{}
  }

  function HoldersOf(s: State, id: Id): multiset<Client> {
    Holders(s.held, id)
  }

  function Note(s: State, kind: Kind, id: Id): (t: State)
    ensures t.cfg == s.cfg
  {
    s.(hist := s.hist.(log := s.hist.log + [Event(kind, id)]))
  }

  function Panic(s: State): (t: State)
    ensures t.cfg == s.cfg
  {
    s.(panicked := true)
  }

  /** `go sendEvent` on one item, and on each of a set of items. */
  function Ask(items: map<Id, ItemState>, cfg: Config, id: Id, x: ItemInput): map<Id, ItemState>
    requires x.AskReset? || x.AskKill?
  {
    if id in items then items[id := ItemStep(cfg, items[id], x)] else items
  }

  function KillAll(items: map<Id, ItemState>, cfg: Config, ids: set<Id>): map<Id, ItemState> {
    map id | id in items :: if id in ids then ItemStep(cfg, items[id], AskKill) else items[id]
  }

  /** The request loop is back at its head, having reached spawner state `sp`. */
  function Refill(s: State, sp: Spawner.SpawnerState): (t: State)
    ensures t.cfg == s.cfg
  {
    s.(spawner := Spawner.Fill(sp),
       creating := s.creating + Spawner.Launched(sp),
       hist := s.hist.(started := s.hist.started + Spawner.Launched(sp)))
  }

  function Drainage(s: State, events: nat, items: nat): History {
    s.hist.(drainEvents := s.hist.drainEvents + events, drainItems := s.hist.drainItems + items)
  }

  // ---------------------------------------------------------------- when a step can happen

  predicate Enabled(s: State, a: Action) {
    match a
    case Initialize => s.pool.pc.Initializing?
    case TakeNext => Spawner.Offering(s.spawner) && (s.nextClosed || s.pool.pc.Running? || s.pool.pc.DrainSpawner?)
    case SeeNextClosed => s.nextClosed && (s.pool.pc.Running? || s.pool.pc.DrainSpawner?)
    case JoinItem =>
      && s.pool.pc.Joining? && s.pool.pc.id in s.items
      && (s.items[s.pool.pc.id].joinClosed || s.items[s.pool.pc.id].pc.WaitJoin?)
    case GetReady(id) => Pools.Receiving(s.pool) && id in s.items && s.items[id].pc.SendingReady?
    case GetExit(id) => Pools.Receiving(s.pool) && id in s.items && s.items[id].pc.SendingExit?
    case GetReturned(id) => Pools.Receiving(s.pool) && id in s.returning
    case PutReady => s.pool.pc.Putting? && (s.buffer.inClosed || !s.buffer.ended)
    case SendRequest => s.pool.pc.Requesting? && (s.requestsClosed || |s.requests| < REQUEST_CAPACITY)
    case LoopTop => s.pool.pc.DrainSpawnerTop? || s.pool.pc.DrainItemsTop?
    case Shutdown => s.pool.pc.Running? && s.stops.waiting > 0
    case SpawnRequest => s.spawner.pc.Selecting? && s.requests != []
    case SpawnRequestsClosed => s.spawner.pc.Selecting? && s.requests == [] && s.requestsClosed
    case SpawnItem(id) => Spawner.AtSelect(s.spawner) && id in s.created
    case SpawnError => Spawner.AtSelect(s.spawner) && s.failures > 0
    case SpawnDrained => s.spawner.pc.DrainSelect? && s.spawner.pending <= 0
    case CreateItem(id) => s.creating > 0 && id !in s.items
    case CreateFails => s.creating > 0
    case HandOut(_) => !s.buffer.ended && s.buffer.queue != []
    case HandOutUnusable => !s.buffer.ended && s.buffer.queue != []
    case CloseOut => s.buffer.inClosed && !s.buffer.ended
    case ClientReturn(client, id) => client in HoldersOf(s, id)
    case StrayReturn(_) => true
    case DropReturn(id) => s.doneClosed && id in s.returning
    case CallStop => true
    case StopSeesDone => s.stops.waiting > 0 && s.doneClosed
    case StopWaitOver => s.stops.sent > 0 && s.doneClosed
    case ItemAct(id, x) => id in s.items && Local(x) && ItemEnabled(s.cfg, s.items[id], x)
  }

  // ---------------------------------------------------------------- what each step does

  function DoInitialize(s: State): (t: State)
    ensures t.cfg == s.cfg
  {
    s.(pool := Pools.Prime(s.cfg.size, s.pool), initClosed := true, panicked := s.panicked || s.initClosed)
  }

  function DoTakeNext(s: State): (t: State)
    requires Enabled(s, TakeNext)
    ensures t.cfg == s.cfg
  {
    if s.nextClosed then Panic(s) else
    var id := s.spawner.pc.id;
    var sent := Spawner.Sent(s.spawner);
    var u := if s.spawner.pc.Sending? then Refill(s, sent) else s.(spawner := sent);
    if s.pool.pc.Running? then
      u.(pool := Pools.OnNext(s.pool, id), hist := u.hist.(tracked := u.hist.tracked + {id}))
    else
      u.(pool := Pools.OnNext(s.pool, id),
         items := Ask(s.items, s.cfg, id, AskKill),
         hist := Drainage(u, 0, 1).(drained := u.hist.drained + {id}))
  }

  /** A receive from the closed `nextch` yields a nil item, which only the drain loop checks for. */
  function DoSeeNextClosed(s: State): (t: State)
    ensures t.cfg == s.cfg
  {
    if s.pool.pc.Running? then Panic(s) else s.(pool := s.pool.(pc := Pools.DrainItemsTop))
  }

  function DoJoinItem(s: State): (t: State)
    requires Enabled(s, JoinItem)
    ensures t.cfg == s.cfg
  {
    var id := s.pool.pc.id;
    if s.items[id].joinClosed then Panic(s) else
    s.(pool := Pools.Again(s.pool), items := s.items[id := ItemStep(s.cfg, s.items[id], Joined)])
  }

  function DoGetReady(s: State, id: Id): (t: State)
    requires Enabled(s, GetReady(id))
    ensures t.cfg == s.cfg
  {
    var taken := s.items[id := ItemStep(s.cfg, s.items[id], TakeReady)];
    var drain := Pools.Shut(s.pool);
    var u := s.(
      pool := Pools.OnReady(s.pool, id),
      items := if drain && id in s.pool.items then Ask(taken, s.cfg, id, AskKill) else taken,
      hist := Drainage(s, Bit(drain), 0));
    Note(u, ReadySeen, id)
  }

  function DoGetExit(s: State, id: Id): (t: State)
    requires Enabled(s, GetExit(id))
    ensures t.cfg == s.cfg
  {
    var u := s.(
      pool := Pools.OnExit(s.cfg.size, s.pool, id),
      items := s.items[id := ItemStep(s.cfg, s.items[id], TakeExit)],
      panicked := s.panicked || s.items[id].exitedClosed,
      hist := Drainage(s, Bit(Pools.Shut(s.pool)), 0).(exited := s.hist.exited + {id}));
    Note(u, ExitSeen, id)
  }

  /** Nobody checks who is returning the item: any id the pool tracks is reset (or, when draining, killed). */
  function DoGetReturned(s: State, id: Id): (t: State)
    requires Enabled(s, GetReturned(id))
    ensures t.cfg == s.cfg
  {
    var drain := Pools.Shut(s.pool);
    s.(pool := Pools.Again(s.pool),
       returning := Remove(s.returning, id),
       items := if id in s.pool.items then Ask(s.items, s.cfg, id, if drain then AskKill else AskReset) else s.items,
       hist := Drainage(s, Bit(drain), 0))
  }

  function DoPutReady(s: State): (t: State)
    requires Enabled(s, PutReady)
    ensures t.cfg == s.cfg
  {
    if s.buffer.inClosed then Panic(s) else
    var id := s.pool.pc.id;
    Note(s.(pool := Pools.Again(s.pool), buffer := Buffer.Put(s.buffer, id)), Put, id)
  }

  function DoSendRequest(s: State): (t: State)
    requires Enabled(s, SendRequest)
    ensures t.cfg == s.cfg
  {
    if s.requestsClosed then Panic(s) else
    s.(pool := Pools.Again(s.pool), requests := s.requests + [s.pool.pc.count])
  }

  function DoLoopTop(s: State): (t: State)
    ensures t.cfg == s.cfg
  {
    var p := Pools.OnTop(s.pool);
    if p.pc.Done? then s.(pool := p, doneClosed := true, panicked := s.panicked || s.doneClosed)
    else s.(pool := p, items := KillAll(s.items, s.cfg, s.pool.items))
  }

  function DoShutdown(s: State): (t: State)
    requires Enabled(s, Shutdown)
    ensures t.cfg == s.cfg
  {
    s.(pool := s.pool.(pc := Pools.DrainSpawnerTop),
       stops := s.stops.(waiting := s.stops.waiting - 1, sent := s.stops.sent + 1),
       buffer := s.buffer.(inClosed := true),
       requestsClosed := true,
       panicked := s.panicked || s.buffer.inClosed || s.requestsClosed,
       items := KillAll(s.items, s.cfg, s.pool.items),
       hist := s.hist.(handshakes := s.hist.handshakes + 1))
  }

  /** The newest request replaces the target, whatever the older one asked for. */
  function DoSpawnRequest(s: State): (t: State)
    requires Enabled(s, SpawnRequest)
    ensures t.cfg == s.cfg
  {
    Refill(s.(requests := s.requests[1..]), s.spawner.(needed := s.requests[0]))
  }

  function DoSpawnItem(s: State, id: Id): (t: State)
    requires Enabled(s, SpawnItem(id))
    ensures t.cfg == s.cfg
  {
    s.(spawner := Spawner.Receive(s.spawner, id),
       created := s.created - {id},
       hist := s.hist.(succeeded := s.hist.succeeded + 1))
  }

  function DoSpawnError(s: State): (t: State)
    requires Enabled(s, SpawnError)
    ensures t.cfg == s.cfg
  {
    var less := s.spawner.(pending := s.spawner.pending - 1);
    var u := s.(failures := s.failures - 1, hist := s.hist.(failed := s.hist.failed + 1));
    if s.spawner.pc.Selecting? then Refill(u, less) else u.(spawner := less)
  }

  function DoSpawnDrained(s: State): (t: State)
    ensures t.cfg == s.cfg
  {
    s.(spawner := s.spawner.(pc := Spawner.Closed), nextClosed := true, panicked := s.panicked || s.nextClosed)
  }

  function DoCreateItem(s: State, id: Id): (t: State)
    requires Enabled(s, CreateItem(id))
    ensures t.cfg == s.cfg
  {
    s.(creating := s.creating - 1, created := s.created + {id}, items := s.items[id := NewItem()])
  }

  function DoHandOut(s: State, client: Client): (t: State)
    requires Enabled(s, HandOut(client))
    ensures t.cfg == s.cfg
  {
    if s.buffer.outClosed then Panic(s) else
    var id := s.buffer.queue[0];
    Note(s.(buffer := Buffer.Take(s.buffer), held := s.held[id := Add(HoldersOf(s, id), client)]), HandedOut, id)
  }

  /** makeParams failed after the item had left the buffer: the checkout returns it itself. */
  function DoHandOutUnusable(s: State): (t: State)
    requires Enabled(s, HandOutUnusable)
    ensures t.cfg == s.cfg
  {
    if s.buffer.outClosed then Panic(s) else
    var id := s.buffer.queue[0];
    Note(s.(buffer := Buffer.Take(s.buffer), returning := Add(s.returning, id)), HandedOut, id)
  }

  function DoClientReturn(s: State, client: Client, id: Id): (t: State)
    requires Enabled(s, ClientReturn(client, id))
    ensures t.cfg == s.cfg
  {
    s.(held := s.held[id := Remove(HoldersOf(s, id), client)], returning := Add(s.returning, id))
  }

  function DoItemAct(s: State, id: Id, x: ItemInput): (t: State)
    requires Enabled(s, ItemAct(id, x))
    ensures t.cfg == s.cfg
  {
    var u := s.(items := s.items[id := ItemStep(s.cfg, s.items[id], x)]);
    match ItemNote(s.cfg, x)
    case None => u
    case Some(kind) => Note(u, kind, id)
  }

  function Apply(s: State, a: Action): (t: State)
    requires Enabled(s, a)
    ensures t.cfg == s.cfg
  {
    match a
    case Initialize => DoInitialize(s)
    case TakeNext => DoTakeNext(s)
    case SeeNextClosed => DoSeeNextClosed(s)
    case JoinItem => DoJoinItem(s)
    case GetReady(id) => DoGetReady(s, id)
    case GetExit(id) => DoGetExit(s, id)
    case GetReturned(id) => DoGetReturned(s, id)
    case PutReady => DoPutReady(s)
    case SendRequest => DoSendRequest(s)
    case LoopTop => DoLoopTop(s)
    case Shutdown => DoShutdown(s)
    case SpawnRequest => DoSpawnRequest(s)
    case SpawnRequestsClosed => s.(spawner := s.spawner.(pc := Spawner.DrainSelect))
    case SpawnItem(id) => DoSpawnItem(s, id)
    case SpawnError => DoSpawnError(s)
    case SpawnDrained => DoSpawnDrained(s)
    case CreateItem(id) => DoCreateItem(s, id)
    case CreateFails => s.(creating := s.creating - 1, failures := s.failures + 1)
    case HandOut(client) => DoHandOut(s, client)
    case HandOutUnusable => DoHandOutUnusable(s)
    case CloseOut =>
      s.(buffer := s.buffer.(outClosed := true, ended := true), panicked := s.panicked || s.buffer.outClosed)
    case ClientReturn(client, id) => DoClientReturn(s, client, id)
    case StrayReturn(id) => s.(returning := Add(s.returning, id))
    case DropReturn(id) => s.(returning := Remove(s.returning, id))
    case CallStop => s.(stops := s.stops.(waiting := s.stops.waiting + 1))
    case StopSeesDone => s.(stops := s.stops.(waiting := s.stops.waiting - 1, returned := s.stops.returned + 1))
    case StopWaitOver => s.(stops := s.stops.(sent := s.stops.sent - 1, returned := s.stops.returned + 1))
    case ItemAct(id, x) => DoItemAct(s, id, x)
  }

  /** Which function each step is: for proofs about all steps that look inside none of them. */
  lemma PoolApplied(s: State, a: Action)
    requires Enabled(s, a)
    ensures a.Initialize? ==> Apply(s, a) == DoInitialize(s)
    ensures a.TakeNext? ==> Apply(s, a) == DoTakeNext(s)
    ensures a.SeeNextClosed? ==> Apply(s, a) == DoSeeNextClosed(s)
    ensures a.JoinItem? ==> Apply(s, a) == DoJoinItem(s)
    ensures a.GetReady? ==> Apply(s, a) == DoGetReady(s, a.id)
    ensures a.GetExit? ==> Apply(s, a) == DoGetExit(s, a.id)
    ensures a.GetReturned? ==> Apply(s, a) == DoGetReturned(s, a.id)
    ensures a.PutReady? ==> Apply(s, a) == DoPutReady(s)
    ensures a.SendRequest? ==> Apply(s, a) == DoSendRequest(s)
    ensures a.LoopTop? ==> Apply(s, a) == DoLoopTop(s)
    ensures a.Shutdown? ==> Apply(s, a) == DoShutdown(s)
  {
    hide Enabled, DoInitialize, DoTakeNext, DoSeeNextClosed, DoJoinItem, DoGetReady, DoGetExit, DoGetReturned, DoPutReady,
      DoSendRequest, DoLoopTop, DoShutdown, DoSpawnRequest, DoSpawnItem, DoSpawnError, DoSpawnDrained, DoCreateItem,
      DoHandOut, DoHandOutUnusable, DoClientReturn, DoItemAct;
  }

  lemma OtherApplied(s: State, a: Action)
    requires Enabled(s, a)
    ensures a.SpawnRequest? ==> Apply(s, a) == DoSpawnRequest(s)
    ensures a.SpawnItem? ==> Apply(s, a) == DoSpawnItem(s, a.id)
    ensures a.SpawnError? ==> Apply(s, a) == DoSpawnError(s)
    ensures a.SpawnDrained? ==> Apply(s, a) == DoSpawnDrained(s)
    ensures a.CreateItem? ==> Apply(s, a) == DoCreateItem(s, a.id)
    ensures a.HandOut? ==> Apply(s, a) == DoHandOut(s, a.client)
    ensures a.HandOutUnusable? ==> Apply(s, a) == DoHandOutUnusable(s)
    ensures a.ClientReturn? ==> Apply(s, a) == DoClientReturn(s, a.client, a.id)
    ensures a.ItemAct? ==> Apply(s, a) == DoItemAct(s, a.id, a.x)
  {
    hide Enabled, DoInitialize, DoTakeNext, DoSeeNextClosed, DoJoinItem, DoGetReady, DoGetExit, DoGetReturned, DoPutReady,
      DoSendRequest, DoLoopTop, DoShutdown, DoSpawnRequest, DoSpawnItem, DoSpawnError, DoSpawnDrained, DoCreateItem,
      DoHandOut, DoHandOutUnusable, DoClientReturn, DoItemAct;
  }

  // ---------------------------------------------------------------- runs

  /** A schedule is legal if each of its steps can happen when its turn comes. */
  ghost predicate Legal(cfg: Config, acts: seq<Action>)
    decreases |acts|, 0
  {
    acts == [] ||
    (Legal(cfg, acts[..|acts| - 1]) && Enabled(After(cfg, acts[..|acts| - 1]), acts[|acts| - 1]))
  }

  /** The state a legal schedule leads to. */
  ghost function After(cfg: Config, acts: seq<Action>): (s: State)
    requires Legal(cfg, acts)
    ensures s.cfg == cfg
    decreases |acts|, 1
  {
    if acts == [] then Init(cfg)
    else Apply(After(cfg, acts[..|acts| - 1]), acts[|acts| - 1])
  }

  /** Clients return only what they hold, once per checkout. */
  ghost predicate Disciplined(acts: seq<Action>) {
    forall k :: 0 <= k < |acts| ==> !acts[k].StrayReturn?
  }

  /** One more step. */
  lemma Extend(cfg: Config, acts: seq<Action>, a: Action)
    requires Legal(cfg, acts) && Enabled(After(cfg, acts), a)
    ensures Legal(cfg, acts + [a])
    ensures After(cfg, acts + [a]) == Apply(After(cfg, acts), a)
  {
    assert (acts + [a])[..|acts|] == acts;
  }

  /** One more step of a run, named by where it leads. */
  lemma Go(cfg: Config, acts: seq<Action>, s: State, a: Action) returns (next: seq<Action>, t: State)
    requires Legal(cfg, acts) && s == After(cfg, acts) && Enabled(s, a)
    ensures next == acts + [a] && Legal(cfg, next) && t == After(cfg, next) == Apply(s, a)
    ensures Disciplined(acts) && !a.StrayReturn? ==> Disciplined(next)
  {
    next := acts + [a];
    t := Apply(s, a);
    Extend(cfg, acts, a);
  }
}
