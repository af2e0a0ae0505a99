// The pool's goroutine as the loops it runs: serve, drain the spawner, drain the items.
module PoolLoop {
  import opened Types
  import opened Pools

  /** What its selects receive. */
  datatype PoolInput = Next(id: Id) | NextClosed | Ready(id: Id) | Returned(id: Id) | Exited(id: Id) | ShutdownMessage

  /** What it asks of the items, the buffer and the spawner. */
  datatype Call =
    | Join(id: Id) | Start(id: Id) | Reset(id: Id) | Kill(id: Id)
    | Put(id: Id) | Request(n: int) | StopBuffer | StopSpawner

  predicate Possible(p: PoolState, x: PoolInput) {
    match p.pc
    case Running => !x.NextClosed?
    case DrainSpawner => !x.ShutdownMessage?
    case DrainItems => x.Ready? || x.Returned? || x.Exited?
    case _ => false
  }

  /** The arm of the select, up to its blocking send or the head of the drain loop. */
  function React(size: nat, p: PoolState, x: PoolInput): PoolState {
    match x
    case Next(id) => OnNext(p, id)
    case NextClosed => p.(pc := DrainItemsTop)
    case Ready(id) => OnReady(p, id)
    case Returned(_) => Again(p)
    case Exited(id) => OnExit(size, p, id)
    case ShutdownMessage => p.(pc := DrainSpawnerTop)
  }

  /** From there on to the next select, or the end. */
  function Settle(p: PoolState): PoolState {
    if p.pc.DrainSpawnerTop? || p.pc.DrainItemsTop? then OnTop(p)
    else if p.pc.Joining? || p.pc.Putting? || p.pc.Requesting? then p.(pc := PoolPc.Running)
    else p
  }

  function After(size: nat, p: PoolState, x: PoolInput): PoolState {
    Settle(React(size, p, x))
  }

  function Kills(ids: set<Id>): multiset<Call> {
    multiset(set id | id in ids :: Kill(id))
  }

  /** What the head of a drain loop asks. */
  function TopCalls(p: PoolState): multiset<Call> {
    if p.pc.DrainSpawnerTop? || (p.pc.DrainItemsTop? && p.items != {}) then Kills(p.items) else multiset{}
  }

  function ArmCalls(size: nat, p: PoolState, x: PoolInput): multiset<Call> {
    match x
    case Next(id) => if p.pc.Running? then multiset{Join(id), Start(id)} else multiset{Kill(id)}
    case NextClosed => multiset{}
    case Ready(id) => if id !in p.items then multiset{} else if p.pc.Running? then multiset{Put(id)} else multiset{Kill(id)}
    case Returned(id) =>
      if id !in p.items then multiset{} else if p.pc.Running? then multiset{Reset(id)} else multiset{Kill(id)}
    case Exited(id) =>
      var n := size - |p.items - {id}|;
      if p.pc.Running? && n > 0 then multiset{Request(n)} else multiset{}
    case ShutdownMessage => multiset{StopBuffer, StopSpawner} + Kills(p.items)
  }

  function Calls(size: nat, p: PoolState, x: PoolInput): multiset<Call> {
    ArmCalls(size, p, x) + TopCalls(React(size, p, x))
  }

  /** Where a list of inputs takes the pool, if each is possible in turn, and everything it asks on the way. */
  function Follow(size: nat, p: PoolState, xs: seq<PoolInput>): Option<PoolState>
    decreases |xs|
  {
    if xs == [] then Some(p)
    else if Possible(p, xs[0]) then Follow(size, After(size, p, xs[0]), xs[1..])
    else None
  }

  function AllCalls(size: nat, p: PoolState, xs: seq<PoolInput>): multiset<Call>
    decreases |xs|
  {
    if xs == [] then multiset{} else Calls(size, p, xs[0]) + AllCalls(size, After(size, p, xs[0]), xs[1..])
  }

  /** Where the remaining inputs lead from somewhere in the loops, and everything asked by then. */
  function Ahead(size: nat, p: PoolState, calls: multiset<Call>, rest: seq<PoolInput>): (Option<PoolState>, multiset<Call>) {
    (Follow(size, Settle(p), rest), calls + TopCalls(p) + AllCalls(size, Settle(p), rest))
  }

  lemma AheadReact(size: nat, p: PoolState, calls: multiset<Call>, xs: seq<PoolInput>)
    requires Receiving(p) && xs != [] && Follow(size, p, xs).Some?
    ensures Possible(p, xs[0])
    ensures Ahead(size, React(size, p, xs[0]), calls + ArmCalls(size, p, xs[0]), xs[1..]) == Ahead(size, p, calls, xs)
  {
    hide ArmCalls, React, OnTop, TopCalls;
    var q, arm := React(size, p, xs[0]), ArmCalls(size, p, xs[0]);
    var later := AllCalls(size, Settle(q), xs[1..]);
    assert TopCalls(p) == multiset{} by { NoTopCalls(p); }
    assert (calls + arm) + TopCalls(q) + later == calls + multiset{} + ((arm + TopCalls(q)) + later);
  }

  lemma NoTopCalls(p: PoolState)
    requires !p.pc.DrainSpawnerTop? && !p.pc.DrainItemsTop?
    ensures TopCalls(p) == multiset{}
  {
  }

  lemma AheadTop(size: nat, p: PoolState, calls: multiset<Call>, rest: seq<PoolInput>)
    requires p.pc.DrainSpawnerTop? || p.pc.DrainItemsTop?
    ensures Ahead(size, OnTop(p), calls + TopCalls(p), rest) == Ahead(size, p, calls, rest)
  {
    hide Follow, AllCalls, Kills;
    assert calls + TopCalls(p) + multiset{} == calls + TopCalls(p);
  }

  lemma AheadSettle(size: nat, p: PoolState, calls: multiset<Call>, rest: seq<PoolInput>)
    requires !p.pc.DrainSpawnerTop? && !p.pc.DrainItemsTop?
    ensures Ahead(size, Settle(p), calls, rest) == Ahead(size, p, calls, rest)
  {
    hide Follow, AllCalls, Kills;
  }

  /** After every message of a drain, each item still tracked has just been asked to stop. */
  lemma DrainAsksEveryItem(size: nat, p: PoolState, x: PoolInput, id: Id)
    requires Possible(p, x) && (x.ShutdownMessage? || !p.pc.Running?)
    requires id in After(size, p, x).items
    ensures Kill(id) in Calls(size, p, x)
  {
    hide ArmCalls;
    var ids := React(size, p, x).items;
    assert id in ids;
    assert Kill(id) in (set k | k in ids :: Kill(k));
  }

  /** A running pool kills nothing, puts and resets only what it tracks, and requests exactly what it lacks. */
  lemma RunningCalls(size: nat, p: PoolState, x: PoolInput, c: Call)
    requires p.pc.Running? && Possible(p, x) && !x.ShutdownMessage? && c in Calls(size, p, x)
    ensures !c.Kill? && !c.StopBuffer? && !c.StopSpawner?
    ensures c.Put? || c.Reset? ==> c.id in p.items
    ensures c.Request? ==> c.n > 0 && c.n + |After(size, p, x).items| == size
  {
  }

  function Most(a: nat, b: nat): nat { if a < b then b else a }

  function Asking(n: nat): multiset<Call> {
    if n == 0 then multiset{} else multiset{Request(n)}
  }

  class Pool {
    const size: nat
    var pc: PoolPc
    var items: set<Id>
    var calls: multiset<Call>

    ghost function View(): PoolState
      reads this
    {
      PoolState(pc, items)
    }

    constructor (size: nat)
      ensures View() == NewPool() && calls == multiset{} && this.size == size
    {
      this.size := size;
      pc, items, calls := Initializing, {}, multiset{};
    }

    method KillItems()
      modifies `calls
      ensures calls == old(calls) + Kills(items)
    {
      var rest := items;
      assert Kills({}) == multiset{};
      while rest != {}
        invariant rest <= items
        invariant calls + Kills(rest) == old(calls) + Kills(items)
      {
        var id :| id in rest;
        KillsOne(rest, id);
        calls := calls + multiset{Kill(id)};
        rest := rest - {id};
      }
    }

    /** With what it asks for, if it asks, the pool has its size; and it asks for nothing it does not lack. */
    method PrimeBacklog()
      modifies `calls
      ensures exists asked: nat :: calls == old(calls) + Asking(asked) && |items| + asked == Most(|items|, size)
    {
      var current := |items|;
      ghost var before := calls;
      if current < size {
        calls := calls + multiset{Request(size - current)};
        assert calls == before + Asking(size - current);
      } else {
        assert calls == before + Asking(0);
      }
    }

    /** The successful path of initialization. */
    method Initialize()
      requires pc.Initializing?
      modifies this
      ensures View() == Settle(Prime(size, old(View())))
      ensures calls == old(calls) + if |items| < size then multiset{Request(size - |items|)} else multiset{}
    {
      PrimeBacklog();
      pc := Running;
    }

    /** One arm of the running loop. */
    method ServeOne(x: PoolInput)
      requires pc.Running? && Possible(View(), x)
      modifies this
      ensures View() == (if x.ShutdownMessage? then React(size, old(View()), x) else After(size, old(View()), x))
      ensures calls == old(calls) + ArmCalls(size, old(View()), x)
    {
      match x {
        case ShutdownMessage =>
          pc := DrainSpawnerTop;
          calls := calls + multiset{StopBuffer, StopSpawner};
          KillItems();
        case Next(id) =>
          items := items + {id};
          calls := calls + multiset{Join(id), Start(id)};
        case Ready(id) =>
          if id in items { calls := calls + multiset{Put(id)}; }
        case Returned(id) =>
          if id in items { calls := calls + multiset{Reset(id)}; }
        case Exited(id) =>
          Replace(id);
      }
    }

    /** An item has exited: off the books, and make up for it. */
    method Replace(id: Id)
      modifies `items, `calls
      ensures items == old(items) - {id}
      ensures calls == old(calls) + Asking(Most(|items|, size) - |items|)
    {
      items := items - {id};
      PrimeBacklog();
    }

    method HandleDrainingEvent(x: PoolInput)
      requires (pc.DrainSpawner? || pc.DrainItems?) && (x.Ready? || x.Returned? || x.Exited?)
      modifies `items, `calls
      ensures View() == React(size, old(View()), x).(pc := pc)
      ensures calls == old(calls) + ArmCalls(size, old(View()), x)
    {
      match x {
        case Ready(id) =>
          if id in items { calls := calls + multiset{Kill(id)}; }
        case Returned(id) =>
          if id in items { calls := calls + multiset{Kill(id)}; }
        case Exited(id) =>
          items := items - {id};
      }
    }

    method RunRunning(script: seq<PoolInput>) returns (n: nat)
      requires pc.Running? && Follow(size, View(), script).Some?
      modifies this
      ensures n <= |script| && Ahead(size, View(), calls, script[n..]) == old(Ahead(size, View(), calls, script))
      ensures pc.DrainSpawnerTop? || (pc.Running? && n == |script|)
    {
      hide Follow, AllCalls, Kills, ArmCalls;
      n := 0;
      while n < |script| && pc.Running?
        invariant n <= |script| && (pc.Running? || pc.DrainSpawnerTop?)
        invariant Ahead(size, View(), calls, script[n..]) == old(Ahead(size, View(), calls, script))
        invariant Follow(size, Settle(View()), script[n..]).Some?
      {
        AheadReact(size, View(), calls, script[n..]);
        ghost var q, c := React(size, View(), script[n]), calls + ArmCalls(size, View(), script[n]);
        ServeOne(script[n]);
        n := n + 1;
        assert script[n - 1..][1..] == script[n..];
        if pc.Running? { AheadSettle(size, q, c, script[n..]); }
      }
    }

    /** Until the spawner has closed its channel. */
    method RunDrainSpawner(script: seq<PoolInput>) returns (n: nat)
      requires pc.DrainSpawnerTop? && Follow(size, Settle(View()), script).Some?
      modifies this
      ensures n <= |script| && Ahead(size, View(), calls, script[n..]) == old(Ahead(size, View(), calls, script))
      ensures pc.DrainItemsTop? || (pc.DrainSpawner? && n == |script|)
    {
      hide Follow, AllCalls, Kills;
      n := 0;
      while true
        invariant n <= |script| && pc.DrainSpawnerTop?
        invariant Ahead(size, View(), calls, script[n..]) == old(Ahead(size, View(), calls, script))
        invariant Follow(size, Settle(View()), script[n..]).Some?
        decreases |script| - n
      {
        AheadTop(size, View(), calls, script[n..]);
        KillItems();
        pc := DrainSpawner;
        if n == |script| {
          return;
        }
        AheadReact(size, View(), calls, script[n..]);
        var x := script[n];
        n := n + 1;
        assert script[n - 1..][1..] == script[n..];
        if x.NextClosed? {
          pc := DrainItemsTop;
          assert calls + multiset{} == calls;
          return;
        } else if x.Next? {
          calls := calls + multiset{Kill(x.id)};
        } else {
          HandleDrainingEvent(x);
        }
        pc := DrainSpawnerTop;
      }
    }

    /** Until nothing is tracked any more. */
    method RunDrainItems(script: seq<PoolInput>) returns (n: nat)
      requires pc.DrainItemsTop? && Follow(size, Settle(View()), script).Some?
      modifies this
      ensures n <= |script| && Ahead(size, View(), calls, script[n..]) == old(Ahead(size, View(), calls, script))
      ensures (pc.Done? && items == {}) || (pc.DrainItems? && n == |script|)
    {
      hide Follow, AllCalls, Kills;
      n := 0;
      while true
        invariant n <= |script| && pc.DrainItemsTop?
        invariant Ahead(size, View(), calls, script[n..]) == old(Ahead(size, View(), calls, script))
        invariant Follow(size, Settle(View()), script[n..]).Some?
        decreases |script| - n
      {
        AheadTop(size, View(), calls, script[n..]);
        if items == {} {
          pc := Done;
          return;
        }
        KillItems();
        pc := DrainItems;
        if n == |script| {
          return;
        }
        AheadReact(size, View(), calls, script[n..]);
        HandleDrainingEvent(script[n]);
        pc := DrainItemsTop;
        n := n + 1;
        assert script[n - 1..][1..] == script[n..];
      }
    }

    /** The three loops in order are the message-by-message machine: same state, same calls. A pool that is
        done tracks nothing. */
    method Run(script: seq<PoolInput>)
      requires pc.Running? && Follow(size, View(), script).Some?
      modifies this
      ensures Some(View()) == old(Follow(size, View(), script))
      ensures calls == old(calls + AllCalls(size, View(), script))
      ensures pc.Done? ==> items == {}
    {
      hide Kills, ArmCalls, React, OnTop, TopCalls, Possible;
      ghost var goal := Ahead(size, View(), calls, script);
      NoTopCalls(View());
      assert calls + multiset{} == calls;
      var n := RunRunning(script);
      if pc.DrainSpawnerTop? {
        AheadFollows(size, View(), calls, script[n..], goal);
        var m := RunDrainSpawner(script[n..]);
        assert script[n..][m..] == script[n + m..];
        n := n + m;
        if pc.DrainItemsTop? {
          AheadFollows(size, View(), calls, script[n..], goal);
          m := RunDrainItems(script[n..]);
          assert script[n..][m..] == script[n + m..];
          n := n + m;
        }
      }
      AheadEnds(size, View(), calls, script[n..]);
    }
  }

  /** Following never loses its way. */
  lemma AheadFollows(size: nat, p: PoolState, calls: multiset<Call>, rest: seq<PoolInput>, goal: (Option<PoolState>, multiset<Call>))
    requires Ahead(size, p, calls, rest) == goal && goal.0.Some?
    ensures Follow(size, Settle(p), rest).Some?
  {
  }

  lemma AheadEnds(size: nat, p: PoolState, calls: multiset<Call>, rest: seq<PoolInput>)
    requires Ahead(size, p, calls, rest).0.Some?
    requires (Receiving(p) && rest == []) || p.pc.Done?
    ensures Ahead(size, p, calls, rest) == (Some(p), calls)
  {
    assert rest == [];
    assert calls + multiset{} + multiset{} == calls;
  }

  lemma KillsOne(ids: set<Id>, id: Id)
    requires id in ids
    ensures Kills(ids) == Kills(ids - {id}) + multiset{Kill(id)}
  {
    var all, rest := set k | k in ids :: Kill(k), set k | k in ids - {id} :: Kill(k);
    assert all == rest + {Kill(id)};
  }
}
