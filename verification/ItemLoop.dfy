// The item's goroutine: wait to be joined, serve until the container exits, then see the children home.
module ItemLoop {
  import opened Types
  import opened Items
  import opened Containers

  /** What an item tells the pool. */
  datatype PoolMessage = ReadyMessage | ExitMessage

  /** The inputs include what the goroutines around the item do in between; each must be possible in its turn. */
  class PItem {
    const cfg: Config
    const container: PContainer
    var pc: ItemPc
    var starts: nat
    var resets: nat
    var kills: nat
    var children: Children
    var joinClosed: bool
    var exitedClosed: bool
    var told: seq<PoolMessage>   // everything the pool has received from this item

    ghost predicate Valid()
      reads this, container
    {
      container.Valid()
    }

    ghost function View(): ItemState
      reads this, container
    {
      ItemState(pc, starts, resets, kills, children, container.View(), joinClosed, exitedClosed)
    }

    constructor (cfg: Config)
      ensures Valid() && View() == NewItem() && this.cfg == cfg && fresh(container) && told == []
    {
      this.cfg := cfg;
      container := new PContainer();
      pc, starts, resets, kills := WaitJoin, 0, 0, 0;
      children := Children(0, 0, 0, 0, 0, 0, 0, 0);
      joinClosed, exitedClosed, told := false, false, [];
    }

    /** `go i.sendEvent(e)`, and its end, by delivery or because the item has exited. */
    method SenderDone(e: ItemEvent)
      requires Valid() && Senders(View(), e) > 0
      modifies `starts, `resets, `kills
      ensures Valid() && View() == DropSender(old(View()), e)
    {
      match e {
        case EvStart => starts := starts - 1;
        case EvReset => resets := resets - 1;
        case EvKill => kills := kills - 1;
      }
    }

    /** A child's action is over (or was never configured). */
    method RunChild(c: Child, ok: bool)
      requires Valid() && children.At(c) > 0 && !c.Reporting?
      modifies this, container
      ensures Valid() && View() == ChildResult(cfg, old(View()), c, ok) && told == old(told)
    {
      children := children.Leave(c);
      match c {
        case OnStarted =>
          if ok { children := children.(live := children.live + 1); }
          else { children := children.(liveError := children.liveError + 1); }
        case OnLive =>
          if ok { children := children.(ready := children.ready + 1); }
          else { children := children.(readyError := children.readyError + 1); }
        case OnReset =>
          if !cfg.hasReset { container.Stop(); }
          else if ok { children := children.(ready := children.ready + 1); }
          else { children := children.(resetError := children.resetError + 1); }
      }
    }

    predicate Around(x: ItemInput) {
      x.AskReset? || x.AskKill? || x.Release? || x.DoStart? || x.ChildRuns?
    }

    /** Something one of the goroutines around the item does. */
    method Elsewhere(x: ItemInput)
      requires Valid() && Around(x) && ItemEnabled(cfg, View(), x)
      modifies this, container
      ensures Valid() && View() == ItemStep(cfg, old(View()), x)
      ensures pc == old(pc) && told == old(told)
    {
      match x {
        case AskReset => resets := resets + 1;
        case AskKill => kills := kills + 1;
        case Release(e) => SenderDone(e);
        case DoStart(ok) => container.DoStart(ok);
        case ChildRuns(c, ok) => RunChild(c, ok);
      }
    }

    /** The main loop's switch on an item event. */
    method OnMainLoopEvent(e: ItemEvent)
      requires Valid() && pc.MainLoop?
      modifies this, container
      ensures Valid() && View() == MainLoopEvent(old(View()), e) && told == old(told)
    {
      match e {
        case EvKill => container.Stop();
        case EvStart => container.Start();
        case EvLive => children := children.(onLive := children.onLive + 1);
        case EvLiveError => container.Stop();
        case EvReady => pc := SendingReady;
        case EvReadyError => container.Stop();
        case EvReset => children := children.(onReset := children.onReset + 1);
        case EvResetError =>
      }
    }

    /** One input of the wait-join select: the join itself, or an event, of which only a kill has an effect. */
    method WaitOne(x: ItemInput)
      requires Valid() && pc.WaitJoin? && !Around(x) && ItemEnabled(cfg, View(), x)
      modifies this, container
      ensures Valid() && View() == ItemStep(cfg, old(View()), x) && told == old(told)
      ensures pc.WaitJoin? || pc.MainLoop?
    {
      match x {
        case Joined =>
          pc, joinClosed, starts := MainLoop, true, starts + 1;
        case Deliver(e) =>
          SenderDone(e);
          if e.EvKill? { container.Stop(); }
        case ChildReports(e) =>
          children := children.Leave(Reporting(e));
      }
    }

    method RunWaitJoin(script: seq<ItemInput>) returns (n: nat)
      requires Valid() && pc.WaitJoin? && Walk(cfg, View(), script).Some?
      modifies this, container
      ensures Valid() && n <= |script| && Walk(cfg, View(), script[n..]) == old(Walk(cfg, View(), script))
      ensures pc.WaitJoin? ==> n == |script|
      ensures !pc.WaitJoin? ==> pc.MainLoop?
      ensures told == old(told)
    {
      n := 0;
      while n < |script| && pc.WaitJoin?
        invariant Valid() && n <= |script| && Walk(cfg, View(), script[n..]) == old(Walk(cfg, View(), script))
        invariant (pc.WaitJoin? || pc.MainLoop?) && told == old(told)
      {
        var x := script[n];
        if Around(x) {
          Elsewhere(x);
        } else {
          WaitOne(x);
        }
        n := n + 1;
        assert script[n - 1..][1..] == script[n..];
      }
    }

    predicate Serving()
      reads this
    {
      pc.MainLoop? || pc.SendingReady? || pc.SendingExit?
    }

    /** One input of the main loop's select, or the pool's receive the loop is blocked on. */
    method ServeOne(x: ItemInput)
      requires Valid() && Serving() && !Around(x) && ItemEnabled(cfg, View(), x)
      modifies this, container
      ensures Valid() && View() == ItemStep(cfg, old(View()), x)
      ensures Serving() || pc.Draining?
      ensures told == old(told) + (if x.TakeReady? then [ReadyMessage] else if x.TakeExit? then [ExitMessage] else [])
      ensures x.TakeExit? <==> pc.Draining?
    {
      match x {
        case TakeReady =>
          pc, told := MainLoop, told + [ReadyMessage];
        case TakeExit =>
          pc, exitedClosed, told := Draining, true, told + [ExitMessage];
        case ContainerStarted =>
          container.Delivered();
          children := children.(onStarted := children.onStarted + 1);
        case ContainerStartFailed =>
          container.Delivered();
          pc := SendingExit;
        case ContainerExited =>
          pc := SendingExit;
        case Deliver(e) =>
          SenderDone(e);
          OnMainLoopEvent(e);
        case ChildReports(e) =>
          children := children.Leave(Reporting(e));
          OnMainLoopEvent(e);
      }
    }

    /** Serves until the pool has received the exit: any number of Ready messages, then one Exit. */
    method RunMainLoop(script: seq<ItemInput>) returns (n: nat)
      requires Valid() && Serving() && Walk(cfg, View(), script).Some?
      modifies this, container
      ensures Valid() && n <= |script| && Walk(cfg, View(), script[n..]) == old(Walk(cfg, View(), script))
      ensures pc.Draining? || (Serving() && n == |script|)
      ensures |told| >= |old(told)| && told[..|old(told)|] == old(told)
      ensures forall k :: |old(told)| <= k < |told| ==> (told[k].ExitMessage? <==> pc.Draining? && k == |told| - 1)
      ensures pc.Draining? ==> |told| > |old(told)|
    {
      n := 0;
      while n < |script| && !pc.Draining?
        invariant Valid() && n <= |script| && Walk(cfg, View(), script[n..]) == old(Walk(cfg, View(), script))
        invariant pc.Draining? || Serving()
        invariant |told| >= |old(told)| && told[..|old(told)|] == old(told)
        invariant forall k :: |old(told)| <= k < |told| ==> (told[k].ExitMessage? <==> pc.Draining? && k == |told| - 1)
        invariant pc.Draining? ==> |told| > |old(told)|
      {
        if Around(script[n]) {
          Elsewhere(script[n]);
        } else {
          ServeOne(script[n]);
        }
        n := n + 1;
        assert script[n - 1..][1..] == script[n..];
      }
    }

    /** Takes and discards whatever is still sent, until the wait group is at zero. */
    method DrainEvents(script: seq<ItemInput>) returns (n: nat)
      requires Valid() && pc.Draining? && Walk(cfg, View(), script).Some?
      modifies this, container
      ensures Valid() && n <= |script| && Walk(cfg, View(), script[n..]) == old(Walk(cfg, View(), script))
      ensures pc.Finished? || (pc.Draining? && n == |script|)
      ensures pc.Finished? ==> children.Total() == 0
      ensures told == old(told)
    {
      n := 0;
      while n < |script| && pc.Draining?
        invariant Valid() && n <= |script| && Walk(cfg, View(), script[n..]) == old(Walk(cfg, View(), script))
        invariant pc.Draining? || (pc.Finished? && children.Total() == 0)
        invariant told == old(told)
      {
        var x := script[n];
        if Around(x) {
          Elsewhere(x);
        } else {
          match x {
            case Finish => pc := Finished;
            case Deliver(e) => SenderDone(e);
            case ChildReports(e) => children := children.Leave(Reporting(e));
          }
        }
        n := n + 1;
        assert script[n - 1..][1..] == script[n..];
      }
    }

    /** The whole life of the goroutine is the item machine, and what it tells the pool is Ready, any number
        of times, then at most one Exit. */
    method Run(script: seq<ItemInput>) returns (n: nat)
      requires Valid() && pc.WaitJoin? && told == [] && Walk(cfg, View(), script).Some?
      modifies this, container
      ensures Valid() && n <= |script| && Walk(cfg, View(), script[n..]) == old(Walk(cfg, View(), script))
      ensures n == |script| ==> Some(View()) == old(Walk(cfg, View(), script))
      ensures n == |script| || pc.Finished?
      ensures forall k :: 0 <= k < |told| ==>
        (told[k].ExitMessage? <==> (pc.Draining? || pc.Finished?) && k == |told| - 1)
    {
      n := RunWaitJoin(script);
      if !pc.WaitJoin? {
        var m := RunMainLoop(script[n..]);
        assert script[n..][m..] == script[n + m..];
        n := n + m;
        if pc.Draining? {
          m := DrainEvents(script[n..]);
          assert script[n..][m..] == script[n + m..];
          n := n + m;
        }
      }
    }
  }
}
