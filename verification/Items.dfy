// The item actor: one goroutine per container, with the goroutines that only talk to it.
module Items {
  import opened Types
  import opened Containers
  import opened Logs

  /** Messages on the item's own `events` channel. */
  datatype ItemEvent = EvStart | EvReset | EvKill | EvLiveError | EvLive | EvResetError | EvReady | EvReadyError

  /** Where the item's goroutine is. In SendingReady and SendingExit it is blocked on the pool's channel. */
  datatype ItemPc = WaitJoin | MainLoop | SendingReady | SendingExit | Draining | Finished

  /** A goroutine counted by the item's wait group: running its action, or blocked sending its one report. */
  datatype Child = OnStarted | OnLive | OnReset | Reporting(e: ItemEvent)

  /** How many children are in each place. */
  datatype Children = Children(
    onStarted: nat, onLive: nat, onReset: nat,
    live: nat, liveError: nat, ready: nat, readyError: nat, resetError: nat)
  {
    /** The wait group's counter. */
    function Total(): nat {
      onStarted + onLive + onReset + live + liveError + ready + readyError + resetError
    }

    function At(c: Child): nat {
      match c
      case OnStarted => onStarted
      case OnLive => onLive
      case OnReset => onReset
      case Reporting(EvLive) => live
      case Reporting(EvLiveError) => liveError
      case Reporting(EvReady) => ready
      case Reporting(EvReadyError) => readyError
      case Reporting(EvResetError) => resetError
      case Reporting(_) => 0
    }

    function Leave(c: Child): (rest: Children)
      requires At(c) > 0
      ensures rest.Total() == Total() - 1
    {
      match c
      case OnStarted => this.(onStarted := onStarted - 1)
      case OnLive => this.(onLive := onLive - 1)
      case OnReset => this.(onReset := onReset - 1)
      case Reporting(EvLive) => this.(live := live - 1)
      case Reporting(EvLiveError) => this.(liveError := liveError - 1)
      case Reporting(EvReady) => this.(ready := ready - 1)
      case Reporting(EvReadyError) => this.(readyError := readyError - 1)
      case Reporting(EvResetError) => this.(resetError := resetError - 1)
    }
  }

  /** The item and the goroutines around it. `starts`, `resets` and `kills` count the
      sendEvent goroutines that are blocked with that event in hand. */
  datatype ItemState = ItemState(
    pc: ItemPc,
    starts: nat,
    resets: nat,
    kills: nat,
    children: Children,
    container: ContainerState,
    joinClosed: bool,
    exitedClosed: bool)

  /** A container just created, whose goroutine waits to be joined. */
  function NewItem(): ItemState {
    ItemState(WaitJoin, 0, 0, 0, Children(0, 0, 0, 0, 0, 0, 0, 0), ContainerState(NotStarted, false), false, false)
  }

  /** Everything that can happen to an item. The first five are its side of a meeting with the pool. */
  datatype ItemInput =
    | Joined
    | AskReset
    | AskKill
    | TakeReady
    | TakeExit
    | Deliver(e: ItemEvent)
    | Release(e: ItemEvent)
    | DoStart(ok: bool)
    | ContainerStarted
    | ContainerStartFailed
    | ContainerExited
    | ChildRuns(c: Child, ok: bool)
    | ChildReports(e: ItemEvent)
    | Finish

  /** Inputs in which the pool takes no part. */
  predicate Local(x: ItemInput) {
    !x.Joined? && !x.AskReset? && !x.AskKill? && !x.TakeReady? && !x.TakeExit?
  }

  /** The item is at a select that reads its `events` channel. */
  predicate Listening(i: ItemState) {
    i.pc.WaitJoin? || i.pc.MainLoop? || i.pc.Draining?
  }

  function Senders(i: ItemState, e: ItemEvent): nat {
    match e
    case EvStart => i.starts
    case EvReset => i.resets
    case EvKill => i.kills
    case _ => 0
  }

  function DropSender(i: ItemState, e: ItemEvent): ItemState
    requires Senders(i, e) > 0
  {
    match e
    case EvStart => i.(starts := i.starts - 1)
    case EvReset => i.(resets := i.resets - 1)
    case EvKill => i.(kills := i.kills - 1)
  }

  /** The action behind a child is configured. */
  predicate HasAction(cfg: Config, c: Child) {
    match c
    case OnStarted => cfg.hasHealthcheck
    case OnLive => cfg.hasInitialize
    case OnReset => cfg.hasReset
    case Reporting(_) => false
  }

  predicate ItemEnabled(cfg: Config, i: ItemState, x: ItemInput) {
    match x
    case Joined => i.pc.WaitJoin?
    case AskReset => true
    case AskKill => true
    case TakeReady => i.pc.SendingReady?
    case TakeExit => i.pc.SendingExit?
    case Deliver(e) => Senders(i, e) > 0 && Listening(i)
    case Release(e) => Senders(i, e) > 0 && i.exitedClosed
    case DoStart(_) => i.container.start.Starting?
    case ContainerStarted => i.container.start.UpPending? && i.pc.MainLoop?
    case ContainerStartFailed => i.container.start.FailPending? && i.pc.MainLoop?
    case ContainerExited => i.pc.MainLoop?
    case ChildRuns(c, ok) => i.children.At(c) > 0 && !c.Reporting? && (ok || HasAction(cfg, c))
    case ChildReports(e) => i.children.At(Reporting(e)) > 0 && Listening(i)
    case Finish => i.pc.Draining? && i.children.Total() == 0
  }

  /** The switch of the main loop. */
  function MainLoopEvent(i: ItemState, e: ItemEvent): ItemState {
    match e
    case EvKill => i.(container := StopOnce(i.container))
    case EvStart => i.(container := StartOnce(i.container))
    case EvLive => i.(children := i.children.(onLive := i.children.onLive + 1))
    case EvLiveError => i.(container := StopOnce(i.container))
    case EvReady => i.(pc := SendingReady)
    case EvReadyError => i.(container := StopOnce(i.container))
    case EvReset => i.(children := i.children.(onReset := i.children.onReset + 1))
    case EvResetError => i
  }

  /** What the goroutine does with a received event: while waiting to be joined only a kill has
      an effect, and while draining nothing has. */
  function OnEvent(i: ItemState, e: ItemEvent): ItemState {
    match i.pc
    case WaitJoin => if e.EvKill? then i.(container := StopOnce(i.container)) else i
    case MainLoop => MainLoopEvent(i, e)
    case _ => i
  }

  /** What a child does when its action is over (or not configured). */
  function ChildResult(cfg: Config, i: ItemState, c: Child, ok: bool): ItemState
    requires i.children.At(c) > 0 && !c.Reporting?
  {
    var rest := i.children.Leave(c);
    match c
    case OnStarted =>
      i.(children := if ok then rest.(live := rest.live + 1) else rest.(liveError := rest.liveError + 1))
    case OnLive =>
      i.(children := if ok then rest.(ready := rest.ready + 1) else rest.(readyError := rest.readyError + 1))
    case OnReset =>
      if !cfg.hasReset then i.(children := rest, container := StopOnce(i.container))
      else i.(children := if ok then rest.(ready := rest.ready + 1) else rest.(resetError := rest.resetError + 1))
  }

  function ItemStep(cfg: Config, i: ItemState, x: ItemInput): ItemState
    requires ItemEnabled(cfg, i, x)
  {
    match x
    case Joined => i.(pc := MainLoop, joinClosed := true, starts := i.starts + 1)
    case AskReset => i.(resets := i.resets + 1)
    case AskKill => i.(kills := i.kills + 1)
    case TakeReady => i.(pc := MainLoop)
    case TakeExit => i.(pc := Draining, exitedClosed := true)
    case Deliver(e) => OnEvent(DropSender(i, e), e)
    case Release(e) => DropSender(i, e)
    case DoStart(ok) => i.(container := i.container.(start := if ok then UpPending else FailPending))
    case ContainerStarted =>
      i.(container := i.container.(start := Delivered), children := i.children.(onStarted := i.children.onStarted + 1))
    case ContainerStartFailed => i.(container := i.container.(start := Delivered), pc := SendingExit)
    case ContainerExited => i.(pc := SendingExit)
    case ChildRuns(c, ok) => ChildResult(cfg, i, c, ok)
    case ChildReports(e) => OnEvent(i.(children := i.children.Leave(Reporting(e))), e)
    case Finish => i.(pc := Finished)
  }

  /** What a completed local step of an item adds to the history. */
  function ItemNote(cfg: Config, x: ItemInput): Option<Kind> {
    if x.DoStart? && x.ok then Some(StartOk)
    else if x.ChildRuns? && x.ok && HasAction(cfg, x.c) then
      match x.c
      case OnStarted => Some(Healthy)
      case OnLive => Some(Initialized)
      case OnReset => Some(ResetOk)
    else None
  }

  /** Where a list of inputs takes an item, if each is possible in turn. */
  function Walk(cfg: Config, i: ItemState, xs: seq<ItemInput>): Option<ItemState>
    decreases |xs|
  {
    if xs == [] then Some(i)
    else if ItemEnabled(cfg, i, xs[0]) then Walk(cfg, ItemStep(cfg, i, xs[0]), xs[1..])
    else None
  }

  // ---------------------------------------------------------------- what every step keeps

  /** The start of a container is in one place: waiting for the join, in flight, or performed. */
  function StartPlaces(i: ItemState): nat {
    Bit(i.pc.WaitJoin?) + i.starts + Bit(!i.container.start.NotStarted?)
  }

  predicate Shape(i: ItemState) {
    && (i.pc.WaitJoin? ==> i.resets == 0 && i.children.Total() == 0)
    && (i.joinClosed <==> !i.pc.WaitJoin?)
    && (i.exitedClosed <==> i.pc.Draining? || i.pc.Finished?)
    && (i.pc.Finished? ==> i.children.Total() == 0)
    && StartPlaces(i) <= 1
    && (!i.exitedClosed ==> StartPlaces(i) == 1)
  }

  lemma StepKeepsShape(cfg: Config, i: ItemState, x: ItemInput)
    requires Shape(i) && ItemEnabled(cfg, i, x)
    requires x.AskReset? ==> !i.pc.WaitJoin?
    ensures Shape(ItemStep(cfg, i, x))
  {
    match x
    case Deliver(e) =>
      match e { case EvStart => case _ => }
    case ChildReports(e) =>
      match e { case EvStart => case _ => }
    case _ =>
  }

  /** The container has been told to stop, or is about to be, or has already gone. */
  predicate KillSent(i: ItemState) {
    i.kills > 0 || i.container.stopped || i.exitedClosed
  }

  /** What the rest of the system can see of a step the item makes by itself: nothing new. */
  predicate Unnoticed(i: ItemState, j: ItemState) {
    && Shape(j)
    && (j.pc.WaitJoin? <==> i.pc.WaitJoin?)
    && j.exitedClosed == i.exitedClosed
    && (KillSent(i) ==> KillSent(j))
  }

  lemma LocalStep(cfg: Config, i: ItemState, x: ItemInput)
    requires Shape(i) && ItemEnabled(cfg, i, x) && Local(x)
    ensures Unnoticed(i, ItemStep(cfg, i, x))
  {
    hide Shape;
    StepKeepsShape(cfg, i, x);
    match x
    case Deliver(e) =>
    case ChildReports(e) =>
    case _ =>
  }

  /** How many senders of an event a step starts. */
  function Asked(x: ItemInput, e: ItemEvent): nat {
    Bit((x.Joined? && e.EvStart?) || (x.AskReset? && e.EvReset?) || (x.AskKill? && e.EvKill?))
  }

  /** Each `go sendEvent` ends once: when its event is delivered, or when it leaves because the item has exited. */
  lemma SenderEndsOnce(cfg: Config, i: ItemState, x: ItemInput, e: ItemEvent)
    requires ItemEnabled(cfg, i, x)
    ensures Senders(ItemStep(cfg, i, x), e) == Senders(i, e) + Asked(x, e) - Bit(x == Deliver(e) || x == Release(e))
  {
  }

  /** Before the join a kill stops the container and no other event has an effect; once the exit has been told,
      none has. */
  lemma EarlyAndStaleEvents(cfg: Config, i: ItemState, e: ItemEvent)
    requires ItemEnabled(cfg, i, Deliver(e)) && !i.pc.MainLoop?
    ensures var j := ItemStep(cfg, i, Deliver(e));
      && j.pc == i.pc && j.children == i.children && j.container.start == i.container.start
      && (j.container.stopped <==> i.container.stopped || (i.pc.WaitJoin? && e.EvKill?))
  {
  }

  lemma StaleReports(cfg: Config, i: ItemState, e: ItemEvent)
    requires ItemEnabled(cfg, i, ChildReports(e)) && !i.pc.MainLoop? && (i.pc.WaitJoin? ==> !e.EvKill?)
    ensures var j := ItemStep(cfg, i, ChildReports(e));
      && j.pc == i.pc && j.container == i.container && j.children.Total() == i.children.Total() - 1
      && forall d :: j.children.At(d) == i.children.At(d) - Bit(d == Reporting(e))
  {
  }

  /** Tokens of the right to use this container that are inside the item: at most one under
      disciplined clients (module Exclusive). */
  function Tokens(i: ItemState): nat {
    Bit(i.pc.WaitJoin?) + i.starts + Bit(InStart(i)) + i.children.Total() + Bit(i.pc.SendingReady?) + i.resets
  }

  predicate InStart(i: ItemState) {
    i.container.start.Starting? || i.container.start.UpPending? || i.container.start.FailPending?
  }

  /** Only the pool adds a token (a reset) or takes one away (a ready item). */
  function TokenChange(x: ItemInput): int {
    match x
    case AskReset => 1
    case TakeReady => -1
    case _ => 0
  }

  /** Acting on an event restores at most the token its sender carried. */
  lemma EventTokens(i: ItemState, e: ItemEvent)
    requires Listening(i)
    ensures Tokens(OnEvent(i, e)) <= Tokens(i) + Bit(e.EvStart? || e.EvReset? || e.EvLive? || e.EvReady?)
  {
  }

  lemma SenderTokens(i: ItemState, e: ItemEvent)
    requires Senders(i, e) > 0
    ensures Tokens(DropSender(i, e)) == Tokens(i) - Bit(e.EvStart? || e.EvReset?)
  {
  }

  lemma ReportTokens(i: ItemState, e: ItemEvent)
    requires Listening(i) && i.children.At(Reporting(e)) > 0
    ensures Tokens(OnEvent(i.(children := i.children.Leave(Reporting(e))), e)) <= Tokens(i)
  {
    EventTokens(i.(children := i.children.Leave(Reporting(e))), e);
  }

  lemma DeliverTokens(i: ItemState, e: ItemEvent)
    requires Listening(i) && Senders(i, e) > 0
    ensures Tokens(OnEvent(DropSender(i, e), e)) <= Tokens(i)
  {
    SenderTokens(i, e);
    EventTokens(DropSender(i, e), e);
  }

  lemma ChildTokens(cfg: Config, i: ItemState, c: Child, ok: bool)
    requires i.children.At(c) > 0 && !c.Reporting?
    ensures Tokens(ChildResult(cfg, i, c, ok)) <= Tokens(i)
  {
  }

  lemma StepTokens(cfg: Config, i: ItemState, x: ItemInput)
    requires ItemEnabled(cfg, i, x)
    ensures Tokens(ItemStep(cfg, i, x)) <= Tokens(i) + TokenChange(x)
  {
    match x
    case Deliver(e) => DeliverTokens(i, e);
    case Release(e) => SenderTokens(i, e);
    case ChildRuns(c, ok) => ChildTokens(cfg, i, c, ok);
    case ChildReports(e) => ReportTokens(i, e);
    case _ =>
  }
}
