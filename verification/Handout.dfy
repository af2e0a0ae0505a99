// Clean handout: with disciplined clients no checkout receives a container that has not been checked
// and initialized, and none receives one that has not been reset since the last checkout.
module Handout {
  import opened Types
  import opened Logs
  import opened Items
  import opened System
  import opened Structure
  import opened Footprint
  import opened Exclusive
  import Buffer

  // ---------------------------------------------------------------- what the history says of one container

  datatype View = View(started: bool, healthy: bool, initialized: bool, handouts: nat, resets: nat)

  function ViewOf(log: Log, id: Id): View {
    View(Event(StartOk, id) in log, Event(Healthy, id) in log, Event(Initialized, id) in log, Count(log, HandedOut, id), Count(log, ResetOk, id))
  }

  function Bump(v: View, kind: Kind): View {
    match kind
    case StartOk => v.(started := true)
    case Healthy => v.(healthy := true)
    case Initialized => v.(initialized := true)
    case HandedOut => v.(handouts := v.handouts + 1)
    case ResetOk => v.(resets := v.resets + 1)
    case _ => v
  }

  function BumpIf(v: View, note: Option<Kind>): View {
    match note
    case None => v
    case Some(kind) => Bump(v, kind)
  }

  lemma ViewAppend(log: Log, kind: Kind, id: Id, k: Id)
    ensures ViewOf(log + [Event(kind, id)], k) == if k == id then Bump(ViewOf(log, k), kind) else ViewOf(log, k)
  {
  }

  /** Never handed out. */
  predicate Fresh(v: View) {
    v.handouts == 0 && v.resets == 0
  }

  predicate Checked(cfg: Config, v: View) {
    v.started && (cfg.hasHealthcheck ==> v.healthy)
  }

  predicate Prepared(cfg: Config, v: View) {
    Checked(cfg, v) && (cfg.hasInitialize ==> v.initialized)
  }

  /** Fit to be handed out: reset as often as it was handed out. */
  predicate Available(cfg: Config, v: View) {
    Prepared(cfg, v) && v.handouts == v.resets
  }

  /** Handed out and not reset since. */
  predicate Spent(cfg: Config, v: View) {
    Prepared(cfg, v) && v.handouts == v.resets + 1
  }

  // ---------------------------------------------------------------- where the token is says what has happened

  /** Tokens inside the item before Docker started it, before its healthcheck succeeded, before its initialize
      action did, ready for a client, and used by one. */
  function Down(i: ItemState): nat {
    Bit(i.pc.WaitJoin?) + i.starts + Bit(i.container.start.Starting? || i.container.start.FailPending?)
  }

  function Unchecked(i: ItemState): nat {
    Bit(i.container.start.UpPending?) + i.children.onStarted + i.children.liveError
  }

  function Unprepared(i: ItemState): nat {
    i.children.live + i.children.onLive + i.children.readyError
  }

  function Fit(i: ItemState): nat {
    i.children.ready + Bit(i.pc.SendingReady?)
  }

  function Used(i: ItemState): nat {
    i.resets + i.children.onReset + i.children.resetError
  }

  predicate ItemStage(cfg: Config, i: ItemState, v: View) {
    && (Down(i) > 0 ==> Fresh(v))
    && (Unchecked(i) > 0 ==> Fresh(v) && v.started)
    && (Unprepared(i) > 0 ==> Fresh(v) && Checked(cfg, v))
    && (Fit(i) > 0 ==> Available(cfg, v))
    && (Used(i) > 0 ==> Spent(cfg, v))
  }

  predicate Stage(s: State, id: Id) {
    var v := ViewOf(s.hist.log, id);
    && (id !in s.items ==> Fresh(v))
    && (id in s.items ==> ItemStage(s.cfg, s.items[id], v))
    && (PuttingNow(s, id) || Queued(s.buffer.queue, id) > 0 ==> Available(s.cfg, v))
    && (|HoldersOf(s, id)| > 0 || s.returning[id] > 0 ==> Spent(s.cfg, v))
  }

  lemma StageDeliver(cfg: Config, i: ItemState, e: ItemEvent, v: View)
    requires Listening(i) && Senders(i, e) > 0 && Tokens(i) <= 1 && ItemStage(cfg, i, v)
    ensures ItemStage(cfg, OnEvent(DropSender(i, e), e), v)
  {
  }

  lemma StageReport(cfg: Config, i: ItemState, e: ItemEvent, v: View)
    requires Listening(i) && i.children.At(Reporting(e)) > 0 && Tokens(i) <= 1 && ItemStage(cfg, i, v)
    ensures ItemStage(cfg, OnEvent(i.(children := i.children.Leave(Reporting(e))), e), v)
  {
  }

  lemma StageChild(cfg: Config, i: ItemState, c: Child, ok: bool, v: View)
    requires ItemEnabled(cfg, i, ChildRuns(c, ok)) && Tokens(i) <= 1 && ItemStage(cfg, i, v)
    ensures ItemStage(cfg, ChildResult(cfg, i, c, ok), BumpIf(v, ItemNote(cfg, ChildRuns(c, ok))))
  {
  }

  lemma StageRelease(cfg: Config, i: ItemState, e: ItemEvent, v: View)
    requires Senders(i, e) > 0 && ItemStage(cfg, i, v)
    ensures ItemStage(cfg, DropSender(i, e), v)
  {
  }

  lemma StageStep(cfg: Config, i: ItemState, x: ItemInput, v: View)
    requires ItemEnabled(cfg, i, x) && ItemStage(cfg, i, v)
    requires Local(x) ==> Tokens(i) <= 1
    requires x.AskReset? ==> Spent(cfg, v)
    ensures ItemStage(cfg, ItemStep(cfg, i, x), BumpIf(v, ItemNote(cfg, x)))
  {
    hide OnEvent, ChildResult, DropSender, Tokens;
    match x
    case Deliver(e) => StageDeliver(cfg, i, e, v);
    case ChildReports(e) => StageReport(cfg, i, e, v);
    case ChildRuns(c, ok) => StageChild(cfg, i, c, ok, v);
    case Release(e) => StageRelease(cfg, i, e, v);
    case _ =>
  }

  // ---------------------------------------------------------------- every step keeps it

  /** An action succeeds only for the holder of the token. */
  lemma NoteHasToken(cfg: Config, i: ItemState, x: ItemInput)
    requires ItemEnabled(cfg, i, x) && ItemNote(cfg, x).Some?
    ensures Tokens(i) > 0
  {
  }

  /** A container whose one token is in its item is nowhere else. */
  lemma TokensAreElsewhere(s: State, k: Id)
    requires TokensOf(s, k) <= 1
    ensures k in s.items ==> Tokens(s.items[k]) <= 1
    ensures k in s.items && Tokens(s.items[k]) > 0 ==>
      !PuttingNow(s, k) && Queued(s.buffer.queue, k) == 0 && |HoldersOf(s, k)| == 0 && s.returning[k] == 0
  {
    hide Tokens;
  }

  lemma StageItem(s: State, id: Id, x: ItemInput, k: Id)
    requires Enabled(s, ItemAct(id, x)) && Stage(s, k) && TokensOf(s, k) <= 1
    ensures Stage(DoItemAct(s, id, x), k)
  {
    hide DoItemAct, ItemStep, ItemEnabled, ItemStage, Tokens, TokensOf, ViewOf, ItemNote;
    hide Available, Spent, Fresh, Bump, Holders, Queued;
    ItemEffects(s, id, x);
    TokensAreElsewhere(s, k);
    if k == id { StageStep(s.cfg, s.items[id], x, ViewOf(s.hist.log, id)); }
    if ItemNote(s.cfg, x).Some? {
      ViewAppend(s.hist.log, ItemNote(s.cfg, x).value, id, k);
      NoteHasToken(s.cfg, s.items[id], x);
    }
  }

  lemma StageNudged(cfg: Config, i: ItemState, j: ItemState, v: View)
    requires ItemStage(cfg, i, v) && Nudged(cfg, i, j)
    ensures ItemStage(cfg, j, v)
  {
  }

  lemma StagePlain(s: State, a: Action, t: State, k: Id)
    requires PlainAct(a) && PlainEffect(s, a, t, k) && t.cfg == s.cfg && Stage(s, k)
    ensures Stage(t, k)
  {
    hide ItemStage, Nudged, ViewOf, Available, Spent, Fresh;
    if k in s.items { StageNudged(s.cfg, s.items[k], t.items[k], ViewOf(s.hist.log, k)); }
    if a.GetExit? { ViewAppend(s.hist.log, ExitSeen, a.id, k); }
  }

  lemma StageReady(s: State, id: Id, k: Id)
    requires Enabled(s, GetReady(id)) && Stage(s, k)
    ensures Stage(DoGetReady(s, id), k)
  {
    hide ItemStep, ItemStage, ViewOf, Available, Spent, Fresh;
    ViewAppend(s.hist.log, ReadySeen, id, k);
    if k == id { StageTaken(s.cfg, s.items[id], ViewOf(s.hist.log, id)); }
  }

  lemma StageTaken(cfg: Config, i: ItemState, v: View)
    requires i.pc.SendingReady? && ItemStage(cfg, i, v)
    ensures Available(cfg, v)
    ensures var j := ItemStep(cfg, i, TakeReady);
      ItemStage(cfg, j, v) && ItemStage(cfg, ItemStep(cfg, j, AskKill), v)
  {
  }

  lemma StageAsked(cfg: Config, i: ItemState, v: View)
    requires ItemStage(cfg, i, v)
    ensures ItemStage(cfg, ItemStep(cfg, i, AskKill), v)
    ensures Spent(cfg, v) ==> ItemStage(cfg, ItemStep(cfg, i, AskReset), v)
  {
  }

  lemma StageReturned(s: State, id: Id, k: Id)
    requires Enabled(s, GetReturned(id)) && Stage(s, k)
    ensures Stage(DoGetReturned(s, id), k)
  {
    hide ItemStep, ItemStage, ViewOf, Available, Spent, Fresh;
    if k in s.items { StageAsked(s.cfg, s.items[k], ViewOf(s.hist.log, k)); }
  }

  lemma StagePut(s: State, k: Id)
    requires Enabled(s, PutReady) && Stage(s, k)
    ensures Stage(DoPutReady(s), k)
  {
    hide ItemStage, ViewOf, Available, Spent, Fresh;
    if !s.buffer.inClosed { ViewAppend(s.hist.log, Put, s.pool.pc.id, k); }
  }

  lemma StageHandOut(s: State, client: Client, k: Id)
    requires Enabled(s, HandOut(client)) && Stage(s, k) && TokensOf(s, k) <= 1
    requires s.buffer.queue != [] ==> s.buffer.queue[0] in s.items
    ensures Stage(DoHandOut(s, client), k)
  {
    hide ViewOf, Buffer.Take;
    if s.buffer.outClosed { return; }
    TakeQueued(s.buffer, k);
    ViewAppend(s.hist.log, HandedOut, s.buffer.queue[0], k);
  }

  lemma StageUnusable(s: State, k: Id)
    requires Enabled(s, HandOutUnusable) && Stage(s, k) && TokensOf(s, k) <= 1
    requires s.buffer.queue != [] ==> s.buffer.queue[0] in s.items
    ensures Stage(DoHandOutUnusable(s), k)
  {
    hide ViewOf, Buffer.Take;
    if s.buffer.outClosed { return; }
    TakeQueued(s.buffer, k);
    ViewAppend(s.hist.log, HandedOut, s.buffer.queue[0], k);
  }

  lemma StageReturn(s: State, client: Client, id: Id, k: Id)
    requires Enabled(s, ClientReturn(client, id)) && Stage(s, k)
    ensures Stage(DoClientReturn(s, client, id), k)
  {
    hide ItemStage, ViewOf, Available, Spent, Fresh;
  }

  lemma StageDrop(s: State, id: Id, k: Id)
    requires Enabled(s, DropReturn(id)) && Stage(s, k)
    ensures Stage(Apply(s, DropReturn(id)), k)
  {
    hide ItemStage, ViewOf, Available, Spent, Fresh;
  }

  lemma StageCreate(s: State, id: Id, k: Id)
    requires Enabled(s, CreateItem(id)) && Stage(s, k)
    ensures Stage(DoCreateItem(s, id), k)
  {
    hide ViewOf;
  }

  lemma StageStepAll(s: State, a: Action, k: Id)
    requires Inv(s) && Enabled(s, a) && !a.StrayReturn? && Stage(s, k) && TokensOf(s, k) <= 1
    requires s.buffer.queue != [] ==> s.buffer.queue[0] in s.items
    ensures Stage(Apply(s, a), k)
  {
    hide Stage, Inv, TokensOf, PlainEffect, Apply, Enabled;
    PoolApplied(s, a);
    OtherApplied(s, a);
    if a.GetReady? { StageReady(s, a.id, k); }
    else if a.GetReturned? { StageReturned(s, a.id, k); }
    else if a.PutReady? { StagePut(s, k); }
    else if a.CreateItem? { StageCreate(s, a.id, k); }
    else if a.HandOut? { StageHandOut(s, a.client, k); }
    else if a.HandOutUnusable? { StageUnusable(s, k); }
    else if a.ClientReturn? { StageReturn(s, a.client, a.id, k); }
    else if a.DropReturn? { StageDrop(s, a.id, k); }
    else if a.ItemAct? { StageItem(s, a.id, a.x, k); }
    else { PlainStep(s, a, k); StagePlain(s, a, Apply(s, a), k); }
  }

  // ---------------------------------------------------------------- the history itself

  /** What must have come before an event for it to be allowed. */
  predicate EventOk(cfg: Config, before: Log, e: Event) {
    match e.kind
    case Healthy => Event(StartOk, e.id) in before
    case Initialized => Event(StartOk, e.id) in before && (cfg.hasHealthcheck ==> Event(Healthy, e.id) in before)
    case ResetOk => cfg.hasReset
    case HandedOut => Available(cfg, ViewOf(before, e.id))
    case _ => true
  }

  ghost predicate LogOk(cfg: Config, log: Log) {
    forall j :: 0 <= j < |log| ==> EventOk(cfg, log[..j], log[j])
  }

  lemma LogAppend(cfg: Config, log: Log, e: Event)
    requires LogOk(cfg, log) && EventOk(cfg, log, e)
    ensures LogOk(cfg, log + [e])
  {
    forall j | 0 <= j < |log + [e]| ensures EventOk(cfg, (log + [e])[..j], (log + [e])[j]) {
      if j < |log| {
        assert (log + [e])[..j] == log[..j];
      } else {
        assert (log + [e])[..j] == log;
      }
    }
  }

  lemma LogItem(s: State, id: Id, x: ItemInput)
    requires Enabled(s, ItemAct(id, x)) && Stage(s, id) && LogOk(s.cfg, s.hist.log)
    ensures LogOk(s.cfg, DoItemAct(s, id, x).hist.log)
  {
    hide ItemStep, LogOk;
    match ItemNote(s.cfg, x)
    case None =>
    case Some(kind) => LogAppend(s.cfg, s.hist.log, Event(kind, id));
  }

  lemma LogHandOut(s: State)
    requires s.buffer.queue != [] && Stage(s, s.buffer.queue[0]) && LogOk(s.cfg, s.hist.log)
    ensures LogOk(s.cfg, s.hist.log + [Event(HandedOut, s.buffer.queue[0])])
  {
    assert Queued(s.buffer.queue, s.buffer.queue[0]) > 0;
    LogAppend(s.cfg, s.hist.log, Event(HandedOut, s.buffer.queue[0]));
  }

  lemma LogStep(s: State, a: Action)
    requires Inv(s) && Enabled(s, a) && LogOk(s.cfg, s.hist.log) && forall k :: Stage(s, k)
    ensures LogOk(s.cfg, Apply(s, a).hist.log)
  {
    hide LogOk, Inv, Stage, ViewOf, Apply, DoItemAct;
    PoolApplied(s, a);
    OtherApplied(s, a);
    AddedStep(s, a);
    if Added(s, a) == [] {
      assert s.hist.log + Added(s, a) == s.hist.log;
    } else if a.ItemAct? {
      assert Stage(s, a.id);
      LogItem(s, a.id, a.x);
    } else if a.HandOut? || a.HandOutUnusable? {
      assert Stage(s, s.buffer.queue[0]);
      LogHandOut(s);
    } else {
      LogAppend(s.cfg, s.hist.log, Added(s, a)[0]);
    }
  }

  lemma {:induction false} CleanAlways(cfg: Config, acts: seq<Action>)
    requires Legal(cfg, acts) && Disciplined(acts)
    ensures LogOk(cfg, After(cfg, acts).hist.log)
    ensures forall k :: Stage(After(cfg, acts), k)
    decreases |acts|
  {
    if acts != [] {
      hide Inv, Stage, LogOk, Apply, Enabled, TokensOf;
      var before, s, a := Last(cfg, acts);
      assert !acts[|before|].StrayReturn?;
      assert Disciplined(before) by { forall k | 0 <= k < |before| ensures !before[k].StrayReturn? { assert acts[k] == before[k]; } }
      CleanAlways(cfg, before);
      LogStep(s, a);
      forall k ensures Stage(Apply(s, a), k) {
        OneToken(cfg, before, k);
        HeadExists(cfg, before);
        assert Stage(s, k);
        StageStepAll(s, a, k);
      }
    }
  }

  lemma OneToken(cfg: Config, acts: seq<Action>, id: Id)
    requires Legal(cfg, acts) && Disciplined(acts)
    ensures TokensOf(After(cfg, acts), id) <= Bit(id in After(cfg, acts).items)
  {
    TokensBounded(cfg, acts, id);
    assert StrayReturn(id) !in acts by {
      forall k | 0 <= k < |acts| ensures acts[k] != StrayReturn(id) { assert !acts[k].StrayReturn?; }
    }
  }

  lemma HeadExists(cfg: Config, acts: seq<Action>)
    requires Legal(cfg, acts) && Disciplined(acts)
    ensures var s := After(cfg, acts); s.buffer.queue != [] ==> s.buffer.queue[0] in s.items
  {
    var s := After(cfg, acts);
    if s.buffer.queue != [] {
      OneToken(cfg, acts, s.buffer.queue[0]);
      assert Queued(s.buffer.queue, s.buffer.queue[0]) > 0;
    }
  }

  /** The healthcheck, if there is one, succeeded after the container had been started. */
  predicate CheckedBefore(cfg: Config, log: Log, id: Id, n: nat)
    requires n <= |log|
  {
    && Event(StartOk, id) in log[..n]
    && (cfg.hasHealthcheck ==> exists m :: 0 <= m < n && log[m] == Event(Healthy, id) && Event(StartOk, id) in log[..m])
  }

  /** Every checkout receives a container that was started, then checked, then initialized (where these actions
      exist), each with success. */
  lemma PreparedHandout(cfg: Config, acts: seq<Action>, j: nat)
    requires Legal(cfg, acts) && Disciplined(acts)
    requires j < |After(cfg, acts).hist.log| && After(cfg, acts).hist.log[j].kind.HandedOut?
    ensures var log, id := After(cfg, acts).hist.log, After(cfg, acts).hist.log[j].id;
      && CheckedBefore(cfg, log, id, j)
      && (cfg.hasInitialize ==> exists n :: 0 <= n < j && log[n] == Event(Initialized, id) && CheckedBefore(cfg, log, id, n))
  {
    CleanAlways(cfg, acts);
    var log := After(cfg, acts).hist.log;
    assert EventOk(cfg, log[..j], log[j]);
    HealthyBefore(cfg, log, log[j].id, j);
    if cfg.hasInitialize {
      var n :| 0 <= n < j && log[..j][n] == Event(Initialized, log[j].id);
      assert EventOk(cfg, log[..n], log[n]);
      HealthyBefore(cfg, log, log[j].id, n);
    }
  }

  lemma HealthyBefore(cfg: Config, log: Log, id: Id, n: nat)
    requires LogOk(cfg, log) && n <= |log| && Event(StartOk, id) in log[..n]
    requires cfg.hasHealthcheck ==> Event(Healthy, id) in log[..n]
    ensures CheckedBefore(cfg, log, id, n)
  {
    if cfg.hasHealthcheck {
      var m :| 0 <= m < n && log[..n][m] == Event(Healthy, id);
      assert EventOk(cfg, log[..m], log[m]);
    }
  }

  /** Two checkouts of one container both found it reset as often as checked out; so the second found one more reset. */
  lemma ResetBetween(before: Log, e: Event, between: Log)
    requires e.kind.HandedOut?
    requires Count(before, HandedOut, e.id) == Count(before, ResetOk, e.id)
    requires Count(before + [e] + between, HandedOut, e.id) == Count(before + [e] + between, ResetOk, e.id)
    ensures Event(ResetOk, e.id) in between
  {
    CountAppend(before + [e], between, HandedOut, e.id);
    CountOne(before, e, HandedOut, e.id);
    CountAppend(before + [e], between, ResetOk, e.id);
    CountOne(before, e, ResetOk, e.id);
  }

  lemma ResetsNeedAction(cfg: Config, log: Log, i: nat, j: nat, id: Id)
    requires LogOk(cfg, log) && i <= j <= |log| && Event(ResetOk, id) in log[i..j]
    ensures cfg.hasReset
  {
    var k :| i <= k < j && log[k] == Event(ResetOk, id);
    assert EventOk(cfg, log[..k], log[k]);
  }

  /** Between two checkouts of the same container its reset action has succeeded; without a reset
      action there is no second checkout. */
  lemma ResetBetweenHandouts(cfg: Config, acts: seq<Action>, i: nat, j: nat)
    requires Legal(cfg, acts) && Disciplined(acts)
    requires i < j < |After(cfg, acts).hist.log|
    requires After(cfg, acts).hist.log[i].kind.HandedOut? && After(cfg, acts).hist.log[j] == After(cfg, acts).hist.log[i]
    ensures Event(ResetOk, After(cfg, acts).hist.log[i].id) in After(cfg, acts).hist.log[i + 1..j]
    ensures cfg.hasReset
  {
    hide After, Legal, Count, Stage;
    CleanAlways(cfg, acts);
    var log, e := After(cfg, acts).hist.log, After(cfg, acts).hist.log[i];
    assert EventOk(cfg, log[..i], log[i]) && EventOk(cfg, log[..j], log[j]);
    assert log[..j] == log[..i] + [e] + log[i + 1..j];
    ResetBetween(log[..i], e, log[i + 1..j]);
    ResetsNeedAction(cfg, log, i + 1, j, e.id);
  }
}
