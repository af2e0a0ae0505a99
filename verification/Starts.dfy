// The history is what happened: each note in it is one step of the run. And a container is started once, so
// one whose start Docker refused is never handed out.
module Starts {
  import opened Types
  import opened Logs
  import opened Items
  import opened Containers
  import opened System
  import opened Structure
  import opened Footprint
  import Handout
  import Buffer

  // ---------------------------------------------------------------- notes are steps

  /** How often a run did what this kind of note stands for. */
  function Times(cfg: Config, acts: seq<Action>, kind: Kind, id: Id): nat
    requires !kind.Put? && !kind.HandedOut?
  {
    var m := multiset(acts);
    match kind
    case StartOk => m[ItemAct(id, DoStart(true))]
    case Healthy => if cfg.hasHealthcheck then m[ItemAct(id, ChildRuns(OnStarted, true))] else 0
    case Initialized => if cfg.hasInitialize then m[ItemAct(id, ChildRuns(OnLive, true))] else 0
    case ResetOk => if cfg.hasReset then m[ItemAct(id, ChildRuns(OnReset, true))] else 0
    case ReadySeen => m[GetReady(id)]
    case ExitSeen => m[GetExit(id)]
  }

  lemma TimesAppend(cfg: Config, acts: seq<Action>, a: Action, kind: Kind, id: Id)
    requires !kind.Put? && !kind.HandedOut?
    ensures Times(cfg, acts + [a], kind, id) == Times(cfg, acts, kind, id) + Times(cfg, [a], kind, id)
  {
  }

  lemma AddedOnce(s: State, a: Action, kind: Kind, id: Id)
    requires !kind.Put? && !kind.HandedOut?
    ensures Count(Added(s, a), kind, id) == Times(s.cfg, [a], kind, id)
  {
    TimesOnce(s.cfg, a, kind, id);
    hide Count, Times;
    if Added(s, a) == [] { CountNone(kind, id); } else { CountOnly(Added(s, a)[0], kind, id); }
    if a.ItemAct? { NoteIs(s.cfg, a.x, kind); }
  }

  /** This step is the one that this kind of note stands for. */
  predicate Is(cfg: Config, a: Action, kind: Kind, id: Id) {
    || (kind.ReadySeen? && a == GetReady(id))
    || (kind.ExitSeen? && a == GetExit(id))
    || (a.ItemAct? && a.id == id && IsInput(cfg, a.x, kind))
  }

  predicate IsInput(cfg: Config, x: ItemInput, kind: Kind) {
    || (kind.StartOk? && x == DoStart(true))
    || (kind.Healthy? && cfg.hasHealthcheck && x == ChildRuns(OnStarted, true))
    || (kind.Initialized? && cfg.hasInitialize && x == ChildRuns(OnLive, true))
    || (kind.ResetOk? && cfg.hasReset && x == ChildRuns(OnReset, true))
  }

  lemma TimesOnce(cfg: Config, a: Action, kind: Kind, id: Id)
    requires !kind.Put? && !kind.HandedOut?
    ensures Times(cfg, [a], kind, id) == Bit(Is(cfg, a, kind, id))
  {
  }

  lemma NoteIs(cfg: Config, x: ItemInput, kind: Kind)
    requires !kind.Put? && !kind.HandedOut?
    ensures ItemNote(cfg, x) == Some(kind) <==> IsInput(cfg, x, kind)
  {
  }

  lemma CountNone(kind: Kind, id: Id)
    ensures Count([], kind, id) == 0
  {
  }

  lemma CountOnly(e: Event, kind: Kind, id: Id)
    ensures Count([e], kind, id) == Bit(e == Event(kind, id))
  {
  }

  /** Every start, healthcheck, initialize, reset, Ready and Exit in the history is a step of the run, and
      conversely. */
  lemma {:induction false} NotesAreSteps(cfg: Config, acts: seq<Action>, kind: Kind, id: Id)
    requires Legal(cfg, acts) && !kind.Put? && !kind.HandedOut?
    ensures Count(After(cfg, acts).hist.log, kind, id) == Times(cfg, acts, kind, id)
    decreases |acts|
  {
    if acts != [] {
      hide Inv, Apply, Enabled, Added, Times, Count;
      var before, s, a := Last(cfg, acts);
      NotesAreSteps(cfg, before, kind, id);
      AddedStep(s, a);
      CountAppend(s.hist.log, Added(s, a), kind, id);
      AddedOnce(s, a, kind, id);
      TimesAppend(cfg, before, a, kind, id);
    } else {
      NothingYet(cfg, kind, id);
    }
  }

  lemma NothingYet(cfg: Config, kind: Kind, id: Id)
    requires !kind.Put? && !kind.HandedOut?
    ensures Count(Init(cfg).hist.log, kind, id) == Times(cfg, [], kind, id) == 0
  {
  }

  // ---------------------------------------------------------------- one start

  /** Docker has answered the start of this container. */
  predicate Answered(s: State, k: Id) {
    k in s.items && !s.items[k].container.start.NotStarted? && !s.items[k].container.start.Starting?
  }

  function Answers(acts: seq<Action>, id: Id): nat {
    multiset(acts)[ItemAct(id, DoStart(true))] + multiset(acts)[ItemAct(id, DoStart(false))]
  }

  lemma AnswersAppend(acts: seq<Action>, a: Action, id: Id)
    ensures Answers(acts + [a], id) == Answers(acts, id) + Bit(a == ItemAct(id, DoStart(true)) || a == ItemAct(id, DoStart(false)))
  {
  }

  lemma AnswersStay(cfg: Config, i: ItemState, x: ItemInput)
    requires ItemEnabled(cfg, i, x) && !i.container.start.NotStarted? && !i.container.start.Starting?
    ensures var j := ItemStep(cfg, i, x); !j.container.start.NotStarted? && !j.container.start.Starting? && !x.DoStart?
  {
  }

  lemma AnswerGiven(cfg: Config, i: ItemState, ok: bool)
    requires ItemEnabled(cfg, i, DoStart(ok))
    ensures i.container.start.Starting?
    ensures var j := ItemStep(cfg, i, DoStart(ok)); !j.container.start.NotStarted? && !j.container.start.Starting?
  {
  }

  lemma AnsweredItem(s: State, id: Id, x: ItemInput, k: Id)
    requires Enabled(s, ItemAct(id, x))
    ensures Answered(s, k) ==> Answered(DoItemAct(s, id, x), k) && (k == id ==> !x.DoStart?)
    ensures k == id && x.DoStart? ==> Answered(DoItemAct(s, id, x), k)
  {
    hide DoItemAct, ItemStep, ItemEnabled, ItemNote;
    ItemEffects(s, id, x);
    if k == id && Answered(s, k) { AnswersStay(s.cfg, s.items[id], x); }
    if k == id && x.DoStart? { AnswerGiven(s.cfg, s.items[id], x.ok); }
  }

  lemma AnsweredPlain(s: State, a: Action, t: State, k: Id)
    requires PlainAct(a) && PlainEffect(s, a, t, k) && Answered(s, k)
    ensures Answered(t, k)
  {
    hide SameOutside;
  }

  lemma AnsweredReady(s: State, id: Id, k: Id)
    requires Enabled(s, GetReady(id)) && Answered(s, k)
    ensures Answered(DoGetReady(s, id), k)
  {
  }

  lemma AnsweredReturned(s: State, id: Id, k: Id)
    requires Enabled(s, GetReturned(id)) && Answered(s, k)
    ensures Answered(DoGetReturned(s, id), k)
  {
    hide Remove;
  }

  lemma AnsweredCreate(s: State, id: Id, k: Id)
    requires Enabled(s, CreateItem(id)) && Answered(s, k)
    ensures Answered(DoCreateItem(s, id), k)
  {
  }

  lemma AnsweredPut(s: State, k: Id)
    requires Enabled(s, PutReady) && Answered(s, k)
    ensures Answered(DoPutReady(s), k)
  {
    hide Buffer.Put;
  }

  lemma AnsweredClients(s: State, a: Action, k: Id)
    requires Enabled(s, a) && (a.ClientReturn? || a.StrayReturn? || a.DropReturn?) && Answered(s, k)
    ensures Answered(Apply(s, a), k)
  {
    hide HoldersOf, Add, Remove;
  }

  lemma AnsweredHandOut(s: State, client: Client, k: Id)
    requires Enabled(s, HandOut(client)) && Answered(s, k)
    ensures Answered(DoHandOut(s, client), k)
  {
    hide HoldersOf, Add, Buffer.Take;
  }

  lemma AnsweredUnusable(s: State, k: Id)
    requires Enabled(s, HandOutUnusable) && Answered(s, k)
    ensures Answered(DoHandOutUnusable(s), k)
  {
    hide Add, Buffer.Take;
  }

  lemma AnsweredStep(s: State, a: Action, k: Id)
    requires Inv(s) && Enabled(s, a) && Answered(s, k) && !a.ItemAct?
    ensures Answered(Apply(s, a), k)
  {
    hide Answered, Inv, Apply, Enabled, PlainEffect;
    PoolApplied(s, a);
    OtherApplied(s, a);
    if a.GetReady? { AnsweredReady(s, a.id, k); }
    else if a.GetReturned? { AnsweredReturned(s, a.id, k); }
    else if a.PutReady? { AnsweredPut(s, k); }
    else if a.CreateItem? { AnsweredCreate(s, a.id, k); }
    else if a.HandOut? { AnsweredHandOut(s, a.client, k); }
    else if a.HandOutUnusable? { AnsweredUnusable(s, k); }
    else if PlainAct(a) { PlainStep(s, a, k); AnsweredPlain(s, a, Apply(s, a), k); }
    else { AnsweredClients(s, a, k); }
  }

  /** Docker is asked to start a container at most once, for whatever clients. */
  lemma {:induction false} StartedOnce(cfg: Config, acts: seq<Action>, id: Id)
    requires Legal(cfg, acts)
    ensures Answers(acts, id) <= Bit(Answered(After(cfg, acts), id))
    decreases |acts|
  {
    if acts != [] {
      hide Answers, Answered, Inv, Apply, Enabled;
      var before, s, a := Last(cfg, acts);
      StartedOnce(cfg, before, id);
      AnswersAppend(before, a, id);
      OtherApplied(s, a);
      if a.ItemAct? { AnsweredItem(s, a.id, a.x, id); }
      else if Answered(s, id) { AnsweredStep(s, a, id); }
    } else {
      assert Answers([], id) == 0;
    }
  }

  /** With disciplined clients a container whose start Docker refused is never handed out, in any run. */
  lemma RefusedStartIsNeverHandedOut(cfg: Config, acts: seq<Action>, id: Id)
    requires Legal(cfg, acts) && Disciplined(acts) && ItemAct(id, DoStart(false)) in acts
    ensures Count(After(cfg, acts).hist.log, HandedOut, id) == 0
  {
    hide Legal, After;
    var log := After(cfg, acts).hist.log;
    if Count(log, HandedOut, id) > 0 {
      assert Event(HandedOut, id) in log;
      var j :| 0 <= j < |log| && log[j] == Event(HandedOut, id);
      Handout.PreparedHandout(cfg, acts, j);
      assert Event(StartOk, id) in log;
      NotesAreSteps(cfg, acts, StartOk, id);
      StartedOnce(cfg, acts, id);
      assert false;
    }
  }
}
