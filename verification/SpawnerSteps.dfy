// The spawner's loop and the spawner's steps in the whole system are the same: over any run, the spawner is
// where its loop would be after what it has received.
module SpawnerSteps {
  import opened Types
  import opened Items
  import opened System
  import opened Structure
  import Spawner

  /** What the request loop receives in one step. */
  function HeardNow(s: State, a: Action): seq<Spawner.SpawnerInput> {
    if a.SpawnRequest? && s.requests != [] then [Spawner.Request(s.requests[0])]
    else if a.SpawnRequestsClosed? then [Spawner.RequestsClosed]
    else if a.SpawnItem? && s.spawner.pc.Selecting? then [Spawner.Result(Spawner.Item(a.id))]
    else if a.SpawnError? && s.spawner.pc.Selecting? then [Spawner.Result(Spawner.Failure)]
    else []
  }

  /** What it has received in a run. */
  ghost function Heard(cfg: Config, acts: seq<Action>): seq<Spawner.SpawnerInput>
    requires Legal(cfg, acts)
    decreases |acts|
  {
    if acts == [] then []
    else
      var before := acts[..|acts| - 1];
      Heard(cfg, before) + HeardNow(After(cfg, before), acts[|acts| - 1])
  }

  lemma HeardLast(cfg: Config, acts: seq<Action>, a: Action)
    requires Legal(cfg, acts) && Legal(cfg, acts + [a])
    ensures Heard(cfg, acts + [a]) == Heard(cfg, acts) + HeardNow(After(cfg, acts), a)
  {
    assert (acts + [a])[..|acts|] == acts;
  }

  /** Where the loop is at its next select: an item on offer will have been taken. */
  function NextSelect(s: State): Spawner.SpawnerState {
    if s.spawner.pc.Sending? then Spawner.Fill(Spawner.Sent(s.spawner)) else s.spawner
  }

  predicate Open(xs: seq<Spawner.SpawnerInput>) {
    forall k :: 0 <= k < |xs| ==> !xs[k].RequestsClosed?
  }

  /** Until its requests are closed. */
  predicate Filling(s: State) {
    s.spawner.pc.Selecting? || s.spawner.pc.Sending?
  }

  predicate InStep(s: State, xs: seq<Spawner.SpawnerInput>) {
    Filling(s) ==> Open(xs) && NextSelect(s) == Spawner.Turns(Spawner.NewSpawner(), xs)
  }

  lemma TurnsLast(xs: seq<Spawner.SpawnerInput>, x: Spawner.SpawnerInput)
    requires Open(xs) && !x.RequestsClosed?
    ensures Open(xs + [x])
    ensures Spawner.Turns(Spawner.NewSpawner(), xs + [x]) == Spawner.Turn(Spawner.Turns(Spawner.NewSpawner(), xs), x)
  {
    assert (xs + [x])[..|xs|] == xs;
  }

  lemma RequestStep(s: State)
    requires Inv(s) && Enabled(s, SpawnRequest)
    ensures NextSelect(DoSpawnRequest(s)) == Spawner.Turn(NextSelect(s), HeardNow(s, SpawnRequest)[0])
  {
  }

  lemma ErrorStep(s: State)
    requires Inv(s) && Enabled(s, SpawnError)
    ensures s.spawner.pc.Selecting? ==> NextSelect(DoSpawnError(s)) == Spawner.Turn(NextSelect(s), Spawner.Result(Spawner.Failure))
    ensures Filling(DoSpawnError(s)) <==> Filling(s)
  {
  }

  lemma ItemStepHeard(s: State, id: Id)
    requires Inv(s) && Enabled(s, SpawnItem(id))
    ensures s.spawner.pc.Selecting? ==>
      NextSelect(DoSpawnItem(s, id)) == Spawner.Turn(NextSelect(s), Spawner.Result(Spawner.Item(id)))
    ensures Filling(DoSpawnItem(s, id)) <==> Filling(s)
  {
  }

  /** The offer accepted: that was the rest of the turn. */
  lemma TakeStep(s: State)
    requires Inv(s) && Enabled(s, TakeNext)
    ensures Filling(DoTakeNext(s)) <==> Filling(s)
    ensures Filling(s) ==> NextSelect(DoTakeNext(s)) == NextSelect(s)
  {
    hide Ask, Site;
  }

  lemma OtherPoolStep(s: State, a: Action)
    requires Inv(s) && Enabled(s, a) && PoolAct(a) && !a.TakeNext?
    ensures Apply(s, a).spawner == s.spawner
  {
    hide Ask, KillAll, ItemStep, DoItemAct, Site;
  }

  lemma Step(s: State, a: Action, xs: seq<Spawner.SpawnerInput>)
    requires Inv(s) && Enabled(s, a) && InStep(s, xs)
    ensures InStep(Apply(s, a), xs + HeardNow(s, a))
  {
    hide Inv, Apply, NextSelect;
    PoolApplied(s, a);
    OtherApplied(s, a);
    assert xs + [] == xs;
    if a.SpawnRequest? { RequestStep(s); TurnsLast(xs, HeardNow(s, a)[0]); }
    else if a.SpawnError? { ErrorStep(s); if Filling(s) { TurnsLast(xs, Spawner.Result(Spawner.Failure)); } }
    else if a.SpawnItem? { ItemStepHeard(s, a.id); if Filling(s) { TurnsLast(xs, Spawner.Result(Spawner.Item(a.id))); } }
    else if a.TakeNext? { TakeStep(s); }
    else { ElseStep(s, a); }
  }

  lemma ElseStep(s: State, a: Action)
    requires Inv(s) && Enabled(s, a) && !a.SpawnRequest? && !a.SpawnError? && !a.SpawnItem? && !a.TakeNext?
    ensures Filling(Apply(s, a)) ==> Filling(s) && NextSelect(Apply(s, a)) == NextSelect(s) && !a.SpawnRequestsClosed?
  {
    hide Inv;
    if PoolAct(a) { OtherPoolStep(s, a); }
    else if !SpawnAct(a) { OutsideControl(s, a); }
  }

  /** Over any run the spawner follows its request loop. */
  lemma {:induction false} SpawnerFollowsItsLoop(cfg: Config, acts: seq<Action>)
    requires Legal(cfg, acts)
    ensures InStep(After(cfg, acts), Heard(cfg, acts))
    decreases |acts|
  {
    if acts != [] {
      hide InStep, HeardNow, Inv, Apply, Enabled;
      var before, s, a := Last(cfg, acts);
      SpawnerFollowsItsLoop(cfg, before);
      HeardLast(cfg, before, a);
      Step(s, a, Heard(cfg, before));
    }
  }

  /** So over any run the target of the spawner at its select is the last request it has read, less the items
      it has received since. */
  lemma TargetOverRuns(cfg: Config, acts: seq<Action>, older: seq<Spawner.SpawnerInput>, n: int, since: seq<Spawner.SpawnerInput>)
    requires Legal(cfg, acts) && After(cfg, acts).spawner.pc.Selecting?
    requires Heard(cfg, acts) == older + [Spawner.Request(n)] + since && Spawner.NoRequests(since)
    ensures After(cfg, acts).spawner.needed == Spawner.Less(n, |Spawner.ItemsOf(Spawner.ResultsOf(since))|)
  {
    SpawnerFollowsItsLoop(cfg, acts);
    var all := older + [Spawner.Request(n)] + since;
    forall k | 0 <= k < |older| ensures !older[k].RequestsClosed? { assert all[k] == older[k]; }
    Spawner.TargetExactly(Spawner.NewSpawner(), older, n, since);
  }
}
